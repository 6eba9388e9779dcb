/** The state the UART-link discovery works on: the controller's live
    network of chip configurations, the arrangement's two growing link sets,
    the grid geometry of a LArPix tile (supplied from outside), and the
    outcome of register read-backs over the bus. */
module UartNetwork {
  import opened Common

  /** A 4-entry UART enable list (`enable_miso_upstream` and friends), one
      entry per UART of the chip. */
  datatype Uart = Uart(u0: int, u1: int, u2: int, u3: int)

  const Zeros: Uart := Uart(0, 0, 0, 0)
  const Ones: Uart := Uart(1, 1, 1, 1)
  /** `[1,0,0,0]`: the downstream mask of a root towards the PACMAN. */
  const FirstOnly: Uart := Uart(1, 0, 0, 0)

  /** `_default_clk_ctrl` */
  const DefaultClkCtrl: int := 1

  /** The register fields of a chip configuration that the discovery
      touches. */
  datatype Config = Config(chipId: int, misoUs: Uart, misoDs: Uart, misoDiff: Uart, clkCtrl: int)

  /** A directed UART link `(from_chip, to_chip)`. */
  type Link = (int, int)

  /** The geometry of the chip grid, as far as the discovery reads it: the
      four direction movers (a result below 2 means "off the board"), the
      UART enable list pointing from one chip at a neighbour, and the enable
      list a root chip uses towards the PACMAN. */
  datatype Grid = Grid(
    right: int -> int, left: int -> int, up: int -> int, down: int -> int,
    uartEnable: (int, int) -> Uart,
    rootEnable: int -> Uart)

  /** The outcome of the single-register read-backs (`verify_registers` of
      the chip-id register), as the sets of cases that succeed: the
      `(io_channel, chip_id)` of a root chip answering on its channel, the
      directed links through which the far chip answers, and the
      `(link, attempt)` pairs for which the read-back after the `attempt`-th
      restore following a probe of the link succeeds. */
  datatype Bus = Bus(
    rootOk: set<(int, int)>,
    linkOk: set<Link>,
    restoreOk: set<(Link, int)>)

  /** `get_temp_key`: the key under which a chip that has just been reset
      (and so answers to chip id 1) is addressed. */
  function TempKey(ioGroup: int, ioChannel: int): (k: ChipKey)
    ensures k.ioGroup == ioGroup && k.ioChannel == ioChannel
    ensures forall chip :: chip >= 2 ==> k != ChipKey(ioGroup, ioChannel, chip)
  {
    ChipKey(ioGroup, ioChannel, 1)
  }

  /** `clk_ctrl_2_clk_ratio_map`: clock control setting to UART clock
      ratio. */
  function ClkRatio(clkCtrl: int): (r: Option<int>)
    ensures r.Some? <==> 0 <= clkCtrl <= 3
    ensures r.Some? ==> r.value == Pow2(clkCtrl + 1)
  {
    match clkCtrl
    case 0 => Some(2)
    case 1 => Some(4)
    case 2 => Some(8)
    case 3 => Some(16)
    case _ => None
  }

  function Pow2(n: nat): nat
  {
    if n == 0 then 1 else 2 * Pow2(n - 1)
  }

  /** The larpix controller's chip table. Each key refers to a configuration
      cell; two keys refer to the same cell exactly when the source made one
      key's `config` the very object of another's. */
  class Controller {
    var net: map<ChipKey, int>
    var cells: seq<Config>
    /** The configuration a freshly added chip starts with. */
    const initial: Config

    ghost predicate Valid()
      reads this
    {
      forall k :: k in net ==> 0 <= net[k] < |cells|
    }

    /** A controller with no chips. */
    constructor (initial: Config)
      ensures Valid() && net == map[] && cells == [] && this.initial == initial
    {
      this.initial := initial;
      net := map[];
      cells := [];
    }

    /** `c[key].config` */
    function Get(k: ChipKey): Config
      reads this
      requires Valid() && k in net
    {
      cells[net[k]]
    }

    /** `c.add_chip(key)`: the key gets a new configuration object of its
        own. larpix refuses a key that is already present. */
    method AddChip(k: ChipKey)
      requires Valid() && k !in net
      modifies this
      ensures Valid()
      ensures net == old(net)[k := |old(cells)|] && cells == old(cells) + [initial]
    {
      net := net[k := |cells|];
      cells := cells + [initial];
    }

    /** `c.remove_chip(key)` */
    method RemoveChip(k: ChipKey)
      requires Valid() && k in net
      modifies this
      ensures Valid()
      ensures net == old(net) - {k} && cells == old(cells)
    {
      net := net - {k};
    }

    /** Field writes `c[key].config.<field> = ...`: the object the key
        refers to gets the new value, and so does every key sharing it. */
    method Put(k: ChipKey, c: Config)
      requires Valid() && k in net
      modifies this
      ensures Valid()
      ensures net == old(net) && cells == old(cells)[old(net)[k] := c]
    {
      cells := cells[net[k] := c];
    }

    /** `c[key].config = c[other].config`: `key` now refers to the very
        configuration object of `other`. */
    method Alias(k: ChipKey, other: ChipKey)
      requires Valid() && k in net && other in net
      modifies this
      ensures Valid()
      ensures net == old(net)[k := old(net)[other]] && cells == old(cells)
    {
      net := net[k := net[other]];
    }
  }

  /** The reset-key dance of `get_good_roots` and `init_initial_network`:
      the chip that has just been reset answers to chip id 1, so a key with
      that id is added, its `chip_id` set to the real id (and written), and
      the key removed again. The cell it used is left behind, unreferenced. */
  method RenameThroughTemp(ctrl: Controller, ioGroup: int, ioChannel: int, chip: int)
    requires ctrl.Valid() && TempKey(ioGroup, ioChannel) !in ctrl.net
    modifies ctrl
    ensures ctrl.Valid()
    ensures ctrl.net == old(ctrl.net) && ctrl.cells == old(ctrl.cells) + [ctrl.initial.(chipId := chip)]
  {
    var temp := TempKey(ioGroup, ioChannel);
    ctrl.AddChip(temp);
    ctrl.Put(temp, ctrl.Get(temp).(chipId := chip));
    ctrl.RemoveChip(temp);
  }

  /** The arrangement's record of tested links. */
  class Arrangement {
    const grid: Grid
    var goodConnections: set<Link>
    var excludedLinks: set<Link>

    constructor (grid: Grid)
      ensures this.grid == grid && goodConnections == {} && excludedLinks == {}
    {
      this.grid := grid;
      goodConnections := {};
      excludedLinks := {};
    }

    /** `add_good_connection` */
    method AddGoodConnection(l: Link)
      modifies this
      ensures goodConnections == old(goodConnections) + {l}
      ensures excludedLinks == old(excludedLinks)
    {
      goodConnections := goodConnections + {l};
    }

    /** `add_onesided_excluded_link` */
    method AddOnesidedExcludedLink(l: Link)
      modifies this
      ensures excludedLinks == old(excludedLinks) + {l}
      ensures goodConnections == old(goodConnections)
    {
      excludedLinks := excludedLinks + {l};
    }
  }

  /** The cells `cells0` are still there, unchanged, at the front of
      `cells`. */
  predicate Extends(cells: seq<Config>, cells0: seq<Config>)
  {
    |cells| >= |cells0| && forall j :: 0 <= j < |cells0| ==> cells[j] == cells0[j]
  }

  /** Every key that refers to a cell at or above `base` is the only key
      referring to it: the cells added since `base` are not shared. */
  predicate UniqueFrom(net: map<ChipKey, int>, base: int)
  {
    forall k1, k2 :: k1 in net && k2 in net && k1 != k2 && net[k1] >= base ==> net[k1] != net[k2]
  }

  /** What the path planner promises of the daisy chains it returns: each
      path is non-empty (its first chip is the root), every chip id is a real
      one (at least 2, so it never meets the reset id 1), and no chip appears
      twice in the whole plan. */
  predicate PlannedPaths(paths: seq<seq<int>>)
  {
    (forall i :: 0 <= i < |paths| ==> |paths[i]| >= 1) &&
    (forall i, j :: 0 <= i < |paths| && 0 <= j < |paths[i]| ==> paths[i][j] >= 2) &&
    (forall i, j, i2, j2 ::
       0 <= i < |paths| && 0 <= j < |paths[i]| && 0 <= i2 < |paths| && 0 <= j2 < |paths[i2]| && (i != i2 || j != j2)
       ==> paths[i][j] != paths[i2][j2])
  }

  /** `root_chips = [path[0] for path in paths]` */
  function Roots(paths: seq<seq<int>>): (r: seq<int>)
    requires forall i :: 0 <= i < |paths| ==> |paths[i]| >= 1
    ensures |r| == |paths| && forall i :: 0 <= i < |paths| ==> r[i] == paths[i][0]
  {
    if |paths| == 0 then [] else [paths[0][0]] + Roots(paths[1..])
  }

  /** In a planned network a chip is a root exactly when it starts its
      path. */
  lemma RootsOfPlannedPaths(paths: seq<seq<int>>, i: int, j: int)
    requires PlannedPaths(paths) && 0 <= i < |paths| && 0 <= j < |paths[i]|
    ensures paths[i][j] in Roots(paths) <==> j == 0
  {
    var r := Roots(paths);
    if j != 0 {
      forall i2 | 0 <= i2 < |r| ensures r[i2] != paths[i][j] {
        assert r[i2] == paths[i2][0];
      }
    }
  }

  /** Adding a key that refers to a cell beyond every referenced cell keeps
      the cells from `base` on unshared. */
  lemma UniqueFromAdd(net: map<ChipKey, int>, base: int, k: ChipKey, r: int)
    requires UniqueFrom(net, base) && k !in net
    requires forall k' :: k' in net ==> net[k'] < r
    ensures UniqueFrom(net[k := r], base)
  {
  }
}
