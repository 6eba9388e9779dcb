/** `init_initial_network`: every planned daisy chain is brought up from
    its root outward, one hop at a time, and then silenced again from its
    far end back to the root. */
module UartInit {
  import opened Common
  import opened UartNetwork

  /** The downstream mask a chain chip gets when it is claimed: towards the
      PACMAN for the root, towards the previous chip otherwise. */
  function DownstreamOf(grid: Grid, path: seq<int>, j: int): Uart
    requires 0 <= j < |path|
  {
    if j == 0 then grid.rootEnable(path[0]) else grid.uartEnable(path[j], path[j - 1])
  }

  /** The configuration of the j-th chain chip right after it is claimed. */
  function Reached(initial: Config, grid: Grid, path: seq<int>, j: int): Config
    requires 0 <= j < |path|
  {
    initial.(chipId := path[j], misoDs := DownstreamOf(grid, path, j), misoDiff := Ones)
  }

  /** The configuration of the j-th chain chip once its upstream mask points
      at the next chip. */
  function Linked(initial: Config, grid: Grid, path: seq<int>, j: int): Config
    requires 0 <= j < |path| - 1
  {
    Reached(initial, grid, path, j).(misoUs := grid.uartEnable(path[j], path[j + 1]))
  }

  /** The configuration of the j-th chain chip while the chain is being
      walked: linked if a later chip was reached through it, reached if it
      is the last. */
  function Walked(initial: Config, grid: Grid, path: seq<int>, j: int): Config
    requires 0 <= j < |path|
  {
    if j < |path| - 1 then Linked(initial, grid, path, j) else Reached(initial, grid, path, j)
  }

  /** The configuration every chip of a brought-up chain is left with: both
      UART masks off, differential output on, the default clock. */
  function Silenced(chip: int): Config
  {
    Config(chip, Zeros, Zeros, Ones, DefaultClkCtrl)
  }

  /** The keys of the first `n` chips of a chain on one io channel. */
  function ChainKeys(ioGroup: int, ioChannel: int, path: seq<int>, n: int): set<ChipKey>
    requires 0 <= n <= |path|
  {
    set j | 0 <= j < n :: ChipKey(ioGroup, ioChannel, path[j])
  }

  /** The chips of a chain are real chips (ids of at least 2), none appears
      twice, and only the first is a root. */
  predicate ChainShape(path: seq<int>, roots: seq<int>)
  {
    (forall j :: 0 <= j < |path| ==> path[j] >= 2) &&
    (forall j, j2 :: 0 <= j < j2 < |path| ==> path[j] != path[j2]) &&
    (forall j :: 0 <= j < |path| ==> (path[j] in roots <==> j == 0))
  }

  /** The keys after `s` hops of a chain: chips 0..s are claimed, the j-th
      in the cell at `base + 2 * j + 1`, and the keys there before keep their
      cells. */
  ghost predicate WalkedKeys(net: map<ChipKey, int>, net0: map<ChipKey, int>, base: int,
                             ioGroup: int, ioChannel: int, path: seq<int>, s: int)
    requires 0 <= s < |path|
  {
    net.Keys == net0.Keys + ChainKeys(ioGroup, ioChannel, path, s + 1) &&
    (forall k :: k in net0 ==> net[k] == net0[k]) &&
    (forall j :: 0 <= j <= s ==>
       ChipKey(ioGroup, ioChannel, path[j]) in net && net[ChipKey(ioGroup, ioChannel, path[j])] == base + 2 * j + 1)
  }

  /** The cells after `s` hops of a chain: two cells per claimed chip were
      added after the old ones; the chips before the s-th are linked onward,
      the s-th has just been reached. */
  ghost predicate WalkedCells(cells: seq<Config>, cells0: seq<Config>, initial: Config, grid: Grid, path: seq<int>, s: int)
    requires 0 <= s < |path|
  {
    Extends(cells, cells0) && |cells| == |cells0| + 2 * s + 2 &&
    (forall j :: 0 <= j < s ==> cells[|cells0| + 2 * j + 1] == Linked(initial, grid, path, j)) &&
    cells[|cells0| + 2 * s + 1] == Reached(initial, grid, path, s)
  }

  /** The controller after `s` hops of a chain. */
  ghost predicate Walking(net: map<ChipKey, int>, cells: seq<Config>,
                          net0: map<ChipKey, int>, cells0: seq<Config>,
                          initial: Config, grid: Grid, ioGroup: int, ioChannel: int, path: seq<int>, s: int)
    requires 0 <= s < |path|
  {
    WalkedKeys(net, net0, |cells0|, ioGroup, ioChannel, path, s) &&
    WalkedCells(cells, cells0, initial, grid, path, s)
  }

  /** Claims chip `path[j]` of a chain: renames it through the reset key,
      adds its own key and sets its id, downstream mask and differential
      output. */
  method ClaimChainChip(ctrl: Controller, grid: Grid, ioGroup: int, ioChannel: int, path: seq<int>, j: int)
    requires ctrl.Valid() && 0 <= j < |path|
    requires TempKey(ioGroup, ioChannel) !in ctrl.net && ChipKey(ioGroup, ioChannel, path[j]) !in ctrl.net
    modifies ctrl
    ensures ctrl.Valid()
    ensures ctrl.net == old(ctrl.net)[ChipKey(ioGroup, ioChannel, path[j]) := old(|ctrl.cells|) + 1]
    ensures Extends(ctrl.cells, old(ctrl.cells)) && |ctrl.cells| == old(|ctrl.cells|) + 2
    ensures ctrl.cells[old(|ctrl.cells|) + 1] == Reached(ctrl.initial, grid, path, j)
  {
    RenameThroughTemp(ctrl, ioGroup, ioChannel, path[j]);
    var key := ChipKey(ioGroup, ioChannel, path[j]);
    ctrl.AddChip(key);
    ctrl.Put(key, ctrl.Get(key).(chipId := key.chipId));
    ctrl.Put(key, ctrl.Get(key).(misoDs := DownstreamOf(grid, path, j)));
    ctrl.Put(key, ctrl.Get(key).(misoDiff := Ones));
  }

  /** Claiming the root starts the walk. */
  lemma WalkingStart(net: map<ChipKey, int>, cells: seq<Config>,
                     net0: map<ChipKey, int>, cells0: seq<Config>,
                     initial: Config, grid: Grid, ioGroup: int, ioChannel: int, path: seq<int>)
    requires |path| >= 1 && ChipKey(ioGroup, ioChannel, path[0]) !in net0
    requires net == net0[ChipKey(ioGroup, ioChannel, path[0]) := |cells0| + 1]
    requires Extends(cells, cells0) && |cells| == |cells0| + 2
    requires cells[|cells0| + 1] == Reached(initial, grid, path, 0)
    ensures Walking(net, cells, net0, cells0, initial, grid, ioGroup, ioChannel, path, 0)
  {
    assert ChainKeys(ioGroup, ioChannel, path, 1) == {ChipKey(ioGroup, ioChannel, path[0])};
  }

  /** Claiming chip s adds its key, in the cell after the next. */
  lemma WalkedKeysStep(net: map<ChipKey, int>, net0: map<ChipKey, int>, base: int,
                       ioGroup: int, ioChannel: int, path: seq<int>, s: int, net': map<ChipKey, int>)
    requires 1 <= s < |path|
    requires WalkedKeys(net, net0, base, ioGroup, ioChannel, path, s - 1)
    requires ChipKey(ioGroup, ioChannel, path[s]) !in net
    requires net' == net[ChipKey(ioGroup, ioChannel, path[s]) := base + 2 * s + 1]
    ensures WalkedKeys(net', net0, base, ioGroup, ioChannel, path, s)
  {
    var key := ChipKey(ioGroup, ioChannel, path[s]);
    assert ChainKeys(ioGroup, ioChannel, path, s + 1) == ChainKeys(ioGroup, ioChannel, path, s) + {key};
    forall k | k in net0 ensures net'[k] == net0[k] {
      assert k in net;
    }
    forall j | 0 <= j <= s
      ensures ChipKey(ioGroup, ioChannel, path[j]) in net'
      ensures net'[ChipKey(ioGroup, ioChannel, path[j])] == base + 2 * j + 1
    {
      if j < s {
        assert ChipKey(ioGroup, ioChannel, path[j]) in net;
      }
    }
  }

  /** Linking chip s-1 and claiming chip s extends the cells. */
  lemma WalkedCellsStep(cells: seq<Config>, cells0: seq<Config>, initial: Config, grid: Grid, path: seq<int>, s: int,
                        cells': seq<Config>)
    requires 1 <= s < |path|
    requires WalkedCells(cells, cells0, initial, grid, path, s - 1)
    requires |cells'| == |cells| + 2
    requires forall q :: 0 <= q < |cells| - 1 ==> cells'[q] == cells[q]
    requires cells'[|cells| - 1] == cells[|cells| - 1].(misoUs := grid.uartEnable(path[s - 1], path[s]))
    requires cells'[|cells| + 1] == Reached(initial, grid, path, s)
    ensures WalkedCells(cells', cells0, initial, grid, path, s)
  {
    assert cells'[|cells| - 1] == Linked(initial, grid, path, s - 1);
    assert |cells0| + 2 * (s - 1) + 1 == |cells| - 1;
  }

  /** Linking chip s-1 and claiming chip s takes the walk one hop
      further. */
  lemma WalkStep(net1: map<ChipKey, int>, cells1: seq<Config>, net2: map<ChipKey, int>, cells2: seq<Config>,
                 net0: map<ChipKey, int>, cells0: seq<Config>,
                 initial: Config, grid: Grid, ioGroup: int, ioChannel: int, path: seq<int>, s: int)
    requires 1 <= s < |path|
    requires Walking(net1, cells1, net0, cells0, initial, grid, ioGroup, ioChannel, path, s - 1)
    requires ChipKey(ioGroup, ioChannel, path[s]) !in net1
    requires net2 == net1[ChipKey(ioGroup, ioChannel, path[s]) := |cells1| + 1]
    requires |cells2| == |cells1| + 2
    requires forall q :: 0 <= q < |cells1| - 1 ==> cells2[q] == cells1[q]
    requires cells2[|cells1| - 1] == cells1[|cells1| - 1].(misoUs := grid.uartEnable(path[s - 1], path[s]))
    requires cells2[|cells1| + 1] == Reached(initial, grid, path, s)
    ensures Walking(net2, cells2, net0, cells0, initial, grid, ioGroup, ioChannel, path, s)
  {
    WalkedKeysStep(net1, net0, |cells0|, ioGroup, ioChannel, path, s, net2);
    WalkedCellsStep(cells1, cells0, initial, grid, path, s, cells2);
  }

  /** Before hop s the previous chip sits in the last cell and neither the
      reset key nor the next chip's key is taken. */
  lemma WalkReady(net: map<ChipKey, int>, cells: seq<Config>,
                  net0: map<ChipKey, int>, cells0: seq<Config>,
                  initial: Config, grid: Grid, roots: seq<int>, ioGroup: int, ioChannel: int, path: seq<int>, s: int)
    requires 1 <= s < |path| && ChainShape(path, roots)
    requires Walking(net, cells, net0, cells0, initial, grid, ioGroup, ioChannel, path, s - 1)
    requires TempKey(ioGroup, ioChannel) !in net0
    requires forall j :: 0 <= j < |path| ==> ChipKey(ioGroup, ioChannel, path[j]) !in net0
    ensures ChipKey(ioGroup, ioChannel, path[s - 1]) in net
    ensures net[ChipKey(ioGroup, ioChannel, path[s - 1])] == |cells| - 1
    ensures cells[|cells| - 1] == Reached(initial, grid, path, s - 1)
    ensures TempKey(ioGroup, ioChannel) !in net && ChipKey(ioGroup, ioChannel, path[s]) !in net
  {
    assert TempKey(ioGroup, ioChannel) !in ChainKeys(ioGroup, ioChannel, path, s);
    forall j | 0 <= j < s ensures ChipKey(ioGroup, ioChannel, path[j]) != ChipKey(ioGroup, ioChannel, path[s]) {
      assert path[j] != path[s];
    }
  }

  /** Points chip s-1, held in the last cell, at chip s, and claims
      chip s. */
  method LinkAndClaim(ctrl: Controller, grid: Grid, ioGroup: int, ioChannel: int, path: seq<int>, s: int)
    requires ctrl.Valid() && 1 <= s < |path|
    requires ChipKey(ioGroup, ioChannel, path[s - 1]) in ctrl.net
    requires ctrl.net[ChipKey(ioGroup, ioChannel, path[s - 1])] == |ctrl.cells| - 1
    requires TempKey(ioGroup, ioChannel) !in ctrl.net && ChipKey(ioGroup, ioChannel, path[s]) !in ctrl.net
    modifies ctrl
    ensures ctrl.Valid()
    ensures ctrl.net == old(ctrl.net)[ChipKey(ioGroup, ioChannel, path[s]) := old(|ctrl.cells|) + 1]
    ensures |ctrl.cells| == old(|ctrl.cells|) + 2
    ensures forall q :: 0 <= q < old(|ctrl.cells|) - 1 ==> ctrl.cells[q] == old(ctrl.cells[q])
    ensures ctrl.cells[old(|ctrl.cells|) - 1] == old(ctrl.cells[|ctrl.cells| - 1]).(misoUs := grid.uartEnable(path[s - 1], path[s]))
    ensures ctrl.cells[old(|ctrl.cells|) + 1] == Reached(ctrl.initial, grid, path, s)
  {
    var prev := ChipKey(ioGroup, ioChannel, path[s - 1]);
    ctrl.Put(prev, ctrl.Get(prev).(misoUs := grid.uartEnable(path[s - 1], path[s])));
    ClaimChainChip(ctrl, grid, ioGroup, ioChannel, path, s);
  }

  /** The state of the hop loop after `step` hops: nothing done yet, or
      the walk has reached chip `step` and `ordered` lists chips 0..step. */
  ghost predicate HopState(net: map<ChipKey, int>, cells: seq<Config>,
                           net0: map<ChipKey, int>, cells0: seq<Config>,
                           initial: Config, grid: Grid, ioGroup: int, ioChannel: int, path: seq<int>,
                           step: int, ordered: seq<int>)
  {
    if step == 0 then net == net0 && cells == cells0 && ordered == []
    else
      0 < step < |path| &&
      Walking(net, cells, net0, cells0, initial, grid, ioGroup, ioChannel, path, step) &&
      ListsFirst(ordered, path, step + 1)
  }

  /** One hop of the walk: at the first hop the root is claimed again
      (`prev_key.chip_id in root_chips`) and listed; then the walk advances
      to the next chip. */
  method Hop(ctrl: Controller, grid: Grid, roots: seq<int>, ioGroup: int, ioChannel: int, path: seq<int>, s: int,
             ordered: seq<int>, ghost net0: map<ChipKey, int>, ghost cells0: seq<Config>)
    returns (ordered': seq<int>)
    requires ctrl.Valid() && 1 <= s < |path| && ChainShape(path, roots)
    requires HopState(ctrl.net, ctrl.cells, net0, cells0, ctrl.initial, grid, ioGroup, ioChannel, path, s - 1, ordered)
    requires TempKey(ioGroup, ioChannel) !in net0
    requires forall j :: 0 <= j < |path| ==> ChipKey(ioGroup, ioChannel, path[j]) !in net0
    modifies ctrl
    ensures ctrl.Valid()
    ensures HopState(ctrl.net, ctrl.cells, net0, cells0, ctrl.initial, grid, ioGroup, ioChannel, path, s, ordered')
  {
    ordered' := ordered;
    if path[s - 1] in roots {
      assert s == 1;
      ClaimChainChip(ctrl, grid, ioGroup, ioChannel, path, 0);
      WalkingStart(ctrl.net, ctrl.cells, net0, cells0, ctrl.initial, grid, ioGroup, ioChannel, path);
      ordered' := ordered' + [path[s - 1]];
    } else {
      assert s > 1;
    }
    ordered' := Advance(ctrl, grid, roots, ioGroup, ioChannel, path, s, ordered', net0, cells0);
  }

  /** The rest of a hop: the previous chip's upstream mask is pointed at
      the next chip, and the next chip is claimed and listed. */
  method Advance(ctrl: Controller, grid: Grid, roots: seq<int>, ioGroup: int, ioChannel: int, path: seq<int>, s: int,
                 ordered: seq<int>, ghost net0: map<ChipKey, int>, ghost cells0: seq<Config>)
    returns (ordered': seq<int>)
    requires ctrl.Valid() && 1 <= s < |path| && ChainShape(path, roots)
    requires Walking(ctrl.net, ctrl.cells, net0, cells0, ctrl.initial, grid, ioGroup, ioChannel, path, s - 1)
    requires ListsFirst(ordered, path, s)
    requires TempKey(ioGroup, ioChannel) !in net0
    requires forall j :: 0 <= j < |path| ==> ChipKey(ioGroup, ioChannel, path[j]) !in net0
    modifies ctrl
    ensures ctrl.Valid()
    ensures HopState(ctrl.net, ctrl.cells, net0, cells0, ctrl.initial, grid, ioGroup, ioChannel, path, s, ordered')
  {
    ghost var net1, cells1 := ctrl.net, ctrl.cells;
    WalkReady(net1, cells1, net0, cells0, ctrl.initial, grid, roots, ioGroup, ioChannel, path, s);
    LinkAndClaim(ctrl, grid, ioGroup, ioChannel, path, s);
    WalkStep(net1, cells1, ctrl.net, ctrl.cells, net0, cells0, ctrl.initial, grid, ioGroup, ioChannel, path, s);
    ordered' := ordered + [path[s]];
    ListsFirstStep(ordered, path, s, ordered');
  }

  /** The first `t` chips from the far end of the chain are silenced; the
      others are still as the walk left them. */
  ghost predicate SilencedFrom(cells: seq<Config>, cells0: seq<Config>, initial: Config, grid: Grid, path: seq<int>, t: int)
  {
    |cells| == |cells0| + 2 * |path| && Extends(cells, cells0) &&
    forall j :: 0 <= j < |path| ==>
      cells[|cells0| + 2 * j + 1] == if j >= |path| - t then Silenced(path[j]) else Walked(initial, grid, path, j)
  }

  lemma SilencedFromStart(cells: seq<Config>, cells0: seq<Config>, initial: Config, grid: Grid, path: seq<int>)
    requires |path| >= 1
    requires WalkedCells(cells, cells0, initial, grid, path, |path| - 1)
    ensures SilencedFrom(cells, cells0, initial, grid, path, 0)
  {
    forall j | 0 <= j < |path| ensures cells[|cells0| + 2 * j + 1] == Walked(initial, grid, path, j) {
      if j < |path| - 1 {
        assert cells[|cells0| + 2 * j + 1] == Linked(initial, grid, path, j);
      }
    }
  }

  lemma SilencedFromStep(cells: seq<Config>, cells0: seq<Config>, initial: Config, grid: Grid, path: seq<int>, t: int,
                         q: int, cells': seq<Config>)
    requires 0 <= t < |path| && q == |cells0| + 2 * (|path| - 1 - t) + 1
    requires SilencedFrom(cells, cells0, initial, grid, path, t)
    requires cells' == cells[q := cells[q].(misoDs := Zeros, misoUs := Zeros, clkCtrl := DefaultClkCtrl)]
    ensures SilencedFrom(cells', cells0, initial, grid, path, t + 1)
  {
    var n := |path|;
    assert cells'[q] == Silenced(path[n - 1 - t]) by {
      assert cells[q] == Walked(initial, grid, path, n - 1 - t);
    }
    forall j | 0 <= j < n
      ensures cells'[|cells0| + 2 * j + 1] ==
        if j >= n - (t + 1) then Silenced(path[j]) else Walked(initial, grid, path, j)
    {
      if j != n - 1 - t {
        assert cells'[|cells0| + 2 * j + 1] == cells[|cells0| + 2 * j + 1];
      }
    }
    forall j | 0 <= j < |cells0| ensures cells'[j] == cells0[j] {
      assert cells'[j] == cells[j];
    }
  }

  /** The three writes that silence one chip: downstream and upstream masks
      off, default clock. */
  method SilenceChip(ctrl: Controller, key: ChipKey)
    requires ctrl.Valid() && key in ctrl.net
    modifies ctrl
    ensures ctrl.Valid() && ctrl.net == old(ctrl.net)
    ensures ctrl.cells == old(ctrl.cells)[ctrl.net[key] :=
      old(ctrl.cells[ctrl.net[key]]).(misoDs := Zeros, misoUs := Zeros, clkCtrl := DefaultClkCtrl)]
  {
    ctrl.Put(key, ctrl.Get(key).(misoDs := Zeros));
    ctrl.Put(key, ctrl.Get(key).(misoUs := Zeros));
    ctrl.Put(key, ctrl.Get(key).(clkCtrl := DefaultClkCtrl));
  }

  /** `ordered` lists the first `n` chips of the chain. */
  predicate ListsFirst(ordered: seq<int>, path: seq<int>, n: int)
  {
    |ordered| == n <= |path| && forall j :: 0 <= j < n ==> ordered[j] == path[j]
  }

  /** Each hop appends the chip it reached. */
  lemma ListsFirstStep(ordered: seq<int>, path: seq<int>, s: int, ordered': seq<int>)
    requires 1 <= s < |path| && ListsFirst(ordered, path, s)
    requires ordered' == ordered + [path[s]]
    ensures ListsFirst(ordered', path, s + 1)
  {
    assert forall j :: 0 <= j < s ==> ordered'[j] == ordered[j];
  }

  /** The controller once a chain has been brought up: the keys of its
      first `n` chips were added, each refers to a cell of its own holding
      the silenced configuration, and nothing that was there before changed. */
  ghost predicate BroughtUp(net: map<ChipKey, int>, cells: seq<Config>,
                            net0: map<ChipKey, int>, cells0: seq<Config>,
                            ioGroup: int, ioChannel: int, path: seq<int>, n: int)
    requires 0 <= n <= |path|
  {
    net.Keys == net0.Keys + ChainKeys(ioGroup, ioChannel, path, n) &&
    (forall k :: k in net0 ==> net[k] == net0[k]) &&
    Extends(cells, cells0) &&
    (forall j :: 0 <= j < n ==>
       ChipKey(ioGroup, ioChannel, path[j]) in net &&
       |cells0| <= net[ChipKey(ioGroup, ioChannel, path[j])] < |cells| &&
       cells[net[ChipKey(ioGroup, ioChannel, path[j])]] == Silenced(path[j]))
  }

  /** The silencing loop of `init_initial_network`: every discovered chip,
      from the far end back to the root, gets both UART masks off and the
      default clock. */
  method SilenceChain(ctrl: Controller, grid: Grid, ioGroup: int, ioChannel: int, path: seq<int>, ordered: seq<int>,
                      ghost net0: map<ChipKey, int>, ghost cells0: seq<Config>)
    requires ctrl.Valid()
    requires |path| >= 2 && ordered == path
    requires Walking(ctrl.net, ctrl.cells, net0, cells0, ctrl.initial, grid, ioGroup, ioChannel, path, |path| - 1)
    modifies ctrl
    ensures ctrl.Valid()
    ensures BroughtUp(ctrl.net, ctrl.cells, net0, cells0, ioGroup, ioChannel, path, |path|)
  {
    ghost var netW := ctrl.net;
    SilencedFromStart(ctrl.cells, cells0, ctrl.initial, grid, path);
    for t := 0 to |ordered|
      invariant ctrl.Valid() && ctrl.net == netW
      invariant SilencedFrom(ctrl.cells, cells0, ctrl.initial, grid, path, t)
    {
      var key := ChipKey(ioGroup, ioChannel, ordered[|ordered| - 1 - t]);
      ghost var q := ctrl.net[key];
      assert q == |cells0| + 2 * (|path| - 1 - t) + 1;
      ghost var cells1 := ctrl.cells;
      SilenceChip(ctrl, key);
      SilencedFromStep(cells1, cells0, ctrl.initial, grid, path, t, q, ctrl.cells);
    }
    SilencedKeys(netW, ctrl.cells, net0, cells0, ctrl.initial, grid, ioGroup, ioChannel, path);
  }

  /** At the end of the silencing loop the chain is brought up. */
  lemma SilencedKeys(net: map<ChipKey, int>, cells: seq<Config>,
                     net0: map<ChipKey, int>, cells0: seq<Config>,
                     initial: Config, grid: Grid, ioGroup: int, ioChannel: int, path: seq<int>)
    requires |path| >= 1
    requires WalkedKeys(net, net0, |cells0|, ioGroup, ioChannel, path, |path| - 1)
    requires SilencedFrom(cells, cells0, initial, grid, path, |path|)
    ensures BroughtUp(net, cells, net0, cells0, ioGroup, ioChannel, path, |path|)
  {
    forall j | 0 <= j < |path|
      ensures ChipKey(ioGroup, ioChannel, path[j]) in net
      ensures |cells0| <= net[ChipKey(ioGroup, ioChannel, path[j])] < |cells|
      ensures cells[net[ChipKey(ioGroup, ioChannel, path[j])]] == Silenced(path[j])
    {
      assert net[ChipKey(ioGroup, ioChannel, path[j])] == |cells0| + 2 * j + 1;
    }
  }

  /** The hop loop of `init_initial_network` for one chain: claims the
      chips from the root outward, pointing each one's upstream mask at the
      next. A chain of a single chip is left alone: not even its root is
      added. */
  method WalkChain(ctrl: Controller, grid: Grid, roots: seq<int>, ioGroup: int, ioChannel: int, path: seq<int>)
    returns (ordered: seq<int>)
    requires ctrl.Valid() && ChainShape(path, roots)
    requires TempKey(ioGroup, ioChannel) !in ctrl.net
    requires forall j :: 0 <= j < |path| ==> ChipKey(ioGroup, ioChannel, path[j]) !in ctrl.net
    modifies ctrl
    ensures ctrl.Valid()
    ensures |path| < 2 ==> ordered == [] && ctrl.net == old(ctrl.net) && ctrl.cells == old(ctrl.cells)
    ensures |path| >= 2 ==>
      ordered == path &&
      Walking(ctrl.net, ctrl.cells, old(ctrl.net), old(ctrl.cells), ctrl.initial, grid, ioGroup, ioChannel, path, |path| - 1)
  {
    ghost var net0, cells0 := ctrl.net, ctrl.cells;
    ordered := [];
    var step := 0;
    while step < |path| - 1
      invariant ctrl.Valid() && 0 <= step
      invariant HopState(ctrl.net, ctrl.cells, net0, cells0, ctrl.initial, grid, ioGroup, ioChannel, path, step, ordered)
      decreases |path| - step
    {
      step := step + 1;
      ordered := Hop(ctrl, grid, roots, ioGroup, ioChannel, path, step, ordered, net0, cells0);
    }
    WalkDone(ctrl.net, ctrl.cells, net0, cells0, ctrl.initial, grid, ioGroup, ioChannel, path, step, ordered);
  }

  /** When the hop loop stops, a chain of two or more chips has been walked
      to its end and listed whole. */
  lemma WalkDone(net: map<ChipKey, int>, cells: seq<Config>,
                 net0: map<ChipKey, int>, cells0: seq<Config>,
                 initial: Config, grid: Grid, ioGroup: int, ioChannel: int, path: seq<int>,
                 step: int, ordered: seq<int>)
    requires 0 <= step && step >= |path| - 1
    requires HopState(net, cells, net0, cells0, initial, grid, ioGroup, ioChannel, path, step, ordered)
    ensures |path| < 2 ==> ordered == [] && net == net0 && cells == cells0
    ensures |path| >= 2 ==>
      ordered == path &&
      Walking(net, cells, net0, cells0, initial, grid, ioGroup, ioChannel, path, |path| - 1)
  {
    if |path| >= 2 {
      assert step == |path| - 1;
    }
  }

  /** One iteration of `init_initial_network`'s outer loop: walks the chain
      of one io channel, then silences every chip it discovered. */
  method BringUpPath(ctrl: Controller, grid: Grid, roots: seq<int>, ioGroup: int, ioChannel: int, path: seq<int>)
    returns (ordered: seq<int>)
    requires ctrl.Valid() && ChainShape(path, roots)
    requires TempKey(ioGroup, ioChannel) !in ctrl.net
    requires forall j :: 0 <= j < |path| ==> ChipKey(ioGroup, ioChannel, path[j]) !in ctrl.net
    modifies ctrl
    ensures ctrl.Valid()
    ensures ordered == if |path| >= 2 then path else []
    ensures BroughtUp(ctrl.net, ctrl.cells, old(ctrl.net), old(ctrl.cells), ioGroup, ioChannel, path, |ordered|)
  {
    ordered := WalkChain(ctrl, grid, roots, ioGroup, ioChannel, path);
    if |path| >= 2 {
      SilenceChain(ctrl, grid, ioGroup, ioChannel, path, ordered, old(ctrl.net), old(ctrl.cells));
    } else {
      assert ChainKeys(ioGroup, ioChannel, path, 0) == {};
    }
  }

  /** The chips of a planned path that `init_initial_network` discovers:
      the whole path when it has a hop to walk, none otherwise. */
  function Discovered(path: seq<int>): seq<int>
  {
    if |path| >= 2 then path else []
  }

  /** The keys the first `n` paths add, each on the io channel at the same
      index as its path. */
  function UpKeys(ioGroup: int, ioChannels: seq<int>, paths: seq<seq<int>>, n: int): set<ChipKey>
    requires 0 <= n <= |paths| <= |ioChannels|
  {
    set i, j | 0 <= i < n && 0 <= j < |paths[i]| && |paths[i]| >= 2 :: ChipKey(ioGroup, ioChannels[i], paths[i][j])
  }

  /** The controller once the first `n` paths have been brought up: their
      keys were added, each refers to a cell of its own beyond the old ones
      holding the silenced configuration, and nothing that was there before
      changed. */
  ghost predicate NetworkUp(net: map<ChipKey, int>, cells: seq<Config>,
                            net0: map<ChipKey, int>, cells0: seq<Config>,
                            ioGroup: int, ioChannels: seq<int>, paths: seq<seq<int>>, n: int)
    requires 0 <= n <= |paths| <= |ioChannels|
  {
    net.Keys == net0.Keys + UpKeys(ioGroup, ioChannels, paths, n) &&
    (forall k :: k in net0 ==> net[k] == net0[k]) &&
    Extends(cells, cells0) &&
    (forall i :: 0 <= i < n ==> PathSilenced(net, cells, |cells0|, ioGroup, ioChannels[i], paths[i]))
  }

  /** Every chip a path discovers has its key, referring to a cell from
      `base` on that holds its silenced configuration. */
  ghost predicate PathSilenced(net: map<ChipKey, int>, cells: seq<Config>, base: int,
                               ioGroup: int, ioChannel: int, path: seq<int>)
    requires 0 <= base
  {
    forall j :: 0 <= j < |path| && |path| >= 2 ==>
      ChipKey(ioGroup, ioChannel, path[j]) in net &&
      base <= net[ChipKey(ioGroup, ioChannel, path[j])] < |cells| &&
      cells[net[ChipKey(ioGroup, ioChannel, path[j])]] == Silenced(path[j])
  }

  /** A silenced path stays silenced when keys and cells are only added. */
  lemma PathSilencedKept(net1: map<ChipKey, int>, cells1: seq<Config>, net2: map<ChipKey, int>, cells2: seq<Config>,
                         base: int, ioGroup: int, ioChannel: int, path: seq<int>)
    requires 0 <= base && PathSilenced(net1, cells1, base, ioGroup, ioChannel, path)
    requires forall k :: k in net1 ==> k in net2 && net2[k] == net1[k]
    requires Extends(cells2, cells1)
    ensures PathSilenced(net2, cells2, base, ioGroup, ioChannel, path)
  {
    forall j | 0 <= j < |path| && |path| >= 2
      ensures ChipKey(ioGroup, ioChannel, path[j]) in net2
      ensures base <= net2[ChipKey(ioGroup, ioChannel, path[j])] < |cells2|
      ensures cells2[net2[ChipKey(ioGroup, ioChannel, path[j])]] == Silenced(path[j])
    {
      var k := ChipKey(ioGroup, ioChannel, path[j]);
      assert k in net1 && net2[k] == net1[k] && net1[k] < |cells1|;
    }
  }

  /** A brought-up chain is a silenced path. */
  lemma BroughtUpSilenced(net2: map<ChipKey, int>, cells2: seq<Config>, net1: map<ChipKey, int>, cells1: seq<Config>,
                          base: int, ioGroup: int, ioChannel: int, path: seq<int>)
    requires 0 <= base <= |cells1|
    requires BroughtUp(net2, cells2, net1, cells1, ioGroup, ioChannel, path, |Discovered(path)|)
    ensures PathSilenced(net2, cells2, base, ioGroup, ioChannel, path)
  {
    if |path| >= 2 {
      assert |Discovered(path)| == |path|;
    }
  }

  /** None of the keys `init_initial_network` adds is there beforehand, and
      neither is the reset key of any channel it walks. */
  predicate FreshFor(net: map<ChipKey, int>, ioGroup: int, ioChannels: seq<int>, paths: seq<seq<int>>)
    requires |paths| <= |ioChannels|
  {
    (forall i :: 0 <= i < |paths| ==> TempKey(ioGroup, ioChannels[i]) !in net) &&
    (forall i, j :: 0 <= i < |paths| && 0 <= j < |paths[i]| ==> ChipKey(ioGroup, ioChannels[i], paths[i][j]) !in net)
  }

  /** Every planned path has the shape a chain walk needs. */
  lemma PlannedChainShape(paths: seq<seq<int>>, n: int)
    requires PlannedPaths(paths) && 0 <= n < |paths|
    ensures ChainShape(paths[n], Roots(paths))
  {
    forall j | 0 <= j < |paths[n]|
      ensures paths[n][j] in Roots(paths) <==> j == 0
    {
      RootsOfPlannedPaths(paths, n, j);
    }
  }

  /** After the first `n` paths, the keys of path `n` and its channel's
      reset key are still free: chip ids are never shared between paths and
      never the reset id. */
  lemma StillFresh(net: map<ChipKey, int>, cells: seq<Config>,
                   net0: map<ChipKey, int>, cells0: seq<Config>,
                   ioGroup: int, ioChannels: seq<int>, paths: seq<seq<int>>, n: int)
    requires PlannedPaths(paths) && 0 <= n < |paths| <= |ioChannels|
    requires FreshFor(net0, ioGroup, ioChannels, paths)
    requires NetworkUp(net, cells, net0, cells0, ioGroup, ioChannels, paths, n)
    ensures TempKey(ioGroup, ioChannels[n]) !in net
    ensures forall j :: 0 <= j < |paths[n]| ==> ChipKey(ioGroup, ioChannels[n], paths[n][j]) !in net
  {
    forall i, j | 0 <= i < n && 0 <= j < |paths[i]| && |paths[i]| >= 2
      ensures ChipKey(ioGroup, ioChannels[i], paths[i][j]) != TempKey(ioGroup, ioChannels[n])
      ensures forall j2 :: 0 <= j2 < |paths[n]| ==> ChipKey(ioGroup, ioChannels[i], paths[i][j]) != ChipKey(ioGroup, ioChannels[n], paths[n][j2])
    {
      assert paths[i][j] >= 2;
    }
  }

  /** The keys of the first `n + 1` paths are those of the first `n` and
      those path `n` discovers. */
  lemma UpKeysStep(ioGroup: int, ioChannels: seq<int>, paths: seq<seq<int>>, n: int)
    requires 0 <= n < |paths| <= |ioChannels|
    ensures UpKeys(ioGroup, ioChannels, paths, n + 1) ==
            UpKeys(ioGroup, ioChannels, paths, n) + ChainKeys(ioGroup, ioChannels[n], paths[n], |Discovered(paths[n])|)
  {
    var m := |Discovered(paths[n])|;
    forall k | k in UpKeys(ioGroup, ioChannels, paths, n + 1)
      ensures k in UpKeys(ioGroup, ioChannels, paths, n) + ChainKeys(ioGroup, ioChannels[n], paths[n], m)
    {
      var i, j :| 0 <= i < n + 1 && 0 <= j < |paths[i]| && |paths[i]| >= 2 && k == ChipKey(ioGroup, ioChannels[i], paths[i][j]);
      if i == n {
        assert k in ChainKeys(ioGroup, ioChannels[n], paths[n], m);
      }
    }
  }

  /** Bringing up path `n` on top of the first `n` brings up the first
      `n + 1`. */
  lemma NetworkUpStep(net1: map<ChipKey, int>, cells1: seq<Config>,
                      net2: map<ChipKey, int>, cells2: seq<Config>,
                      net0: map<ChipKey, int>, cells0: seq<Config>,
                      ioGroup: int, ioChannels: seq<int>, paths: seq<seq<int>>, n: int)
    requires 0 <= n < |paths| <= |ioChannels|
    requires NetworkUp(net1, cells1, net0, cells0, ioGroup, ioChannels, paths, n)
    requires BroughtUp(net2, cells2, net1, cells1, ioGroup, ioChannels[n], paths[n], |Discovered(paths[n])|)
    ensures NetworkUp(net2, cells2, net0, cells0, ioGroup, ioChannels, paths, n + 1)
  {
    UpKeysStep(ioGroup, ioChannels, paths, n);
    forall i | 0 <= i < n + 1 ensures PathSilenced(net2, cells2, |cells0|, ioGroup, ioChannels[i], paths[i]) {
      if i < n {
        PathSilencedKept(net1, cells1, net2, cells2, |cells0|, ioGroup, ioChannels[i], paths[i]);
      } else {
        BroughtUpSilenced(net2, cells2, net1, cells1, |cells0|, ioGroup, ioChannels[n], paths[n]);
      }
    }
  }

  /** The state of `init_initial_network`'s outer loop after `n` paths. */
  ghost predicate InitState(net: map<ChipKey, int>, cells: seq<Config>,
                            net0: map<ChipKey, int>, cells0: seq<Config>,
                            ioGroup: int, ioChannels: seq<int>, paths: seq<seq<int>>, n: int,
                            orderedByChannel: seq<seq<int>>, ratioCalls: seq<(int, int)>)
    requires 0 <= n <= |paths| <= |ioChannels|
  {
    NetworkUp(net, cells, net0, cells0, ioGroup, ioChannels, paths, n) &&
    Recorded(ioChannels, paths, n, orderedByChannel, ratioCalls)
  }

  /** What the outer loop has recorded after `n` paths: the chips discovered
      on each io channel, and one clock-ratio setting per path. */
  predicate Recorded(ioChannels: seq<int>, paths: seq<seq<int>>, n: int,
                     orderedByChannel: seq<seq<int>>, ratioCalls: seq<(int, int)>)
    requires 0 <= n <= |paths| <= |ioChannels|
  {
    |orderedByChannel| == |ioChannels| &&
    (forall c :: 0 <= c < |ioChannels| ==>
       orderedByChannel[c] == if c < n then Discovered(paths[c]) else []) &&
    |ratioCalls| == n &&
    (forall i :: 0 <= i < n ==> ratioCalls[i] == (ioChannels[i], 4))
  }

  /** Recording path `n` after the first `n`. */
  lemma RecordedStep(ioChannels: seq<int>, paths: seq<seq<int>>, n: int,
                     orderedByChannel: seq<seq<int>>, ratioCalls: seq<(int, int)>)
    requires 0 <= n < |paths| <= |ioChannels|
    requires Recorded(ioChannels, paths, n, orderedByChannel, ratioCalls)
    ensures Recorded(ioChannels, paths, n + 1, orderedByChannel[n := Discovered(paths[n])],
                     ratioCalls + [(ioChannels[n], 4)])
  {
    var r := ratioCalls + [(ioChannels[n], 4)];
    forall i | 0 <= i < n + 1 ensures r[i] == (ioChannels[i], 4) {
      if i < n { assert r[i] == ratioCalls[i]; }
    }
  }

  /** One iteration of `init_initial_network`'s outer loop: brings up path
      `n` on its io channel, records the chips it discovered and sets the
      channel's clock ratio. */
  method BringUpNext(ctrl: Controller, grid: Grid, roots: seq<int>, ioGroup: int, ioChannels: seq<int>,
                     paths: seq<seq<int>>, n: int, orderedByChannel: seq<seq<int>>, ratioCalls: seq<(int, int)>,
                     ghost net0: map<ChipKey, int>, ghost cells0: seq<Config>)
    returns (orderedByChannel': seq<seq<int>>, ratioCalls': seq<(int, int)>)
    requires ctrl.Valid() && PlannedPaths(paths) && roots == Roots(paths)
    requires 0 <= n < |paths| <= |ioChannels|
    requires FreshFor(net0, ioGroup, ioChannels, paths)
    requires InitState(ctrl.net, ctrl.cells, net0, cells0, ioGroup, ioChannels, paths, n, orderedByChannel, ratioCalls)
    modifies ctrl
    ensures ctrl.Valid()
    ensures InitState(ctrl.net, ctrl.cells, net0, cells0, ioGroup, ioChannels, paths, n + 1, orderedByChannel', ratioCalls')
  {
    PlannedChainShape(paths, n);
    StillFresh(ctrl.net, ctrl.cells, net0, cells0, ioGroup, ioChannels, paths, n);
    ghost var net1, cells1 := ctrl.net, ctrl.cells;
    var ordered := BringUpPath(ctrl, grid, roots, ioGroup, ioChannels[n], paths[n]);
    NetworkUpStep(net1, cells1, ctrl.net, ctrl.cells, net0, cells0, ioGroup, ioChannels, paths, n);
    RecordedStep(ioChannels, paths, n, orderedByChannel, ratioCalls);
    orderedByChannel' := orderedByChannel[n := ordered];
    ratioCalls' := ratioCalls + [(ioChannels[n], ClkRatio(DefaultClkCtrl).value)];
  }

  /** `init_initial_network`: every planned path, on the io channel at its
      index, is walked from its root outward and then silenced; the channel's
      UART clock ratio is set back to the one of the default clock. Returns
      the chips discovered per io channel and, in order, the clock-ratio
      settings it makes. */
  method InitInitialNetwork(ctrl: Controller, grid: Grid, ioGroup: int, ioChannels: seq<int>, paths: seq<seq<int>>)
    returns (orderedByChannel: seq<seq<int>>, ratioCalls: seq<(int, int)>)
    requires ctrl.Valid() && PlannedPaths(paths) && |paths| <= |ioChannels|
    requires FreshFor(ctrl.net, ioGroup, ioChannels, paths)
    modifies ctrl
    ensures ctrl.Valid()
    ensures InitState(ctrl.net, ctrl.cells, old(ctrl.net), old(ctrl.cells), ioGroup, ioChannels, paths, |paths|,
                      orderedByChannel, ratioCalls)
  {
    ghost var net0, cells0 := ctrl.net, ctrl.cells;
    var roots := Roots(paths);
    orderedByChannel := seq(|ioChannels|, _ => []);
    ratioCalls := [];
    assert UpKeys(ioGroup, ioChannels, paths, 0) == {};
    for n := 0 to |paths|
      invariant ctrl.Valid()
      invariant InitState(ctrl.net, ctrl.cells, net0, cells0, ioGroup, ioChannels, paths, n, orderedByChannel, ratioCalls)
    {
      orderedByChannel, ratioCalls :=
        BringUpNext(ctrl, grid, roots, ioGroup, ioChannels, paths, n, orderedByChannel, ratioCalls, net0, cells0);
    }
  }
}
