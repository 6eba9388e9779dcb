/** Writing a hydra-network descriptor for a tile: the daisy chains the path
    planner returns are turned into per-channel node lists, with the fixed
    UART maps of the LArPix v2 tile, into a header that lives as long as the
    program does. */
module ExportConfig {
  import opened Common
  import opened UartNetwork

  /** A node's `chip_id`: the PACMAN side `'ext'` or a chip id. */
  datatype NodeId = Ext | ChipNode(id: int)

  /** One entry of a channel's `nodes` list; `root` is only set on `'ext'`. */
  datatype Node = Node(chipId: NodeId, misoUs: seq<Option<int>>, root: bool)

  /** `[None, None, None, None]`: a chain's last chip has nothing upstream. */
  const NoLinks: seq<Option<int>> := [None, None, None, None]

  /** The fixed UART maps written with every descriptor. */
  const MisoUsUartMap: seq<int> := [3, 0, 1, 2]
  const MisoDsUartMap: seq<int> := [1, 2, 3, 0]
  const MosiUartMap: seq<int> := [2, 3, 0, 1]

  /** The PACMAN node heading a chain whose root chip is `root`. */
  function ExtNode(root: int): (n: Node)
    ensures n.chipId == Ext && n.root
    ensures |n.misoUs| == 4 && n.misoUs[3] == Some(root)
    ensures forall u :: 0 <= u < 3 ==> n.misoUs[u] == None
  {
    Node(Ext, [None, None, None, Some(root)], true)
  }

  /** The chip nodes of a daisy chain: each chip with the upstream UART map
      `getMap(chip, next)` towards the next chip, the last with none. */
  function ChipNodes(path: seq<int>, getMap: (int, int) -> seq<Option<int>>): (r: seq<Node>)
    ensures |r| == |path|
    ensures forall k :: 0 <= k < |path| ==> r[k].chipId == ChipNode(path[k]) && !r[k].root
    ensures forall k :: 0 <= k < |path| - 1 ==> r[k].misoUs == getMap(path[k], path[k + 1])
    ensures |path| > 0 ==> r[|path| - 1].misoUs == NoLinks
  {
    if |path| == 0 then []
    else if |path| == 1 then [Node(ChipNode(path[0]), NoLinks, false)]
    else [Node(ChipNode(path[0]), getMap(path[0], path[1]), false)] + ChipNodes(path[1..], getMap)
  }

  /** The node list of one channel. */
  function Nodes(root: int, path: seq<int>, getMap: (int, int) -> seq<Option<int>>): seq<Node>
  {
    [ExtNode(root)] + ChipNodes(path, getMap)
  }

  /** A channel's node list is the `'ext'` root node, the only root, then
      the chips of the chain in order, each pointing upstream at the next
      chip, the last at nothing. */
  lemma NodesShape(root: int, path: seq<int>, getMap: (int, int) -> seq<Option<int>>)
    ensures var r := Nodes(root, path, getMap);
            |r| == |path| + 1 &&
            r[0] == ExtNode(root) &&
            (forall k :: 0 <= k < |r| ==> (r[k].root <==> k == 0)) &&
            (forall k :: 0 <= k < |path| ==> r[k + 1].chipId == ChipNode(path[k])) &&
            (forall k :: 0 <= k < |path| - 1 ==> r[k + 1].misoUs == getMap(path[k], path[k + 1])) &&
            (|path| > 0 ==> r[|path|].misoUs == NoLinks)
  {
    var r := Nodes(root, path, getMap);
    var c := ChipNodes(path, getMap);
    assert r[1..] == c;
    forall k | 1 <= k < |r| ensures !r[k].root {
      assert r[k] == c[k - 1];
    }
    forall k | 0 <= k < |path| ensures r[k + 1].chipId == ChipNode(path[k]) {
      assert r[k + 1] == c[k];
    }
    forall k | 0 <= k < |path| - 1 ensures r[k + 1].misoUs == getMap(path[k], path[k + 1]) {
      assert r[k + 1] == c[k];
    }
  }

  /** The chips named in a node list, read back in order, are the chain it
      was built from. */
  lemma NodesListPath(root: int, path: seq<int>, getMap: (int, int) -> seq<Option<int>>)
    ensures forall k :: 1 <= k < |Nodes(root, path, getMap)| ==>
              Nodes(root, path, getMap)[k].chipId.ChipNode? &&
              Nodes(root, path, getMap)[k].chipId.id == path[k - 1]
  {
    var r := Nodes(root, path, getMap);
    NodesShape(root, path, getMap);
    forall k | 1 <= k < |r|
      ensures r[k].chipId.ChipNode? && r[k].chipId.id == path[k - 1]
    {
      assert r[(k - 1) + 1].chipId == ChipNode(path[k - 1]);
    }
  }

  /** The loop that appends one node per chip of the chain. */
  method BuildNodes(root: int, path: seq<int>, getMap: (int, int) -> seq<Option<int>>) returns (nodes: seq<Node>)
    ensures nodes == Nodes(root, path, getMap)
  {
    nodes := [ExtNode(root)];
    for k := 0 to |path|
      invariant |nodes| == k + 1 && nodes[0] == ExtNode(root)
      invariant forall j :: 0 <= j < k ==>
                  nodes[j + 1] == Node(ChipNode(path[j]), if j < |path| - 1 then getMap(path[j], path[j + 1]) else NoLinks, false)
    {
      if k < |path| - 1 {
        nodes := nodes + [Node(ChipNode(path[k]), getMap(path[k], path[k + 1]), false)];
      } else {
        nodes := nodes + [Node(ChipNode(path[k]), NoLinks, false)];
      }
    }
    var r := Nodes(root, path, getMap);
    NodesShape(root, path, getMap);
    forall j | 0 <= j < |nodes| ensures nodes[j] == r[j] {
      if j > 0 {
        assert r[(j - 1) + 1].chipId == ChipNode(path[j - 1]);
      }
    }
  }

  /** `any([i in path for path in paths])` */
  predicate Covered(i: int, paths: seq<seq<int>>)
  {
    exists j :: 0 <= j < |paths| && i in paths[j]
  }

  /** Chip ids of a 10 x 10 tile. */
  const FirstChipId: int := 11
  const LastChipId: int := 110

  /** The ids of the tile no chain reaches, in increasing order. */
  method ReportUncovered(paths: seq<seq<int>>) returns (uncovered: seq<int>)
    ensures StrictlyIncreasing(uncovered)
    ensures forall i :: i in uncovered <==> FirstChipId <= i <= LastChipId && !Covered(i, paths)
  {
    uncovered := [];
    for i := FirstChipId to LastChipId + 1
      invariant StrictlyIncreasing(uncovered)
      invariant forall x :: x in uncovered <==> FirstChipId <= x < i && !Covered(x, paths)
      invariant forall j :: 0 <= j < |uncovered| ==> uncovered[j] < i
    {
      if !Covered(i, paths) {
        uncovered := uncovered + [i];
      }
    }
  }

  /** `nchips_hit`: the total length of the chains. */
  function SumLengths(paths: seq<seq<int>>): nat
  {
    if |paths| == 0 then 0
    else SumLengths(paths[..|paths| - 1]) + |paths[|paths| - 1]|
  }

  /** The lengths of the first `n` chains have been reported and added up
      in `nchipsHit`. */
  ghost predicate Counted(lengths: seq<int>, nchipsHit: int, paths: seq<seq<int>>, n: int)
  {
    0 <= n <= |paths| && |lengths| == n &&
    (forall j :: 0 <= j < n ==> lengths[j] == |paths[j]|) &&
    nchipsHit == SumLengths(paths[..n])
  }

  /** Counting one more chain. */
  lemma CountedStep(lengths: seq<int>, nchipsHit: int, paths: seq<seq<int>>, n: int)
    requires Counted(lengths, nchipsHit, paths, n) && n < |paths|
    ensures Counted(lengths + [|paths[n]|], nchipsHit + |paths[n]|, paths, n + 1)
  {
    assert paths[..n + 1][..n] == paths[..n];
  }

  /** The chips the chains reach. */
  function CoveredSet(paths: seq<seq<int>>): set<int>
  {
    set j, k | 0 <= j < |paths| && 0 <= k < |paths[j]| :: paths[j][k]
  }

  /** A sequence without repeats has as many distinct elements as entries. */
  lemma {:induction false} DistinctCount(s: seq<int>)
    requires Distinct(s)
    ensures |ChainSet(s)| == |s|
  {
    if |s| > 0 {
      var front := s[..|s| - 1];
      DistinctCount(front);
      assert ChainSet(s) == ChainSet(front) + {s[|s| - 1]};
      assert s[|s| - 1] !in front;
    }
  }

  /** The chips of a chain, as a set. */
  function ChainSet(path: seq<int>): set<int>
  {
    set x | x in path
  }

  /** Dropping the last chain of a plan keeps it a plan; the last chain
      repeats no chip. */
  lemma PlannedFront(paths: seq<seq<int>>)
    requires PlannedPaths(paths) && |paths| > 0
    ensures PlannedPaths(paths[..|paths| - 1])
    ensures Distinct(paths[|paths| - 1])
  {
    var n := |paths| - 1;
    var front := paths[..n];
    forall i, j, i2, j2 |
      0 <= i < |front| && 0 <= j < |front[i]| && 0 <= i2 < |front| && 0 <= j2 < |front[i2]| && (i != i2 || j != j2)
      ensures front[i][j] != front[i2][j2]
    {
      assert front[i] == paths[i] && front[i2] == paths[i2];
    }
    forall a, b | 0 <= a < b < |paths[n]| ensures paths[n][a] != paths[n][b] {
    }
  }

  /** The chips a plan reaches are those of its earlier chains and those of
      its last one. */
  lemma CoveredSnoc(paths: seq<seq<int>>)
    requires |paths| > 0
    ensures CoveredSet(paths) == CoveredSet(paths[..|paths| - 1]) + ChainSet(paths[|paths| - 1])
  {
    var n := |paths| - 1;
    var front := paths[..n];
    forall x | x in CoveredSet(paths) ensures x in CoveredSet(front) + ChainSet(paths[n]) {
      var j, k :| 0 <= j < |paths| && 0 <= k < |paths[j]| && x == paths[j][k];
      if j < n {
        assert front[j][k] == x;
      }
    }
    forall x | x in CoveredSet(front) ensures x in CoveredSet(paths) {
      var j, k :| 0 <= j < |front| && 0 <= k < |front[j]| && x == front[j][k];
      assert paths[j][k] == x;
    }
    forall x | x in ChainSet(paths[n]) ensures x in CoveredSet(paths) {
      var k :| 0 <= k < |paths[n]| && paths[n][k] == x;
    }
  }

  /** In a plan the last chain shares no chip with the earlier ones. */
  lemma CoveredDisjoint(paths: seq<seq<int>>)
    requires PlannedPaths(paths) && |paths| > 0
    ensures CoveredSet(paths[..|paths| - 1]) !! ChainSet(paths[|paths| - 1])
  {
    var n := |paths| - 1;
    var front := paths[..n];
    forall x | x in CoveredSet(front) ensures x !in ChainSet(paths[n]) {
      var j, k :| 0 <= j < |front| && 0 <= k < |front[j]| && x == front[j][k];
      assert paths[j][k] == x;
      forall k2 | 0 <= k2 < |paths[n]| ensures paths[n][k2] != x {
        assert paths[j][k] != paths[n][k2];
      }
    }
  }

  /** When no chip appears twice in the plan, as the planner promises,
      `nchips_hit` is the number of chips reached. */
  lemma {:induction false} SumLengthsCountsChips(paths: seq<seq<int>>)
    requires PlannedPaths(paths)
    ensures SumLengths(paths) == |CoveredSet(paths)|
  {
    if |paths| > 0 {
      var n := |paths| - 1;
      PlannedFront(paths);
      SumLengthsCountsChips(paths[..n]);
      DistinctCount(paths[n]);
      CoveredSnoc(paths);
      CoveredDisjoint(paths);
    }
  }

  /** The map `m` after `keys[j] := vals[j]` for each `j` in turn, a later
      write to the same key replacing an earlier one. */
  function Updated<V>(m: map<int, V>, keys: seq<int>, vals: seq<V>): map<int, V>
    requires |keys| == |vals|
  {
    if |keys| == 0 then m
    else Updated(m, keys[..|keys| - 1], vals[..|vals| - 1])[keys[|keys| - 1] := vals[|vals| - 1]]
  }

  /** One more write. */
  lemma UpdatedSnoc<V>(m: map<int, V>, keys: seq<int>, vals: seq<V>, n: int)
    requires 0 <= n < |keys| && n < |vals|
    ensures Updated(m, keys[..n + 1], vals[..n + 1]) == Updated(m, keys[..n], vals[..n])[keys[n] := vals[n]]
  {
    assert keys[..n + 1][..n] == keys[..n];
    assert vals[..n + 1][..n] == vals[..n];
  }

  /** A key none of the writes uses keeps what `m` held; a key some write
      uses has a value that does not depend on `m`. */
  lemma {:induction false} UpdatedAt<V>(m: map<int, V>, m': map<int, V>, keys: seq<int>, vals: seq<V>, c: int)
    requires |keys| == |vals|
    ensures c in Updated(m, keys, vals) <==> c in m || c in keys
    ensures c !in keys && c in m ==> Updated(m, keys, vals)[c] == m[c]
    ensures c in keys ==> c in Updated(m', keys, vals) && Updated(m, keys, vals)[c] == Updated(m', keys, vals)[c]
  {
    if |keys| > 0 {
      var n := |keys| - 1;
      UpdatedAt(m, m', keys[..n], vals[..n], c);
      assert c in keys <==> c in keys[..n] || c == keys[n] by {
        assert keys == keys[..n] + [keys[n]];
      }
    }
  }

  /** With distinct keys, the `k`-th key holds the `k`-th value. */
  lemma {:induction false} UpdatedDistinct<V>(m: map<int, V>, keys: seq<int>, vals: seq<V>, k: int)
    requires |keys| == |vals| && Distinct(keys) && 0 <= k < |keys|
    ensures keys[k] in Updated(m, keys, vals) && Updated(m, keys, vals)[keys[k]] == vals[k]
  {
    var n := |keys| - 1;
    if k < n {
      assert Distinct(keys[..n]) by {
        forall a, b | 0 <= a < b < n ensures keys[..n][a] != keys[..n][b] {
          assert keys[a] != keys[b];
        }
      }
      UpdatedDistinct(m, keys[..n], vals[..n], k);
      assert keys[k] != keys[n];
    }
  }

  /** Making the same writes again leaves the map as the first round left
      it. */
  lemma UpdatedTwice<V>(m: map<int, V>, keys: seq<int>, vals: seq<V>)
    requires |keys| == |vals|
    ensures Updated(Updated(m, keys, vals), keys, vals) == Updated(m, keys, vals)
  {
    var once := Updated(m, keys, vals);
    var twice := Updated(once, keys, vals);
    forall c | c in twice ensures c in once && twice[c] == once[c] {
      UpdatedAt(once, m, keys, vals, c);
      UpdatedAt(m, once, keys, vals, c);
    }
    forall c | c in once ensures c in twice {
      UpdatedAt(once, m, keys, vals, c);
    }
  }

  /** After `main`, with distinct io channels for the chains, the channel
      of chain `k` holds chain `k`'s node list, whatever the header held
      before. */
  lemma ChannelHoldsChain(chans: map<int, seq<Node>>, roots: seq<int>, ioChannels: seq<int>,
                          paths: seq<seq<int>>, getMap: (int, int) -> seq<Option<int>>, k: int)
    requires |paths| <= |roots| && |paths| <= |ioChannels|
    requires Distinct(ioChannels[..|paths|]) && 0 <= k < |paths|
    ensures var network := Updated(chans, ioChannels[..|paths|], NodeLists(roots, paths, getMap));
            ioChannels[k] in network && network[ioChannels[k]] == Nodes(roots[k], paths[k], getMap)
  {
    UpdatedDistinct(chans, ioChannels[..|paths|], NodeLists(roots, paths, getMap), k);
  }

  /** The node lists of the chains, chain `j` headed by root `roots[j]`. */
  function NodeLists(roots: seq<int>, paths: seq<seq<int>>, getMap: (int, int) -> seq<Option<int>>): (r: seq<seq<Node>>)
    requires |paths| <= |roots|
    ensures |r| == |paths| && forall j :: 0 <= j < |paths| ==> r[j] == Nodes(roots[j], paths[j], getMap)
  {
    seq(|paths|, j requires 0 <= j < |paths| => Nodes(roots[j], paths[j], getMap))
  }

  /** `m` maps the UARTs 0..3 onto 0..3. */
  predicate OnUarts(m: seq<int>)
  {
    |m| == 4 && forall u :: 0 <= u < 4 ==> 0 <= m[u] < 4
  }

  /** The three UART maps are permutations of the UARTs 0..3: the
      downstream map undoes the upstream one and the other way round, and
      the MOSI map is its own inverse. */
  lemma UartMapsArePermutations()
    ensures OnUarts(MisoUsUartMap) && OnUarts(MisoDsUartMap) && OnUarts(MosiUartMap)
    ensures forall u :: 0 <= u < 4 ==> MisoDsUartMap[MisoUsUartMap[u]] == u && MisoUsUartMap[MisoDsUartMap[u]] == u
    ensures forall u :: 0 <= u < 4 ==> MosiUartMap[MosiUartMap[u]] == u
  {
  }

  /** `set(s)` */
  function SetOf<T(!new)>(s: seq<T>): (r: set<T>)
    ensures forall x :: x in r <==> x in s
  {
    set x | x in s
  }

  /** The module-level `_header` dictionary: its network section maps an io
      group to its channels, each channel to its node list; the UART maps
      are absent until the first call writes them. */
  class Header {
    const name: string
    var network: map<int, map<int, seq<Node>>>
    var misoUsUartMap: Option<seq<int>>
    var misoDsUartMap: Option<seq<int>>
    var mosiUartMap: Option<seq<int>>

    /** The header as the module defines it: an empty channel map for the
        module's io group. */
    constructor (name: string, ioGroup: int)
      ensures this.name == name && network == map[ioGroup := map[]]
      ensures misoUsUartMap.None? && misoDsUartMap.None? && mosiUartMap.None?
    {
      this.name := name;
      network := map[ioGroup := map[]];
      misoUsUartMap := None;
      misoDsUartMap := None;
      mosiUartMap := None;
    }

    /** `_header['network'][str(io_group)][str(io_channel)]['nodes'] = nodes` */
    method SetNodes(ioGroup: int, ioChannel: int, nodes: seq<Node>)
      requires ioGroup in network
      modifies this
      ensures network == old(network)[ioGroup := old(network)[ioGroup][ioChannel := nodes]]
      ensures misoUsUartMap == old(misoUsUartMap) && misoDsUartMap == old(misoDsUartMap)
      ensures mosiUartMap == old(mosiUartMap)
    {
      network := network[ioGroup := network[ioGroup][ioChannel := nodes]];
    }

    /** The three UART map assignments. */
    method SetUartMaps()
      modifies this
      ensures network == old(network)
      ensures misoUsUartMap == Some(MisoUsUartMap) && misoDsUartMap == Some(MisoDsUartMap)
      ensures mosiUartMap == Some(MosiUartMap)
    {
      misoUsUartMap := Some(MisoUsUartMap);
      misoDsUartMap := Some(MisoDsUartMap);
      mosiUartMap := Some(MosiUartMap);
    }
  }

  /** The result of `main`: the plan, the report of unreached ids, the chain
      lengths and `nchips_hit`. */
  datatype Report = Report(paths: seq<seq<int>>, uncovered: seq<int>, lengths: seq<int>, nchipsHit: int)

  /** `main`: register the excluded links and chips, plan one chain per good
      root connection with `plan` (the path planner, given the excluded
      links, the excluded chips and the roots), report the ids no chain
      reaches, then write each chain's node list under its io channel and
      the UART maps. `getMap` is the planner's upstream UART map between
      neighbouring chips. The result is `None` when the header has no entry
      for `ioGroup` and there is a chain to write, which raises a `KeyError`
      before anything is written. */
  method Generate(h: Header, ioGroup: int, roots: seq<int>, ioChannels: seq<int>,
                  excludedLinks: seq<Link>, excludedChips: seq<int>,
                  plan: (set<Link>, set<int>, seq<int>) -> seq<seq<int>>,
                  getMap: (int, int) -> seq<Option<int>>)
    returns (report: Option<Report>)
    requires |plan(SetOf(excludedLinks), SetOf(excludedChips), roots)| <= |roots|
    requires |plan(SetOf(excludedLinks), SetOf(excludedChips), roots)| <= |ioChannels|
    modifies h
    ensures var paths := plan(SetOf(excludedLinks), SetOf(excludedChips), roots);
            report.None? <==> |paths| > 0 && ioGroup !in old(h.network)
    ensures report.None? ==>
              h.network == old(h.network) && h.misoUsUartMap == old(h.misoUsUartMap) &&
              h.misoDsUartMap == old(h.misoDsUartMap) && h.mosiUartMap == old(h.mosiUartMap)
    ensures report.Some? ==>
              var paths := plan(SetOf(excludedLinks), SetOf(excludedChips), roots);
              report.value.paths == paths &&
              StrictlyIncreasing(report.value.uncovered) &&
              (forall i :: i in report.value.uncovered <==> FirstChipId <= i <= LastChipId && !Covered(i, paths)) &&
              |report.value.lengths| == |paths| &&
              (forall j :: 0 <= j < |paths| ==> report.value.lengths[j] == |paths[j]|) &&
              report.value.nchipsHit == SumLengths(paths) &&
              h.network == (if |paths| == 0 then old(h.network)
                            else old(h.network)[ioGroup := Updated(old(h.network)[ioGroup], ioChannels[..|paths|], NodeLists(roots, paths, getMap))]) &&
              h.misoUsUartMap == Some(MisoUsUartMap) && h.misoDsUartMap == Some(MisoDsUartMap) &&
              h.mosiUartMap == Some(MosiUartMap)
  {
    var links := Register(excludedLinks);
    var chips := Register(excludedChips);
    var paths := plan(links, chips, roots);
    var uncovered := ReportUncovered(paths);

    if |paths| > 0 && ioGroup !in h.network {
      return None;
    }
    var lengths, nchipsHit := WriteChains(h, ioGroup, roots, ioChannels, paths, getMap);
    h.SetUartMaps();
    return Some(Report(paths, uncovered, lengths, nchipsHit));
  }

  /** The loops registering each excluded link (or chip) with the planner
      before it plans: the planner ends up knowing every listed one. */
  method Register<T(!new)>(excluded: seq<T>) returns (known: set<T>)
    ensures known == SetOf(excluded)
  {
    known := {};
    for i := 0 to |excluded|
      invariant known == SetOf(excluded[..i])
    {
      known := known + {excluded[i]};
      assert excluded[..i + 1] == excluded[..i] + [excluded[i]];
    }
    assert excluded[..|excluded|] == excluded;
  }

  /** The io group's channels after the first `n` node lists have been
      written, the rest of the network as it was. */
  ghost predicate WrittenUpTo(network: map<int, map<int, seq<Node>>>, network0: map<int, map<int, seq<Node>>>,
                              ioGroup: int, ioChannels: seq<int>, lists: seq<seq<Node>>, n: int)
  {
    0 <= n <= |ioChannels| && n <= |lists| &&
    network == (if n == 0 then network0
                else if ioGroup in network0 then network0[ioGroup := Updated(network0[ioGroup], ioChannels[..n], lists[..n])]
                else network)
  }

  /** The body of the loop over the chains, for chain `n`: write its node
      list under its channel. */
  method WriteNext(h: Header, ioGroup: int, ioChannels: seq<int>, ghost lists: seq<seq<Node>>, n: int, nodes: seq<Node>,
                   ghost network0: map<int, map<int, seq<Node>>>)
    requires WrittenUpTo(h.network, network0, ioGroup, ioChannels, lists, n)
    requires n < |ioChannels| && n < |lists| && nodes == lists[n] && ioGroup in network0
    modifies h
    ensures WrittenUpTo(h.network, network0, ioGroup, ioChannels, lists, n + 1)
    ensures h.misoUsUartMap == old(h.misoUsUartMap) && h.misoDsUartMap == old(h.misoDsUartMap)
    ensures h.mosiUartMap == old(h.mosiUartMap)
  {
    UpdatedSnoc(network0[ioGroup], ioChannels, lists, n);
    assert Updated(network0[ioGroup], ioChannels[..0], lists[..0]) == network0[ioGroup];
    h.SetNodes(ioGroup, ioChannels[n], nodes);
  }

  /** The loop of `main` over the chains: count and report each chain's
      length and write its node list under its io channel. */
  method WriteChains(h: Header, ioGroup: int, roots: seq<int>, ioChannels: seq<int>,
                     paths: seq<seq<int>>, getMap: (int, int) -> seq<Option<int>>)
    returns (lengths: seq<int>, nchipsHit: int)
    requires |paths| <= |roots| && |paths| <= |ioChannels|
    requires |paths| > 0 ==> ioGroup in h.network
    modifies h
    ensures |lengths| == |paths| && forall j :: 0 <= j < |paths| ==> lengths[j] == |paths[j]|
    ensures nchipsHit == SumLengths(paths)
    ensures h.network == (if |paths| == 0 then old(h.network)
                          else old(h.network)[ioGroup := Updated(old(h.network)[ioGroup], ioChannels[..|paths|], NodeLists(roots, paths, getMap))])
    ensures h.misoUsUartMap == old(h.misoUsUartMap) && h.misoDsUartMap == old(h.misoDsUartMap)
    ensures h.mosiUartMap == old(h.mosiUartMap)
  {
    nchipsHit := 0;
    lengths := [];
    ghost var lists := NodeLists(roots, paths, getMap);
    for n := 0 to |paths|
      invariant Counted(lengths, nchipsHit, paths, n)
      invariant WrittenUpTo(h.network, old(h.network), ioGroup, ioChannels, lists, n)
      invariant h.misoUsUartMap == old(h.misoUsUartMap) && h.misoDsUartMap == old(h.misoDsUartMap)
      invariant h.mosiUartMap == old(h.mosiUartMap)
    {
      var root := roots[n];
      CountedStep(lengths, nchipsHit, paths, n);
      nchipsHit := nchipsHit + |paths[n]|;
      lengths := lengths + [|paths[n]|];
      var nodes := BuildNodes(root, paths[n], getMap);
      WriteNext(h, ioGroup, ioChannels, lists, n, nodes, old(h.network));
    }
    assert paths[..|paths|] == paths;
    assert lists[..|paths|] == lists;
  }
}
