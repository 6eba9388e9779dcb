/** Bringing chips up: claiming the root chip of every io channel, and
    walking each planned daisy chain outward from its root, claiming one
    chip per hop through the reset id and pointing the UART masks along the
    chain, then silencing the branch again. */
module UartBringUp {
  import opened Common
  import opened UartNetwork

  /** `root_chips[n]` of `get_good_roots`: the root chip id of the n-th io
      channel of a tile (the list 11, 41, 71, 101). */
  function RootChip(n: int): (c: int)
    requires 0 <= n < NumRoots
    ensures c == 11 + 30 * n
  {
    if n == 0 then 11 else if n == 1 then 41 else if n == 2 then 71 else 101
  }

  const NumRoots: int := 4

  /** The configuration a root chip is left with by `get_good_roots`. */
  function RootConfig(root: int): Config
  {
    Config(root, Zeros, FirstOnly, Ones, DefaultClkCtrl)
  }

  /** The indices among the first `n` io channels whose root chip
      answered its read-back, in the order they were found. */
  function Answering(bus: Bus, ioChannels: seq<int>, n: int): seq<int>
    requires 0 <= n <= |ioChannels| <= NumRoots
  {
    if n == 0 then []
    else Answering(bus, ioChannels, n - 1) + (if (ioChannels[n - 1], RootChip(n - 1)) in bus.rootOk then [n - 1] else [])
  }

  /** An index is kept exactly when its root chip answered. */
  lemma {:induction false} AnsweringMembers(bus: Bus, ioChannels: seq<int>, n: int, m: int)
    requires 0 <= n <= |ioChannels| <= NumRoots
    ensures m in Answering(bus, ioChannels, n) <==> 0 <= m < n && (ioChannels[m], RootChip(m)) in bus.rootOk
  {
    if n > 0 {
      AnsweringMembers(bus, ioChannels, n - 1, m);
    }
  }

  /** The kept indices are in increasing order, so each appears once. */
  lemma {:induction false} AnsweringIncreasing(bus: Bus, ioChannels: seq<int>, n: int)
    requires 0 <= n <= |ioChannels| <= NumRoots
    ensures StrictlyIncreasing(Answering(bus, ioChannels, n))
  {
    if n > 0 {
      var prev := Answering(bus, ioChannels, n - 1);
      AnsweringIncreasing(bus, ioChannels, n - 1);
      forall t | 0 <= t < |prev| ensures prev[t] < n - 1 {
        AnsweringMembers(bus, ioChannels, n - 1, prev[t]);
      }
    }
  }

  function RootKey(ioGroup: int, ioChannels: seq<int>, n: int): ChipKey
    requires 0 <= n < |ioChannels| && n < NumRoots
  {
    ChipKey(ioGroup, ioChannels[n], RootChip(n))
  }

  function RootKeys(ioGroup: int, ioChannels: seq<int>, n: int): set<ChipKey>
    requires 0 <= n <= |ioChannels| && n <= NumRoots
  {
    set m | 0 <= m < n :: RootKey(ioGroup, ioChannels, m)
  }

  /** No reset key of the tile's channels and none of the root keys from
      the n-th on is in the controller yet. */
  ghost predicate Unclaimed(net: map<ChipKey, int>, ioGroup: int, ioChannels: seq<int>, n: int)
    requires 0 <= n <= |ioChannels| <= NumRoots
  {
    (forall m :: 0 <= m < |ioChannels| ==> TempKey(ioGroup, ioChannels[m]) !in net) &&
    (forall m :: n <= m < |ioChannels| ==> RootKey(ioGroup, ioChannels, m) !in net)
  }

  /** The controller state after the first `n` rounds of `get_good_roots`,
      relative to the state `net0`/`cells0` it started from. */
  ghost predicate RootsClaimed(net: map<ChipKey, int>, cells: seq<Config>,
                               net0: map<ChipKey, int>, cells0: seq<Config>,
                               ioGroup: int, ioChannels: seq<int>, n: int)
    requires 0 <= n <= |ioChannels| <= NumRoots
  {
    net.Keys == net0.Keys + RootKeys(ioGroup, ioChannels, n) &&
    (forall k :: k in net0 ==> net[k] == net0[k]) &&
    Extends(cells, cells0) &&
    (forall m :: 0 <= m < n ==>
       |cells0| <= net[RootKey(ioGroup, ioChannels, m)] < |cells| &&
       cells[net[RootKey(ioGroup, ioChannels, m)]] == RootConfig(RootChip(m)))
  }

  lemma RootsClaimedStart(net: map<ChipKey, int>, cells: seq<Config>, ioGroup: int, ioChannels: seq<int>)
    requires |ioChannels| <= NumRoots
    requires forall k :: k in net ==> net[k] < |cells|
    ensures RootsClaimed(net, cells, net, cells, ioGroup, ioChannels, 0)
  {
    assert RootKeys(ioGroup, ioChannels, 0) == {};
  }

  lemma RootsClaimedStep(net: map<ChipKey, int>, cells: seq<Config>,
                         net0: map<ChipKey, int>, cells0: seq<Config>,
                         ioGroup: int, ioChannels: seq<int>, n: int,
                         net': map<ChipKey, int>, cells': seq<Config>)
    requires 0 <= n < |ioChannels| <= NumRoots
    requires RootsClaimed(net, cells, net0, cells0, ioGroup, ioChannels, n)
    requires forall k :: k in net ==> net[k] < |cells|
    requires RootKey(ioGroup, ioChannels, n) !in net
    requires net' == net[RootKey(ioGroup, ioChannels, n) := |cells| + 1]
    requires |cells'| == |cells| + 2 && Extends(cells', cells)
    requires cells'[|cells| + 1] == RootConfig(RootChip(n))
    ensures RootsClaimed(net', cells', net0, cells0, ioGroup, ioChannels, n + 1)
  {
    var key := RootKey(ioGroup, ioChannels, n);
    assert RootKeys(ioGroup, ioChannels, n + 1) == RootKeys(ioGroup, ioChannels, n) + {key};
    forall m | 0 <= m < n + 1
      ensures |cells0| <= net'[RootKey(ioGroup, ioChannels, m)] < |cells'|
      ensures cells'[net'[RootKey(ioGroup, ioChannels, m)]] == RootConfig(RootChip(m))
    {
      if m < n {
        var k := RootKey(ioGroup, ioChannels, m);
        assert RootChip(m) != RootChip(n);
      }
    }
  }

  /** One round of `get_good_roots`' loop: the reset chip on the channel
      is told its root id through the reset key, then the root key gets its
      downstream mask towards the PACMAN, its clock is reset, and the mask
      is written again. */
  method ClaimRoot(ctrl: Controller, ioGroup: int, ioChannel: int, root: int)
    requires ctrl.Valid() && root >= 2
    requires TempKey(ioGroup, ioChannel) !in ctrl.net && ChipKey(ioGroup, ioChannel, root) !in ctrl.net
    modifies ctrl
    ensures ctrl.Valid()
    ensures ctrl.net == old(ctrl.net)[ChipKey(ioGroup, ioChannel, root) := old(|ctrl.cells|) + 1]
    ensures |ctrl.cells| == old(|ctrl.cells|) + 2 && Extends(ctrl.cells, old(ctrl.cells))
    ensures ctrl.cells[old(|ctrl.cells|) + 1] == RootConfig(root)
  {
    // writing initial config
    RenameThroughTemp(ctrl, ioGroup, ioChannel, root);

    var key := ChipKey(ioGroup, ioChannel, root);
    ctrl.AddChip(key);
    ctrl.Put(key, ctrl.Get(key).(chipId := key.chipId));
    ctrl.Put(key, ctrl.Get(key).(misoDs := FirstOnly, misoDiff := Ones));
    // resetting clocks
    ctrl.Put(key, ctrl.Get(key).(misoDs := Zeros, misoUs := Zeros));
    ctrl.Put(key, ctrl.Get(key).(clkCtrl := DefaultClkCtrl));
    // rewriting config
    ctrl.Put(key, ctrl.Get(key).(misoDs := FirstOnly, misoDiff := Ones));
  }

  /** The n-th round of `get_good_roots`' loop, seen against the state the
      loop started from. */
  method ClaimNextRoot(ctrl: Controller, ghost net0: map<ChipKey, int>, ghost cells0: seq<Config>,
                       ioGroup: int, ioChannels: seq<int>, n: int)
    requires ctrl.Valid() && 0 <= n < |ioChannels| <= NumRoots
    requires RootsClaimed(ctrl.net, ctrl.cells, net0, cells0, ioGroup, ioChannels, n)
    requires Unclaimed(ctrl.net, ioGroup, ioChannels, n)
    modifies ctrl
    ensures ctrl.Valid()
    ensures RootsClaimed(ctrl.net, ctrl.cells, net0, cells0, ioGroup, ioChannels, n + 1)
    ensures Unclaimed(ctrl.net, ioGroup, ioChannels, n + 1)
  {
    ghost var netBefore, cellsBefore := ctrl.net, ctrl.cells;
    assert RootKey(ioGroup, ioChannels, n) == ChipKey(ioGroup, ioChannels[n], RootChip(n));
    ClaimRoot(ctrl, ioGroup, ioChannels[n], RootChip(n));
    RootsClaimedStep(netBefore, cellsBefore, net0, cells0, ioGroup, ioChannels, n, ctrl.net, ctrl.cells);
    forall m | n + 1 <= m < |ioChannels| ensures RootKey(ioGroup, ioChannels, m) !in ctrl.net {
      assert RootChip(m) != RootChip(n);
    }
  }

  /** The loop of `get_good_roots`: claims every root in turn and keeps
      the indices of the io channels whose root answered. */
  method ClaimRoots(ctrl: Controller, bus: Bus, ioGroup: int, ioChannels: seq<int>)
    returns (goodIndices: seq<int>)
    requires ctrl.Valid() && |ioChannels| <= NumRoots
    requires Unclaimed(ctrl.net, ioGroup, ioChannels, 0)
    modifies ctrl
    ensures ctrl.Valid()
    ensures goodIndices == Answering(bus, ioChannels, |ioChannels|)
    ensures RootsClaimed(ctrl.net, ctrl.cells, old(ctrl.net), old(ctrl.cells), ioGroup, ioChannels, |ioChannels|)
  {
    RootsClaimedStart(ctrl.net, ctrl.cells, ioGroup, ioChannels);
    goodIndices := [];
    for n := 0 to |ioChannels|
      invariant ctrl.Valid()
      invariant goodIndices == Answering(bus, ioChannels, n)
      invariant RootsClaimed(ctrl.net, ctrl.cells, old(ctrl.net), old(ctrl.cells), ioGroup, ioChannels, n)
      invariant Unclaimed(ctrl.net, ioGroup, ioChannels, n)
    {
      ClaimNextRoot(ctrl, old(ctrl.net), old(ctrl.cells), ioGroup, ioChannels, n);
      var ok := (ioChannels[n], RootChip(n)) in bus.rootOk;
      if ok {
        goodIndices := goodIndices + [n];
      }
    }
  }

  /** `get_good_roots`: claims the root chip of every io channel through
      the reset key, sets its downstream mask towards the PACMAN and its
      clock, and returns the roots that answered, with their channels, in
      channel order. */
  method GetGoodRoots(ctrl: Controller, bus: Bus, ioGroup: int, ioChannels: seq<int>)
    returns (goodRoots: seq<int>, goodChannels: seq<int>)
    requires ctrl.Valid() && |ioChannels| <= NumRoots
    requires forall n :: 0 <= n < |ioChannels| ==> TempKey(ioGroup, ioChannels[n]) !in ctrl.net
    requires forall n :: 0 <= n < |ioChannels| ==> RootKey(ioGroup, ioChannels, n) !in ctrl.net
    modifies ctrl
    ensures ctrl.Valid()
    ensures var kept := Answering(bus, ioChannels, |ioChannels|);
      |goodRoots| == |kept| == |goodChannels| &&
      forall t :: 0 <= t < |kept| ==>
        0 <= kept[t] < |ioChannels| && goodRoots[t] == RootChip(kept[t]) && goodChannels[t] == ioChannels[kept[t]]
    ensures RootsClaimed(ctrl.net, ctrl.cells, old(ctrl.net), old(ctrl.cells), ioGroup, ioChannels, |ioChannels|)
  {
    var goodIndices := ClaimRoots(ctrl, bus, ioGroup, ioChannels);
    forall t | 0 <= t < |goodIndices| ensures 0 <= goodIndices[t] < |ioChannels| {
      AnsweringMembers(bus, ioChannels, |ioChannels|, goodIndices[t]);
    }
    goodRoots := seq(|goodIndices|, t requires 0 <= t < |goodIndices| => RootChip(goodIndices[t]));
    goodChannels := seq(|goodIndices|, t requires 0 <= t < |goodIndices| => ioChannels[goodIndices[t]]);
  }
}
