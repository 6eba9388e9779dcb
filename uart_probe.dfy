/** `test_chip`: from one chip of a verified chain, every grid neighbour
    that the chain does not already use is probed. The neighbour is cut off
    from its own upstream chip, reached through the chip under test, read
    back, and then every touched configuration is put back from snapshots,
    with up to two more tries when the read-back after the restore fails. */
module UartProbe {
  import opened Common
  import opened UartNetwork

  /** `mover_directions = [arr.right, arr.left, arr.up, arr.down]` */
  function Mover(grid: Grid, d: int, chip: int): int
  {
    if d == 0 then grid.right(chip)
    else if d == 1 then grid.left(chip)
    else if d == 2 then grid.up(chip)
    else grid.down(chip)
  }

  /** Python's `path[ich - 1]`: at index 0 it wraps to the last chip. */
  function PrevInPath(path: seq<int>, ich: int): int
    requires 0 <= ich < |path|
  {
    if ich == 0 then path[|path| - 1] else path[ich - 1]
  }

  /** `path.index(x)`: the first position of `x`. */
  function IndexOf(path: seq<int>, x: int): (i: int)
    requires x in path
    ensures 0 <= i < |path| && path[i] == x
    ensures forall j :: 0 <= j < i ==> path[j] != x
  {
    if path[0] == x then 0
    else
      assert x in path[1..];
      1 + IndexOf(path[1..], x)
  }

  /** The first of `paths`, from position `from` on, that holds `chip`. */
  function FirstWith(paths: seq<seq<int>>, chip: int, from: int): (r: Option<int>)
    requires 0 <= from <= |paths|
    ensures r.Some? ==> from <= r.value < |paths| && chip in paths[r.value] &&
                        forall j :: from <= j < r.value ==> chip !in paths[j]
    ensures r.None? ==> forall j :: from <= j < |paths| ==> chip !in paths[j]
    decreases |paths| - from
  {
    if from == |paths| then None
    else if chip in paths[from] then Some(from)
    else FirstWith(paths, chip, from + 1)
  }

  /** The io channel of the first planned path holding `chip`, or -1 when
      no path holds it. */
  function RealChannel(paths: seq<seq<int>>, ioChannels: seq<int>, chip: int): int
  {
    match FirstWith(paths, chip, 0)
    case None => -1
    case Some(i) => if i < |ioChannels| then ioChannels[i] else -1
  }

  /** The search loop of `test_chip` over all planned paths, stopping at
      the first that holds the chip. */
  method FindRealChannel(paths: seq<seq<int>>, ioChannels: seq<int>, chip: int) returns (realChannel: int)
    requires FirstWith(paths, chip, 0).Some? ==> FirstWith(paths, chip, 0).value < |ioChannels|
    ensures realChannel == RealChannel(paths, ioChannels, chip)
  {
    realChannel := -1;
    for i := 0 to |paths|
      invariant FirstWith(paths, chip, 0) == FirstWith(paths, chip, i)
      invariant realChannel == -1
    {
      if chip in paths[i] {
        realChannel := ioChannels[i];
        return;
      }
    }
  }

  /** What `test_chip` does with a candidate neighbour: skips it, probes it
      as a later chip of its own chain (at the given index), or probes it
      as a chip of another chain (reached on the given io channel). */
  datatype Plan = Skip | InPath(index: int) | Across(realChannel: int)

  /** The skip rules of `test_chip`, in its order, for the candidate `n` of
      the chip at `path[ich]`. */
  function Classify(path: seq<int>, ich: int, good: set<Link>, paths: seq<seq<int>>, ioChannels: seq<int>, n: int): Plan
    requires 0 <= ich < |path|
  {
    if n < 2 then Skip
    else if ich < |path| - 1 && n == path[ich + 1] then Skip
    else if n == PrevInPath(path, ich) then Skip
    else if (path[ich], n) in good then Skip
    else if n !in path then Across(RealChannel(paths, ioChannels, n))
    else if IndexOf(path, n) < ich || IndexOf(path, n) == 0 then Skip
    else InPath(IndexOf(path, n))
  }

  /** A candidate that is probed breaks none of the skip rules. */
  lemma ProbedBreaksNoRule(path: seq<int>, ich: int, good: set<Link>, paths: seq<seq<int>>, ioChannels: seq<int>, n: int)
    requires 0 <= ich < |path|
    requires !Classify(path, ich, good, paths, ioChannels, n).Skip?
    ensures n >= 2 && n != PrevInPath(path, ich) && (path[ich], n) !in good
    ensures ich < |path| - 1 ==> n != path[ich + 1]
    ensures n in path ==> exists i :: ich <= i < |path| && 0 < i && path[i] == n
  {
    if n in path {
      var i := IndexOf(path, n);
      assert ich <= i && 0 < i && path[i] == n;
    }
  }

  /** A probe planned against a larger set of good links was planned the
      same way against a smaller one. */
  lemma ClassifyMonotone(path: seq<int>, ich: int, good0: set<Link>, good: set<Link>,
                         paths: seq<seq<int>>, ioChannels: seq<int>, n: int)
    requires 0 <= ich < |path| && good0 <= good
    requires !Classify(path, ich, good, paths, ioChannels, n).Skip?
    ensures Classify(path, ich, good0, paths, ioChannels, n) == Classify(path, ich, good, paths, ioChannels, n)
  {
  }

  /** The outcome of probing every direction from `d` on: the good and
      excluded links, and the candidates probed, in order. */
  datatype Outcome = Outcome(good: set<Link>, excluded: set<Link>, probed: seq<int>)

  /** The probing loop of `test_chip` from direction `d` on, as a function of
      the read-back outcomes. */
  function Scan(grid: Grid, bus: Bus, path: seq<int>, ich: int, paths: seq<seq<int>>, ioChannels: seq<int>,
                good: set<Link>, excluded: set<Link>, d: int): Outcome
    requires 0 <= ich < |path| && 0 <= d <= 4
    decreases 4 - d
  {
    if d == 4 then Outcome(good, excluded, [])
    else
      var n := Mover(grid, d, path[ich]);
      var l := (path[ich], n);
      if Classify(path, ich, good, paths, ioChannels, n).Skip? then
        Scan(grid, bus, path, ich, paths, ioChannels, good, excluded, d + 1)
      else
        var r := if l in bus.linkOk then Scan(grid, bus, path, ich, paths, ioChannels, good + {l}, excluded, d + 1)
                 else Scan(grid, bus, path, ich, paths, ioChannels, good, excluded + {l}, d + 1);
        Outcome(r.good, r.excluded, [n] + r.probed)
  }

  /** Probing only ever adds links: good ones that read back, excluded ones
      that did not; every probed candidate broke no skip rule against the
      links known good at the start, and ends up recorded as good exactly
      when it read back, and as excluded otherwise. */
  lemma {:induction false} ScanRecords(grid: Grid, bus: Bus, path: seq<int>, ich: int,
                                       paths: seq<seq<int>>, ioChannels: seq<int>,
                                       good: set<Link>, excluded: set<Link>, d: int)
    requires 0 <= ich < |path| && 0 <= d <= 4
    ensures var r := Scan(grid, bus, path, ich, paths, ioChannels, good, excluded, d);
      good <= r.good && excluded <= r.excluded &&
      r.good - good <= bus.linkOk &&
      (forall l :: l in r.excluded - excluded ==> l !in bus.linkOk) &&
      (forall n :: n in r.probed ==> !Classify(path, ich, good, paths, ioChannels, n).Skip?) &&
      (forall n :: n in r.probed && (path[ich], n) in bus.linkOk ==> (path[ich], n) in r.good) &&
      (forall n :: n in r.probed && (path[ich], n) !in bus.linkOk ==>
         (path[ich], n) in r.excluded && (path[ich], n) !in r.good)
    decreases 4 - d
  {
    if d < 4 {
      var n := Mover(grid, d, path[ich]);
      var l := (path[ich], n);
      if Classify(path, ich, good, paths, ioChannels, n).Skip? {
        ScanRecords(grid, bus, path, ich, paths, ioChannels, good, excluded, d + 1);
      } else if l in bus.linkOk {
        ScanRecords(grid, bus, path, ich, paths, ioChannels, good + {l}, excluded, d + 1);
        forall n' | !Classify(path, ich, good + {l}, paths, ioChannels, n').Skip?
          ensures !Classify(path, ich, good, paths, ioChannels, n').Skip?
        {
          ClassifyMonotone(path, ich, good, good + {l}, paths, ioChannels, n');
        }
      } else {
        ScanRecords(grid, bus, path, ich, paths, ioChannels, good, excluded + {l}, d + 1);
        assert l !in good by {
          ProbedBreaksNoRule(path, ich, good, paths, ioChannels, n);
        }
      }
    }
  }

  /** The keys a probe of candidate `n` reads and writes are there. */
  ghost predicate KeysFor(net: map<ChipKey, int>, ioGroup: int, ioChannel: int, path: seq<int>, ich: int,
                          good: set<Link>, paths: seq<seq<int>>, ioChannels: seq<int>, n: int)
    requires 0 <= ich < |path|
  {
    match Classify(path, ich, good, paths, ioChannels, n)
    case Skip => true
    case InPath(i) =>
      0 < i < |path| &&
      ChipKey(ioGroup, ioChannel, path[ich]) in net && ChipKey(ioGroup, ioChannel, n) in net &&
      ChipKey(ioGroup, ioChannel, path[i - 1]) in net
    case Across(rc) =>
      rc >= 0 && ChipKey(ioGroup, ioChannel, path[ich]) in net &&
      (rc > 0 ==> ChipKey(ioGroup, rc, n) in net || rc == ioChannel) &&
      (rc == 0 ==> ChipKey(ioGroup, ioChannel, n) in net)
  }

  /** A key `test_chip` may add or re-point: one of its own channel for a
      chip outside its own chain. */
  predicate Borrowable(k: ChipKey, ioGroup: int, ioChannel: int, path: seq<int>)
  {
    k.ioGroup == ioGroup && k.ioChannel == ioChannel && k.chipId !in path
  }

  /** `c.add_chip(key)` (after `c.remove_chip(key)` when larpix refuses it
      because the key is there) and `c[key].config = c[real_key].config`:
      the key ends up sharing the real key's configuration object. */
  method Borrow(ctrl: Controller, key: ChipKey, realKey: ChipKey)
    requires ctrl.Valid() && (realKey in ctrl.net || realKey == key)
    modifies ctrl
    ensures ctrl.Valid()
    ensures ctrl.net == old(ctrl.net)[key := if realKey == key then |old(ctrl.cells)| else old(ctrl.net)[realKey]]
    ensures ctrl.cells == old(ctrl.cells) + [ctrl.initial]
  {
    if key in ctrl.net {
      ctrl.RemoveChip(key);
    }
    ctrl.AddChip(key);
    ctrl.Alias(key, realKey);
  }

  /** The cells a probe touches: the chip under test's, the candidate's
      and, for a candidate of the same chain, its upstream chip's. */
  ghost predicate Touched(net: map<ChipKey, int>, kCurr: ChipKey, kNext: ChipKey, hasPrev: bool, kPrev: ChipKey, q: int)
    requires kCurr in net && kNext in net && (hasPrev ==> kPrev in net)
  {
    q == net[kCurr] || q == net[kNext] || (hasPrev && q == net[kPrev])
  }

  /** The touched keys refer to different configuration objects. */
  ghost predicate Separate(net: map<ChipKey, int>, kCurr: ChipKey, kNext: ChipKey, hasPrev: bool, kPrev: ChipKey)
    requires kCurr in net && kNext in net && (hasPrev ==> kPrev in net)
  {
    net[kCurr] != net[kNext] && (hasPrev ==> net[kPrev] != net[kCurr] && net[kPrev] != net[kNext])
  }

  /** The cut-off half of a probe: the candidate's downstream mask and its
      upstream chip's upstream mask are snapshotted and switched off, the
      chip under test's upstream mask is snapshotted and pointed at the
      candidate, and the candidate's downstream mask is pointed back at the
      chip under test. */
  method Isolate(ctrl: Controller, grid: Grid, chip: int, n: int,
                 kCurr: ChipKey, kNext: ChipKey, kNew: ChipKey, hasPrev: bool, kPrev: ChipKey)
    returns (nextDs: Uart, prevUs: Uart, currUs: Uart)
    requires ctrl.Valid() && kCurr in ctrl.net && kNext in ctrl.net && kNew in ctrl.net
    requires hasPrev ==> kPrev in ctrl.net
    requires ctrl.net[kNew] == ctrl.net[kNext]
    modifies ctrl
    ensures ctrl.Valid() && ctrl.net == old(ctrl.net) && |ctrl.cells| == old(|ctrl.cells|)
    ensures forall q :: 0 <= q < |ctrl.cells| && !Touched(ctrl.net, kCurr, kNext, hasPrev, kPrev, q) ==>
      ctrl.cells[q] == old(ctrl.cells[q])
    ensures Separate(ctrl.net, kCurr, kNext, hasPrev, kPrev) ==>
      nextDs == old(ctrl.Get(kNext)).misoDs && currUs == old(ctrl.Get(kCurr)).misoUs &&
      (hasPrev ==> prevUs == old(ctrl.Get(kPrev)).misoUs) &&
      ctrl.Get(kNext) == old(ctrl.Get(kNext)).(misoDs := grid.uartEnable(n, chip)) &&
      ctrl.Get(kCurr) == old(ctrl.Get(kCurr)).(misoUs := grid.uartEnable(chip, n)) &&
      (hasPrev ==> ctrl.Get(kPrev) == old(ctrl.Get(kPrev)).(misoUs := Zeros))
  {
    nextDs := ctrl.Get(kNext).misoDs;
    ctrl.Put(kNext, ctrl.Get(kNext).(misoDs := Zeros));
    prevUs := Zeros;
    if hasPrev {
      prevUs := ctrl.Get(kPrev).misoUs;
      ctrl.Put(kPrev, ctrl.Get(kPrev).(misoUs := Zeros));
    }
    currUs := ctrl.Get(kCurr).misoUs;
    ctrl.Put(kCurr, ctrl.Get(kCurr).(misoUs := grid.uartEnable(chip, n)));
    ctrl.Put(kNew, ctrl.Get(kNew).(misoDs := grid.uartEnable(n, chip)));
  }

  /** One restore of a probe: the three snapshots are written back, in the
      order the given try uses (1: chip under test, upstream chip,
      candidate; 2: upstream chip, chip under test, candidate; 3: candidate,
      chip under test, upstream chip). */
  method Restore(ctrl: Controller, kCurr: ChipKey, kNext: ChipKey, hasPrev: bool, kPrev: ChipKey,
                 nextDs: Uart, prevUs: Uart, currUs: Uart, attempt: int)
    requires ctrl.Valid() && kCurr in ctrl.net && kNext in ctrl.net && (hasPrev ==> kPrev in ctrl.net)
    modifies ctrl
    ensures ctrl.Valid() && ctrl.net == old(ctrl.net) && |ctrl.cells| == old(|ctrl.cells|)
    ensures forall q :: 0 <= q < |ctrl.cells| && !Touched(ctrl.net, kCurr, kNext, hasPrev, kPrev, q) ==>
      ctrl.cells[q] == old(ctrl.cells[q])
    ensures Separate(ctrl.net, kCurr, kNext, hasPrev, kPrev) ==>
      ctrl.Get(kNext) == old(ctrl.Get(kNext)).(misoDs := nextDs) &&
      ctrl.Get(kCurr) == old(ctrl.Get(kCurr)).(misoUs := currUs) &&
      (hasPrev ==> ctrl.Get(kPrev) == old(ctrl.Get(kPrev)).(misoUs := prevUs))
  {
    if attempt == 1 {
      ctrl.Put(kCurr, ctrl.Get(kCurr).(misoUs := currUs));
      if hasPrev {
        ctrl.Put(kPrev, ctrl.Get(kPrev).(misoUs := prevUs));
      }
      ctrl.Put(kNext, ctrl.Get(kNext).(misoDs := nextDs));
    } else if attempt == 2 {
      if hasPrev {
        ctrl.Put(kPrev, ctrl.Get(kPrev).(misoUs := prevUs));
      }
      ctrl.Put(kCurr, ctrl.Get(kCurr).(misoUs := currUs));
      ctrl.Put(kNext, ctrl.Get(kNext).(misoDs := nextDs));
    } else {
      ctrl.Put(kNext, ctrl.Get(kNext).(misoDs := nextDs));
      ctrl.Put(kCurr, ctrl.Get(kCurr).(misoUs := currUs));
      if hasPrev {
        ctrl.Put(kPrev, ctrl.Get(kPrev).(misoUs := prevUs));
      }
    }
  }

  /** The number of restores a probe of link `l` makes: one more after each
      failed read-back, at most three. */
  function RestoreTries(bus: Bus, l: Link): int
  {
    if (l, 1) in bus.restoreOk then 1 else if (l, 2) in bus.restoreOk then 2 else 3
  }

  /** The restores of a probe: one, then another after each failed
      read-back, at most three. */
  method RestoreUntilRead(ctrl: Controller, bus: Bus, link: Link, kCurr: ChipKey, kNext: ChipKey, hasPrev: bool, kPrev: ChipKey,
                          nextDs: Uart, prevUs: Uart, currUs: Uart)
    returns (tries: int)
    requires ctrl.Valid() && kCurr in ctrl.net && kNext in ctrl.net && (hasPrev ==> kPrev in ctrl.net)
    modifies ctrl
    ensures ctrl.Valid() && ctrl.net == old(ctrl.net) && |ctrl.cells| == old(|ctrl.cells|)
    ensures forall q :: 0 <= q < |ctrl.cells| && !Touched(ctrl.net, kCurr, kNext, hasPrev, kPrev, q) ==>
      ctrl.cells[q] == old(ctrl.cells[q])
    ensures Separate(ctrl.net, kCurr, kNext, hasPrev, kPrev) ==>
      ctrl.Get(kNext) == old(ctrl.Get(kNext)).(misoDs := nextDs) &&
      ctrl.Get(kCurr) == old(ctrl.Get(kCurr)).(misoUs := currUs) &&
      (hasPrev ==> ctrl.Get(kPrev) == old(ctrl.Get(kPrev)).(misoUs := prevUs))
    ensures tries == RestoreTries(bus, link)
  {
    Restore(ctrl, kCurr, kNext, hasPrev, kPrev, nextDs, prevUs, currUs, 1);
    tries := 1;
    if (link, 1) !in bus.restoreOk {
      Restore(ctrl, kCurr, kNext, hasPrev, kPrev, nextDs, prevUs, currUs, 2);
      tries := 2;
      if (link, 2) !in bus.restoreOk {
        Restore(ctrl, kCurr, kNext, hasPrev, kPrev, nextDs, prevUs, currUs, 3);
        tries := 3;
      }
    }
  }

  /** A probe of the link from `chip` to candidate `n`: cut the candidate
      off, read it back through the chip under test, record the link as
      good or one-sided excluded, and restore, trying again up to twice
      while the read-back after the restore fails. When the touched keys
      refer to different configurations, every configuration ends as it
      was; in any case no other configuration changes. */
  method Probe(ctrl: Controller, arr: Arrangement, grid: Grid, bus: Bus, chip: int, n: int,
               kCurr: ChipKey, kNext: ChipKey, kNew: ChipKey, hasPrev: bool, kPrev: ChipKey)
    returns (tries: int)
    requires ctrl.Valid() && kCurr in ctrl.net && kNext in ctrl.net && kNew in ctrl.net
    requires hasPrev ==> kPrev in ctrl.net
    requires ctrl.net[kNew] == ctrl.net[kNext]
    modifies ctrl, arr
    ensures ctrl.Valid() && ctrl.net == old(ctrl.net) && |ctrl.cells| == old(|ctrl.cells|)
    ensures forall q :: 0 <= q < |ctrl.cells| && !Touched(ctrl.net, kCurr, kNext, hasPrev, kPrev, q) ==>
      ctrl.cells[q] == old(ctrl.cells[q])
    ensures Separate(ctrl.net, kCurr, kNext, hasPrev, kPrev) ==> ctrl.cells == old(ctrl.cells)
    ensures (chip, n) in bus.linkOk ==>
      arr.goodConnections == old(arr.goodConnections) + {(chip, n)} && arr.excludedLinks == old(arr.excludedLinks)
    ensures (chip, n) !in bus.linkOk ==>
      arr.goodConnections == old(arr.goodConnections) && arr.excludedLinks == old(arr.excludedLinks) + {(chip, n)}
    ensures tries == RestoreTries(bus, (chip, n))
  {
    ghost var cells0 := ctrl.cells;
    var nextDs, prevUs, currUs := Isolate(ctrl, grid, chip, n, kCurr, kNext, kNew, hasPrev, kPrev);
    var link := (chip, n);
    if link in bus.linkOk {
      arr.AddGoodConnection(link);
    } else {
      arr.AddOnesidedExcludedLink(link);
    }
    tries := RestoreUntilRead(ctrl, bus, link, kCurr, kNext, hasPrev, kPrev, nextDs, prevUs, currUs);
    if Separate(ctrl.net, kCurr, kNext, hasPrev, kPrev) {
      assert forall q :: 0 <= q < |ctrl.cells| ==> ctrl.cells[q] == cells0[q];
    }
  }

  /** What `test_chip` keeps of the key table: no key is lost, and only
      borrowable keys are added or re-pointed. */
  ghost predicate NetKept(net: map<ChipKey, int>, net0: map<ChipKey, int>, ioGroup: int, ioChannel: int, path: seq<int>)
  {
    (forall k :: k in net0 ==> k in net) &&
    (forall k :: k in net && k !in net0 ==> Borrowable(k, ioGroup, ioChannel, path)) &&
    (forall k :: k in net0 && !Borrowable(k, ioGroup, ioChannel, path) ==> net[k] == net0[k])
  }

  /** A candidate of another chain, on another io channel, was reached by
      a key of this channel that shares the configuration its own chain's
      key had. */
  ghost predicate Shared(net: map<ChipKey, int>, net0: map<ChipKey, int>, ioGroup: int, ioChannel: int,
                         path: seq<int>, paths: seq<seq<int>>, ioChannels: seq<int>, n: int)
  {
    var rc := RealChannel(paths, ioChannels, n);
    n !in path && rc > 0 && rc != ioChannel ==>
      ChipKey(ioGroup, rc, n) in net0 && ChipKey(ioGroup, ioChannel, n) in net &&
      net[ChipKey(ioGroup, ioChannel, n)] == net0[ChipKey(ioGroup, rc, n)]
  }

  /** The cell a key refers to, if it is there. */
  ghost function CellOf(net: map<ChipKey, int>, k: ChipKey): set<int>
  {
    if k in net then {net[k]} else {}
  }

  /** The key through which a candidate of another chain is read back:
      its own chain's key when that chain is on an io channel above 0,
      and otherwise this channel's. */
  function ProbeKey(ioGroup: int, ioChannel: int, realChannel: int, n: int): ChipKey
  {
    if realChannel > 0 then ChipKey(ioGroup, realChannel, n) else ChipKey(ioGroup, ioChannel, n)
  }

  /** A candidate found on this very io channel is read back through a key
      that gets a configuration of its own. */
  predicate FreshProbe(ioChannel: int, realChannel: int)
  {
    realChannel > 0 && realChannel == ioChannel
  }

  /** The cells a probe planned as `plan` writes, as the key table `net`
      names them before `test_chip` starts. */
  ghost function PlanCells(net: map<ChipKey, int>, ioGroup: int, ioChannel: int, path: seq<int>, ich: int,
                           plan: Plan, n: int): set<int>
    requires 0 <= ich < |path|
  {
    var curr := CellOf(net, ChipKey(ioGroup, ioChannel, path[ich]));
    match plan
    case Skip => {}
    case InPath(i) =>
      curr + CellOf(net, ChipKey(ioGroup, ioChannel, n)) +
      (if 0 < i < |path| then CellOf(net, ChipKey(ioGroup, ioChannel, path[i - 1])) else {})
    case Across(rc) =>
      if FreshProbe(ioChannel, rc) then curr else curr + CellOf(net, ProbeKey(ioGroup, ioChannel, rc, n))
  }

  /** The keys a probe planned as `plan` writes refer to different cells
      of `net`. */
  ghost predicate PlanSeparate(net: map<ChipKey, int>, ioGroup: int, ioChannel: int, path: seq<int>, ich: int,
                               plan: Plan, n: int)
    requires 0 <= ich < |path|
  {
    var kCurr := ChipKey(ioGroup, ioChannel, path[ich]);
    match plan
    case Skip => true
    case InPath(i) =>
      (0 < i < |path| && kCurr in net && ChipKey(ioGroup, ioChannel, n) in net &&
       ChipKey(ioGroup, ioChannel, path[i - 1]) in net) ==>
        Separate(net, kCurr, ChipKey(ioGroup, ioChannel, n), true, ChipKey(ioGroup, ioChannel, path[i - 1]))
    case Across(rc) =>
      (!FreshProbe(ioChannel, rc) && kCurr in net && ProbeKey(ioGroup, ioChannel, rc, n) in net) ==>
        Separate(net, kCurr, ProbeKey(ioGroup, ioChannel, rc, n), false, kCurr)
  }

  /** The cells the probe in direction `d` may write. */
  ghost function DirCells(net: map<ChipKey, int>, grid: Grid, ioGroup: int, ioChannel: int, path: seq<int>, ich: int,
                          good: set<Link>, paths: seq<seq<int>>, ioChannels: seq<int>, d: int): set<int>
    requires 0 <= ich < |path|
  {
    var n := Mover(grid, d, path[ich]);
    PlanCells(net, ioGroup, ioChannel, path, ich, Classify(path, ich, good, paths, ioChannels, n), n)
  }

  /** The probe in direction `d` writes different cells through each key. */
  ghost predicate DirSeparate(net: map<ChipKey, int>, grid: Grid, ioGroup: int, ioChannel: int, path: seq<int>, ich: int,
                              good: set<Link>, paths: seq<seq<int>>, ioChannels: seq<int>, d: int)
    requires 0 <= ich < |path|
  {
    var n := Mover(grid, d, path[ich]);
    PlanSeparate(net, ioGroup, ioChannel, path, ich, Classify(path, ich, good, paths, ioChannels, n), n)
  }

  /** The cells the probes of all four directions may write. */
  ghost function ProbeCells(net: map<ChipKey, int>, grid: Grid, ioGroup: int, ioChannel: int, path: seq<int>, ich: int,
                            good: set<Link>, paths: seq<seq<int>>, ioChannels: seq<int>): set<int>
    requires 0 <= ich < |path|
  {
    DirCells(net, grid, ioGroup, ioChannel, path, ich, good, paths, ioChannels, 0) +
    DirCells(net, grid, ioGroup, ioChannel, path, ich, good, paths, ioChannels, 1) +
    DirCells(net, grid, ioGroup, ioChannel, path, ich, good, paths, ioChannels, 2) +
    DirCells(net, grid, ioGroup, ioChannel, path, ich, good, paths, ioChannels, 3)
  }

  /** Every probe writes different cells through each key. */
  ghost predicate ProbesSeparate(net: map<ChipKey, int>, grid: Grid, ioGroup: int, ioChannel: int, path: seq<int>, ich: int,
                                 good: set<Link>, paths: seq<seq<int>>, ioChannels: seq<int>)
    requires 0 <= ich < |path|
  {
    forall d :: 0 <= d < 4 ==> DirSeparate(net, grid, ioGroup, ioChannel, path, ich, good, paths, ioChannels, d)
  }

  /** A key of the starting table that now refers elsewhere was borrowed
      for a chip of a chain on an io channel above 0. */
  ghost predicate BorrowedOnly(net: map<ChipKey, int>, net0: map<ChipKey, int>, paths: seq<seq<int>>, ioChannels: seq<int>)
  {
    forall k :: k in net0 && k in net && net[k] != net0[k] ==> RealChannel(paths, ioChannels, k.chipId) > 0
  }

  /** What `test_chip` keeps of the configurations: they only gain cells;
      one that no probe may write keeps its value; and when every probe
      writes different cells through each key, every configuration is as
      it was and every gained cell is a fresh chip's. */
  ghost predicate CellsKept(cells: seq<Config>, cells0: seq<Config>, initial: Config, net0: map<ChipKey, int>,
                            grid: Grid, ioGroup: int, ioChannel: int, path: seq<int>, ich: int,
                            good0: set<Link>, paths: seq<seq<int>>, ioChannels: seq<int>)
    requires 0 <= ich < |path|
  {
    |cells0| <= |cells| &&
    (forall c :: (0 <= c < |cells0| && c !in ProbeCells(net0, grid, ioGroup, ioChannel, path, ich, good0, paths, ioChannels)) ==>
       cells[c] == cells0[c]) &&
    (ProbesSeparate(net0, grid, ioGroup, ioChannel, path, ich, good0, paths, ioChannels) ==>
       cells[..|cells0|] == cells0 && forall c :: |cells0| <= c < |cells| ==> cells[c] == initial)
  }

  /** The cells a probe's keys refer to, in the key table of the moment,
      are among those its plan names in the starting table, or were added
      since; and a probe whose plan writes different cells through each
      key does so in the key table of the moment too. */
  lemma ProbeWrites(net: map<ChipKey, int>, net0: map<ChipKey, int>, n0: int, grid: Grid, ioGroup: int, ioChannel: int,
                    path: seq<int>, ich: int, good0: set<Link>, paths: seq<seq<int>>, ioChannels: seq<int>, d: int,
                    plan: Plan, kCurr: ChipKey, kNext: ChipKey, hasPrev: bool, kPrev: ChipKey)
    requires 0 <= ich < |path| && 0 <= d < 4
    requires NetKept(net, net0, ioGroup, ioChannel, path) && BorrowedOnly(net, net0, paths, ioChannels)
    requires plan == Classify(path, ich, good0, paths, ioChannels, Mover(grid, d, path[ich])) && !plan.Skip?
    requires KeysFor(net0, ioGroup, ioChannel, path, ich, good0, paths, ioChannels, Mover(grid, d, path[ich]))
    requires kCurr == ChipKey(ioGroup, ioChannel, path[ich]) && kCurr in net && kNext in net && (hasPrev ==> kPrev in net)
    requires 0 <= net[kCurr] < n0
    requires plan.InPath? ==>
      hasPrev && kNext == ChipKey(ioGroup, ioChannel, Mover(grid, d, path[ich])) &&
      0 < plan.index < |path| && kPrev == ChipKey(ioGroup, ioChannel, path[plan.index - 1])
    requires plan.Across? ==>
      !hasPrev &&
      (FreshProbe(ioChannel, plan.realChannel) ==> net[kNext] >= n0) &&
      (!FreshProbe(ioChannel, plan.realChannel) ==>
         kNext == ProbeKey(ioGroup, ioChannel, plan.realChannel, Mover(grid, d, path[ich])))
    ensures forall q :: 0 <= q < n0 && Touched(net, kCurr, kNext, hasPrev, kPrev, q) ==>
      q in DirCells(net0, grid, ioGroup, ioChannel, path, ich, good0, paths, ioChannels, d)
    ensures DirSeparate(net0, grid, ioGroup, ioChannel, path, ich, good0, paths, ioChannels, d) ==>
      Separate(net, kCurr, kNext, hasPrev, kPrev)
  {
    var n := Mover(grid, d, path[ich]);
    assert net[kCurr] == net0[kCurr];
    match plan
    case InPath(i) =>
      assert n in path && path[i - 1] in path;
      assert net[kNext] == net0[kNext] && net[kPrev] == net0[kPrev];
    case Across(rc) =>
      if !FreshProbe(ioChannel, rc) {
        if rc <= 0 {
          assert RealChannel(paths, ioChannels, kNext.chipId) <= 0;
        }
        assert net[kNext] == net0[kNext];
      }
  }

  /** A probe after `cells0` gained only fresh chips' cells: a cell of
      `cells0` outside `allowed` keeps its value, and when `sep` holds
      every cell does. */
  method ProbeWithin(ctrl: Controller, arr: Arrangement, grid: Grid, bus: Bus, chip: int, n: int,
                     kCurr: ChipKey, kNext: ChipKey, kNew: ChipKey, hasPrev: bool, kPrev: ChipKey,
                     ghost cells0: seq<Config>, ghost allowed: set<int>, ghost sep: bool)
    requires ctrl.Valid() && kCurr in ctrl.net && kNext in ctrl.net && kNew in ctrl.net
    requires hasPrev ==> kPrev in ctrl.net
    requires ctrl.net[kNew] == ctrl.net[kNext]
    requires |cells0| <= |ctrl.cells| && ctrl.cells[..|cells0|] == cells0
    requires forall c :: |cells0| <= c < |ctrl.cells| ==> ctrl.cells[c] == ctrl.initial
    requires forall q :: 0 <= q < |cells0| && Touched(ctrl.net, kCurr, kNext, hasPrev, kPrev, q) ==> q in allowed
    requires sep ==> Separate(ctrl.net, kCurr, kNext, hasPrev, kPrev)
    modifies ctrl, arr
    ensures ctrl.Valid() && ctrl.net == old(ctrl.net) && |ctrl.cells| == old(|ctrl.cells|)
    ensures forall c :: (0 <= c < |cells0| && c !in allowed) ==> ctrl.cells[c] == cells0[c]
    ensures sep ==> ctrl.cells[..|cells0|] == cells0 && forall c :: |cells0| <= c < |ctrl.cells| ==> ctrl.cells[c] == ctrl.initial
    ensures (chip, n) in bus.linkOk ==>
      arr.goodConnections == old(arr.goodConnections) + {(chip, n)} && arr.excludedLinks == old(arr.excludedLinks)
    ensures (chip, n) !in bus.linkOk ==>
      arr.goodConnections == old(arr.goodConnections) && arr.excludedLinks == old(arr.excludedLinks) + {(chip, n)}
  {
    ghost var cells1 := ctrl.cells;
    assert forall c :: 0 <= c < |cells0| ==> cells1[c] == cells0[c];
    var _ := Probe(ctrl, arr, grid, bus, chip, n, kCurr, kNext, kNew, hasPrev, kPrev);
  }

  /** The io channel of the chain holding a candidate outside this chain
      is looked up; when it is above 0, this channel's key for the
      candidate is made to share that chain's configuration (a fresh one
      when it is this very channel). The candidate is then read back
      through `kNext`. */
  method BorrowAcross(ctrl: Controller, ioGroup: int, ioChannel: int, path: seq<int>,
                      paths: seq<seq<int>>, ioChannels: seq<int>, n: int, ghost net0: map<ChipKey, int>)
    returns (realChannel: int, kNext: ChipKey)
    requires ctrl.Valid() && n !in path
    requires NetKept(ctrl.net, net0, ioGroup, ioChannel, path) && BorrowedOnly(ctrl.net, net0, paths, ioChannels)
    requires FirstWith(paths, n, 0).Some? ==> FirstWith(paths, n, 0).value < |ioChannels|
    requires var rc := RealChannel(paths, ioChannels, n);
      rc > 0 ==> ChipKey(ioGroup, rc, n) in net0 || rc == ioChannel
    requires RealChannel(paths, ioChannels, n) <= 0 ==> ChipKey(ioGroup, ioChannel, n) in net0
    modifies ctrl
    ensures ctrl.Valid() && NetKept(ctrl.net, net0, ioGroup, ioChannel, path) && BorrowedOnly(ctrl.net, net0, paths, ioChannels)
    ensures realChannel == RealChannel(paths, ioChannels, n)
    ensures kNext == ProbeKey(ioGroup, ioChannel, realChannel, n)
    ensures kNext in ctrl.net && ChipKey(ioGroup, ioChannel, n) in ctrl.net
    ensures ctrl.net[ChipKey(ioGroup, ioChannel, n)] == ctrl.net[kNext]
    ensures FreshProbe(ioChannel, realChannel) ==> ctrl.net[kNext] == |old(ctrl.cells)|
    ensures forall k :: k in old(ctrl.net) && k != ChipKey(ioGroup, ioChannel, n) ==> k in ctrl.net && ctrl.net[k] == old(ctrl.net)[k]
    ensures ctrl.cells == old(ctrl.cells) + (if realChannel > 0 then [ctrl.initial] else [])
    ensures Shared(ctrl.net, net0, ioGroup, ioChannel, path, paths, ioChannels, n)
    ensures forall m :: Shared(old(ctrl.net), net0, ioGroup, ioChannel, path, paths, ioChannels, m) ==>
      Shared(ctrl.net, net0, ioGroup, ioChannel, path, paths, ioChannels, m)
  {
    realChannel := FindRealChannel(paths, ioChannels, n);
    kNext := ChipKey(ioGroup, ioChannel, n);
    if realChannel > 0 {
      var realKey := ChipKey(ioGroup, realChannel, n);
      Borrow(ctrl, kNext, realKey);
      kNext := realKey;
    }
  }

  /** The probe of a candidate that breaks none of the first skip rules:
      one later in this chain is skipped when it is not after the chip under
      test or is the root, one outside the chain is reached through a
      borrowed key, and the link is then probed. */
  method ProbeCandidate(ctrl: Controller, arr: Arrangement, grid: Grid, bus: Bus, ioGroup: int, ioChannel: int,
                        path: seq<int>, ich: int, paths: seq<seq<int>>, ioChannels: seq<int>, d: int,
                        ghost net0: map<ChipKey, int>, ghost good0: set<Link>)
    returns (probedHere: seq<int>)
    requires 0 <= ich < |path| && 0 <= d < 4
    requires var n := Mover(grid, d, path[ich]);
      n >= 2 && !(ich < |path| - 1 && n == path[ich + 1]) && n != PrevInPath(path, ich) &&
      (path[ich], n) !in arr.goodConnections
    requires ctrl.Valid() && NetKept(ctrl.net, net0, ioGroup, ioChannel, path) && good0 <= arr.goodConnections
    requires KeysFor(net0, ioGroup, ioChannel, path, ich, good0, paths, ioChannels, Mover(grid, d, path[ich]))
    requires BorrowedOnly(ctrl.net, net0, paths, ioChannels)
    modifies ctrl, arr
    ensures ctrl.Valid() && NetKept(ctrl.net, net0, ioGroup, ioChannel, path)
    ensures BorrowedOnly(ctrl.net, net0, paths, ioChannels)
    ensures old(arr.goodConnections) <= arr.goodConnections
    ensures |old(ctrl.cells)| <= |ctrl.cells|
    ensures forall c ::
      (0 <= c < |old(ctrl.cells)| && c !in DirCells(net0, grid, ioGroup, ioChannel, path, ich, good0, paths, ioChannels, d)) ==>
      ctrl.cells[c] == old(ctrl.cells)[c]
    ensures DirSeparate(net0, grid, ioGroup, ioChannel, path, ich, good0, paths, ioChannels, d) ==>
      ctrl.cells[..|old(ctrl.cells)|] == old(ctrl.cells) &&
      forall c :: |old(ctrl.cells)| <= c < |ctrl.cells| ==> ctrl.cells[c] == ctrl.initial
    ensures var n := Mover(grid, d, path[ich]);
      var plan := Classify(path, ich, old(arr.goodConnections), paths, ioChannels, n);
      if plan.Skip? then
        probedHere == [] && arr.goodConnections == old(arr.goodConnections) && arr.excludedLinks == old(arr.excludedLinks)
      else
        probedHere == [n] &&
        ((path[ich], n) in bus.linkOk ==> arr.goodConnections == old(arr.goodConnections) + {(path[ich], n)} &&
                                          arr.excludedLinks == old(arr.excludedLinks)) &&
        ((path[ich], n) !in bus.linkOk ==> arr.goodConnections == old(arr.goodConnections) &&
                                           arr.excludedLinks == old(arr.excludedLinks) + {(path[ich], n)})
    ensures forall m :: m in probedHere ==> Shared(ctrl.net, net0, ioGroup, ioChannel, path, paths, ioChannels, m)
    ensures forall m :: Shared(old(ctrl.net), net0, ioGroup, ioChannel, path, paths, ioChannels, m) ==>
      Shared(ctrl.net, net0, ioGroup, ioChannel, path, paths, ioChannels, m)
  {
    var chip := path[ich];
    var n := Mover(grid, d, chip);
    probedHere := [];
    var realChannel := -1;
    var nextIndex := 0;
    var kCurr := ChipKey(ioGroup, ioChannel, chip);
    var kNext := ChipKey(ioGroup, ioChannel, n);
    var kNew := kNext;
    ghost var plan := Skip;
    if n !in path {
      ClassifyMonotone(path, ich, good0, arr.goodConnections, paths, ioChannels, n);
      realChannel, kNext := BorrowAcross(ctrl, ioGroup, ioChannel, path, paths, ioChannels, n, net0);
      plan := Across(realChannel);
    } else {
      nextIndex := IndexOf(path, n);
      if nextIndex < ich || nextIndex == 0 {
        return;
      }
      ClassifyMonotone(path, ich, good0, arr.goodConnections, paths, ioChannels, n);
      plan := InPath(nextIndex);
    }
    var hasPrev := realChannel < 0;
    var kPrev := kCurr;
    if hasPrev {
      kPrev := ChipKey(ioGroup, ioChannel, path[nextIndex - 1]);
    }
    probedHere := [n];
    ProbeWrites(ctrl.net, net0, |old(ctrl.cells)|, grid, ioGroup, ioChannel, path, ich, good0, paths, ioChannels, d,
                plan, kCurr, kNext, hasPrev, kPrev);
    ProbeWithin(ctrl, arr, grid, bus, chip, n, kCurr, kNext, kNew, hasPrev, kPrev, old(ctrl.cells),
                DirCells(net0, grid, ioGroup, ioChannel, path, ich, good0, paths, ioChannels, d),
                DirSeparate(net0, grid, ioGroup, ioChannel, path, ich, good0, paths, ioChannels, d));
  }

  /** One pass of the direction loop of `test_chip`: the skip rules, and
      the probe of a candidate that breaks none of them. */
  method TestDirection(ctrl: Controller, arr: Arrangement, grid: Grid, bus: Bus, ioGroup: int, ioChannel: int,
                       path: seq<int>, ich: int, paths: seq<seq<int>>, ioChannels: seq<int>, d: int,
                       ghost net0: map<ChipKey, int>, ghost good0: set<Link>)
    returns (probedHere: seq<int>)
    requires 0 <= ich < |path| && 0 <= d < 4
    requires ctrl.Valid() && NetKept(ctrl.net, net0, ioGroup, ioChannel, path) && good0 <= arr.goodConnections
    requires KeysFor(net0, ioGroup, ioChannel, path, ich, good0, paths, ioChannels, Mover(grid, d, path[ich]))
    requires BorrowedOnly(ctrl.net, net0, paths, ioChannels)
    modifies ctrl, arr
    ensures ctrl.Valid() && NetKept(ctrl.net, net0, ioGroup, ioChannel, path)
    ensures BorrowedOnly(ctrl.net, net0, paths, ioChannels)
    ensures old(arr.goodConnections) <= arr.goodConnections
    ensures |old(ctrl.cells)| <= |ctrl.cells|
    ensures forall c ::
      (0 <= c < |old(ctrl.cells)| && c !in DirCells(net0, grid, ioGroup, ioChannel, path, ich, good0, paths, ioChannels, d)) ==>
      ctrl.cells[c] == old(ctrl.cells)[c]
    ensures DirSeparate(net0, grid, ioGroup, ioChannel, path, ich, good0, paths, ioChannels, d) ==>
      ctrl.cells[..|old(ctrl.cells)|] == old(ctrl.cells) &&
      forall c :: |old(ctrl.cells)| <= c < |ctrl.cells| ==> ctrl.cells[c] == ctrl.initial
    ensures Scan(grid, bus, path, ich, paths, ioChannels, old(arr.goodConnections), old(arr.excludedLinks), d) ==
      var r := Scan(grid, bus, path, ich, paths, ioChannels, arr.goodConnections, arr.excludedLinks, d + 1);
      Outcome(r.good, r.excluded, probedHere + r.probed)
    ensures forall m :: m in probedHere ==> Shared(ctrl.net, net0, ioGroup, ioChannel, path, paths, ioChannels, m)
    ensures forall m :: Shared(old(ctrl.net), net0, ioGroup, ioChannel, path, paths, ioChannels, m) ==>
      Shared(ctrl.net, net0, ioGroup, ioChannel, path, paths, ioChannels, m)
  {
    var chip := path[ich];
    var n := Mover(grid, d, chip);
    probedHere := [];
    if n < 2 {
      return;
    }
    if ich < |path| - 1 && n == path[ich + 1] {
      return;
    }
    if n == PrevInPath(path, ich) {
      return;
    }
    if (chip, n) in arr.goodConnections {
      return;
    }
    probedHere := ProbeCandidate(ctrl, arr, grid, bus, ioGroup, ioChannel, path, ich, paths, ioChannels, d, net0, good0);
  }

  /** The state of `test_chip` before direction `d`: what `NetKept` and
      `Shared` say of the key table, and the links recorded so far and the
      candidates probed so far are those `Scan` gives. */
  ghost predicate ChipState(net: map<ChipKey, int>, good: set<Link>, excluded: set<Link>, probed: seq<int>, d: int,
                            net0: map<ChipKey, int>, good0: set<Link>, excluded0: set<Link>,
                            grid: Grid, bus: Bus, ioGroup: int, ioChannel: int,
                            path: seq<int>, ich: int, paths: seq<seq<int>>, ioChannels: seq<int>)
    requires 0 <= ich < |path| && 0 <= d <= 4
  {
    NetKept(net, net0, ioGroup, ioChannel, path) && good0 <= good &&
    (var r := Scan(grid, bus, path, ich, paths, ioChannels, good, excluded, d);
     Scan(grid, bus, path, ich, paths, ioChannels, good0, excluded0, 0) == Outcome(r.good, r.excluded, probed + r.probed)) &&
    forall m :: m in probed ==> Shared(net, net0, ioGroup, ioChannel, path, paths, ioChannels, m)
  }

  /** The probe in direction `d` keeps `CellsKept`. */
  lemma CellsKeptStep(cells: seq<Config>, cells': seq<Config>, cells0: seq<Config>, initial: Config,
                      net0: map<ChipKey, int>, grid: Grid, ioGroup: int, ioChannel: int, path: seq<int>, ich: int,
                      good0: set<Link>, paths: seq<seq<int>>, ioChannels: seq<int>, d: int)
    requires 0 <= ich < |path| && 0 <= d < 4
    requires CellsKept(cells, cells0, initial, net0, grid, ioGroup, ioChannel, path, ich, good0, paths, ioChannels)
    requires |cells| <= |cells'|
    requires forall c ::
      (0 <= c < |cells| && c !in DirCells(net0, grid, ioGroup, ioChannel, path, ich, good0, paths, ioChannels, d)) ==>
      cells'[c] == cells[c]
    requires DirSeparate(net0, grid, ioGroup, ioChannel, path, ich, good0, paths, ioChannels, d) ==>
      cells'[..|cells|] == cells && forall c :: |cells| <= c < |cells'| ==> cells'[c] == initial
    ensures CellsKept(cells', cells0, initial, net0, grid, ioGroup, ioChannel, path, ich, good0, paths, ioChannels)
  {
    if ProbesSeparate(net0, grid, ioGroup, ioChannel, path, ich, good0, paths, ioChannels) {
      assert DirSeparate(net0, grid, ioGroup, ioChannel, path, ich, good0, paths, ioChannels, d);
      assert forall c :: 0 <= c < |cells0| ==> cells'[c] == cells[c] == cells0[c];
      assert forall c :: |cells0| <= c < |cells| ==> cells'[c] == cells[c] == initial;
    }
  }

  /** One turn of the direction loop, from `ChipState` before it to
      `ChipState` after it. */
  method TestNext(ctrl: Controller, arr: Arrangement, grid: Grid, bus: Bus, ioGroup: int, ioChannel: int,
                  path: seq<int>, ich: int, paths: seq<seq<int>>, ioChannels: seq<int>, d: int,
                  ghost net0: map<ChipKey, int>, ghost good0: set<Link>, ghost excluded0: set<Link>, ghost probed: seq<int>,
                  ghost cells0: seq<Config>)
    returns (ghost probed': seq<int>)
    requires 0 <= ich < |path| && 0 <= d < 4 && ctrl.Valid()
    requires ChipState(ctrl.net, arr.goodConnections, arr.excludedLinks, probed, d, net0, good0, excluded0,
                       grid, bus, ioGroup, ioChannel, path, ich, paths, ioChannels)
    requires KeysFor(net0, ioGroup, ioChannel, path, ich, good0, paths, ioChannels, Mover(grid, d, path[ich]))
    requires BorrowedOnly(ctrl.net, net0, paths, ioChannels)
    requires CellsKept(ctrl.cells, cells0, ctrl.initial, net0, grid, ioGroup, ioChannel, path, ich, good0, paths, ioChannels)
    modifies ctrl, arr
    ensures ctrl.Valid()
    ensures ChipState(ctrl.net, arr.goodConnections, arr.excludedLinks, probed', d + 1, net0, good0, excluded0,
                      grid, bus, ioGroup, ioChannel, path, ich, paths, ioChannels)
    ensures BorrowedOnly(ctrl.net, net0, paths, ioChannels)
    ensures CellsKept(ctrl.cells, cells0, ctrl.initial, net0, grid, ioGroup, ioChannel, path, ich, good0, paths, ioChannels)
  {
    ghost var cells1 := ctrl.cells;
    var here := TestDirection(ctrl, arr, grid, bus, ioGroup, ioChannel, path, ich, paths, ioChannels, d, net0, good0);
    CellsKeptStep(cells1, ctrl.cells, cells0, ctrl.initial, net0, grid, ioGroup, ioChannel, path, ich, good0, paths, ioChannels, d);
    ghost var r := Scan(grid, bus, path, ich, paths, ioChannels, arr.goodConnections, arr.excludedLinks, d + 1);
    assert probed + (here + r.probed) == (probed + here) + r.probed;
    probed' := probed + here;
  }

  /** `test_chip`: every direction from the chip at `path[ich]` in turn.
      It answers true; the links it records are those `Scan` gives for the
      read-back outcomes, the key table only gains or re-points keys of
      this channel for chips outside the chain, and each candidate of
      another chain probed on another io channel is left reachable by a key
      of this channel sharing that chain's configuration. */
  method TestChip(ctrl: Controller, arr: Arrangement, grid: Grid, bus: Bus, ioGroup: int, ioChannel: int,
                  path: seq<int>, ich: int, paths: seq<seq<int>>, ioChannels: seq<int>)
    returns (ok: bool)
    requires 0 <= ich < |path| && ctrl.Valid()
    requires forall d :: 0 <= d < 4 ==>
      KeysFor(ctrl.net, ioGroup, ioChannel, path, ich, arr.goodConnections, paths, ioChannels, Mover(grid, d, path[ich]))
    modifies ctrl, arr
    ensures ok && ctrl.Valid()
    ensures var r := Scan(grid, bus, path, ich, paths, ioChannels, old(arr.goodConnections), old(arr.excludedLinks), 0);
      arr.goodConnections == r.good && arr.excludedLinks == r.excluded &&
      forall m :: m in r.probed ==> Shared(ctrl.net, old(ctrl.net), ioGroup, ioChannel, path, paths, ioChannels, m)
    ensures NetKept(ctrl.net, old(ctrl.net), ioGroup, ioChannel, path)
    ensures BorrowedOnly(ctrl.net, old(ctrl.net), paths, ioChannels)
    ensures CellsKept(ctrl.cells, old(ctrl.cells), ctrl.initial, old(ctrl.net), grid, ioGroup, ioChannel, path, ich,
                      old(arr.goodConnections), paths, ioChannels)
  {
    ghost var net0 := ctrl.net;
    ghost var cells0 := ctrl.cells;
    ghost var good0 := arr.goodConnections;
    ghost var excluded0 := arr.excludedLinks;
    ghost var probed: seq<int> := [];
    for d := 0 to 4
      invariant ctrl.Valid()
      invariant ChipState(ctrl.net, arr.goodConnections, arr.excludedLinks, probed, d, net0, good0, excluded0,
                          grid, bus, ioGroup, ioChannel, path, ich, paths, ioChannels)
      invariant BorrowedOnly(ctrl.net, net0, paths, ioChannels)
      invariant CellsKept(ctrl.cells, cells0, ctrl.initial, net0, grid, ioGroup, ioChannel, path, ich, good0, paths, ioChannels)
    {
      probed := TestNext(ctrl, arr, grid, bus, ioGroup, ioChannel, path, ich, paths, ioChannels, d, net0, good0, excluded0, probed,
                         cells0);
    }
    ok := true;
  }
}
