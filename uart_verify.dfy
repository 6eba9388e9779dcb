/** `test_network`: every io channel walks its planned path again in
    lockstep with the others, one hop per round, reading back the chip-id
    register through each hop it does not already know to be good. */
module UartVerify {
  import opened Common
  import opened UartNetwork

  /** The s-th hop of a path: the link from its (s-1)-th chip to its s-th. */
  function Hop(path: seq<int>, s: int): Link
    requires 1 <= s < |path|
  {
    (path[s - 1], path[s])
  }

  /** How far a walk along `path`, started at hop `s`, gets when exactly the
      links in `passes` carry it: the index of the last chip reached. Every
      hop up to it passes, and the hop after it, if any, does not. */
  function ReachFrom(path: seq<int>, passes: set<Link>, s: int): (r: int)
    requires 1 <= s <= |path|
    ensures s - 1 <= r <= |path| - 1
    ensures forall s' :: s <= s' <= r ==> Hop(path, s') in passes
    ensures r < |path| - 1 ==> Hop(path, r + 1) !in passes
    decreases |path| - s
  {
    if s == |path| then |path| - 1
    else if Hop(path, s) in passes then ReachFrom(path, passes, s + 1)
    else s - 1
  }

  /** The index of the last chip a walk along the whole path reaches. */
  function Reach(path: seq<int>, passes: set<Link>): int
    requires |path| >= 1
  {
    ReachFrom(path, passes, 1)
  }

  /** The reach is the one index with every hop up to it passing and the
      next one, if any, failing. */
  lemma ReachUnique(path: seq<int>, passes: set<Link>, r: int)
    requires |path| >= 1 && 0 <= r <= |path| - 1
    requires forall s :: 1 <= s <= r ==> Hop(path, s) in passes
    requires r < |path| - 1 ==> Hop(path, r + 1) !in passes
    ensures Reach(path, passes) == r
  {
    var r' := Reach(path, passes);
    assert r' >= r;
    assert r' <= r;
  }

  /** A channel is still valid after `d` rounds unless its walk failed at a
      hop it has already tried. */
  function ValidAfter(path: seq<int>, passes: set<Link>, d: int): bool
    requires |path| >= 1
  {
    !(Reach(path, passes) < |path| - 1 && Reach(path, passes) + 1 <= d)
  }

  /** A channel is still stepping after `d` rounds while it is valid and
      has not yet noticed that it ran past its last chip. */
  function SteppingAfter(path: seq<int>, passes: set<Link>, d: int): bool
    requires |path| >= 1
  {
    ValidAfter(path, passes, d) && d < |path|
  }

  /** In round `t`, the channels before `k` have had their turn. */
  function Rounds(i: int, t: int, k: int): int
  {
    if i < k then t else t - 1
  }

  /** The links the first rounds have proved good: every passing hop a
      channel has tried. */
  function GoodLinks(paths: seq<seq<int>>, passes: set<Link>, t: int, k: int): set<Link>
  {
    set i, s | 0 <= i < |paths| && |paths[i]| >= 1 && 1 <= s <= Reach(paths[i], passes) && s <= Rounds(i, t, k)
      :: Hop(paths[i], s)
  }

  /** The links the first rounds have excluded: the failing hop of every
      channel that has tried it. */
  function ExcludedLinks(paths: seq<seq<int>>, passes: set<Link>, t: int, k: int): set<Link>
  {
    set i | 0 <= i < |paths| && |paths[i]| >= 1 &&
            Reach(paths[i], passes) < |paths[i]| - 1 && Reach(paths[i], passes) + 1 <= Rounds(i, t, k)
      :: Hop(paths[i], Reach(paths[i], passes) + 1)
  }

  /** Every link of a whole network walk that passes. */
  function WalkedLinks(paths: seq<seq<int>>, passes: set<Link>): set<Link>
  {
    set i, s | 0 <= i < |paths| && |paths[i]| >= 1 && 1 <= s <= Reach(paths[i], passes) :: Hop(paths[i], s)
  }

  /** The first failing link of every channel whose walk fails. */
  function FailedLinks(paths: seq<seq<int>>, passes: set<Link>): set<Link>
  {
    set i | 0 <= i < |paths| && |paths[i]| >= 1 && Reach(paths[i], passes) < |paths[i]| - 1
      :: Hop(paths[i], Reach(paths[i], passes) + 1)
  }

  /** The state of the lockstep loop in round `t` once the channels before
      `k` have had their turn. */
  ghost predicate RoundState(paths: seq<seq<int>>, passes: set<Link>, good0: set<Link>, excluded0: set<Link>,
                             t: int, k: int, stepping: seq<bool>, valid: seq<bool>,
                             good: set<Link>, excluded: set<Link>)
  {
    FlagsAt(paths, passes, t, k, stepping, valid) &&
    good == good0 + GoodLinks(paths, passes, t, k) &&
    excluded == excluded0 + ExcludedLinks(paths, passes, t, k)
  }

  /** What one channel's turn does to its flags and to the link sets, as
      `test_network`'s inner loop body decides it. */
  predicate HopOutcome(path: seq<int>, t: int, linkOk: set<Link>,
                       stepping: bool, valid: bool, good: set<Link>, excluded: set<Link>,
                       stepping': bool, valid': bool, good': set<Link>, excluded': set<Link>)
    requires |path| >= 1
  {
    if !stepping || !valid then
      stepping' == stepping && valid' == valid && good' == good && excluded' == excluded
    else if t > |path| - 1 then
      !stepping' && valid' == valid && good' == good && excluded' == excluded
    else if t < 1 then
      false
    else if Hop(path, t) in good then
      stepping' && valid' && good' == good && excluded' == excluded
    else if Hop(path, t) in linkOk then
      stepping' && valid' && good' == good + {Hop(path, t)} && excluded' == excluded
    else
      !stepping' && !valid' && good' == good && excluded' == excluded + {Hop(path, t)}
  }

  /** Every link proved good so far passes. */
  lemma GoodLinksPass(paths: seq<seq<int>>, passes: set<Link>, t: int, k: int)
    ensures GoodLinks(paths, passes, t, k) <= passes
  {
    forall l | l in GoodLinks(paths, passes, t, k) ensures l in passes {
      var i, s :| 0 <= i < |paths| && |paths[i]| >= 1 && 1 <= s <= Reach(paths[i], passes) && s <= Rounds(i, t, k)
                  && l == Hop(paths[i], s);
    }
  }

  /** Channel k's turn in round t adds at most its t-th hop to the good
      links. */
  lemma GoodLinksStep(paths: seq<seq<int>>, passes: set<Link>, t: int, k: int)
    requires 0 <= k < |paths| && |paths[k]| >= 1 && t >= 1
    ensures GoodLinks(paths, passes, t, k + 1) ==
            GoodLinks(paths, passes, t, k) + (if t <= Reach(paths[k], passes) then {Hop(paths[k], t)} else {})
  {
    var extra := if t <= Reach(paths[k], passes) then {Hop(paths[k], t)} else {};
    forall l | l in GoodLinks(paths, passes, t, k + 1)
      ensures l in GoodLinks(paths, passes, t, k) + extra
    {
      var i, s :| 0 <= i < |paths| && |paths[i]| >= 1 && 1 <= s <= Reach(paths[i], passes) && s <= Rounds(i, t, k + 1)
                  && l == Hop(paths[i], s);
      if i == k && s == t {
        assert l in extra;
      } else {
        assert s <= Rounds(i, t, k);
      }
    }
    forall l | l in GoodLinks(paths, passes, t, k) + extra
      ensures l in GoodLinks(paths, passes, t, k + 1)
    {
      if l !in extra {
        var i, s :| 0 <= i < |paths| && |paths[i]| >= 1 && 1 <= s <= Reach(paths[i], passes) && s <= Rounds(i, t, k)
                    && l == Hop(paths[i], s);
        assert s <= Rounds(i, t, k + 1);
      }
    }
  }

  /** Channel k's turn in round t adds at most its t-th hop to the excluded
      links, when that is where its walk fails. */
  lemma ExcludedLinksStep(paths: seq<seq<int>>, passes: set<Link>, t: int, k: int)
    requires 0 <= k < |paths| && |paths[k]| >= 1 && t >= 1
    ensures ExcludedLinks(paths, passes, t, k + 1) ==
            ExcludedLinks(paths, passes, t, k) +
            (if Reach(paths[k], passes) < |paths[k]| - 1 && Reach(paths[k], passes) + 1 == t
             then {Hop(paths[k], t)} else {})
  {
    var extra := if Reach(paths[k], passes) < |paths[k]| - 1 && Reach(paths[k], passes) + 1 == t
                 then {Hop(paths[k], t)} else {};
    forall l | l in ExcludedLinks(paths, passes, t, k + 1)
      ensures l in ExcludedLinks(paths, passes, t, k) + extra
    {
      var i :| 0 <= i < |paths| && |paths[i]| >= 1 && Reach(paths[i], passes) < |paths[i]| - 1 &&
               Reach(paths[i], passes) + 1 <= Rounds(i, t, k + 1) && l == Hop(paths[i], Reach(paths[i], passes) + 1);
      if i == k && Reach(paths[i], passes) + 1 == t {
        assert l in extra;
      } else {
        assert Reach(paths[i], passes) + 1 <= Rounds(i, t, k);
      }
    }
    forall l | l in ExcludedLinks(paths, passes, t, k) + extra
      ensures l in ExcludedLinks(paths, passes, t, k + 1)
    {
      if l !in extra {
        var i :| 0 <= i < |paths| && |paths[i]| >= 1 && Reach(paths[i], passes) < |paths[i]| - 1 &&
                 Reach(paths[i], passes) + 1 <= Rounds(i, t, k) && l == Hop(paths[i], Reach(paths[i], passes) + 1);
        assert Reach(paths[i], passes) + 1 <= Rounds(i, t, k + 1);
      }
    }
  }

  /** What one channel's turn does, in terms of its walk: its flags move
      on one round, and the link sets gain the hop it tried if that hop
      passes, or excludes it if that is where the walk fails. */
  lemma ChannelOutcome(p: seq<int>, passes: set<Link>, linkOk: set<Link>, good0: set<Link>, t: int,
                       stepping: bool, valid: bool, good: set<Link>, excluded: set<Link>,
                       stepping': bool, valid': bool, good': set<Link>, excluded': set<Link>)
    requires passes == good0 + linkOk && good0 <= good <= passes && |p| >= 1 && t >= 1
    requires stepping == SteppingAfter(p, passes, t - 1) && valid == ValidAfter(p, passes, t - 1)
    requires HopOutcome(p, t, linkOk, stepping, valid, good, excluded, stepping', valid', good', excluded')
    ensures stepping' == SteppingAfter(p, passes, t) && valid' == ValidAfter(p, passes, t)
    ensures good' == good + (if t <= Reach(p, passes) then {Hop(p, t)} else {})
    ensures excluded' == excluded +
      (if Reach(p, passes) < |p| - 1 && Reach(p, passes) + 1 == t then {Hop(p, t)} else {})
  {
    var r := Reach(p, passes);
    if stepping && valid && t <= |p| - 1 {
      if Hop(p, t) in good {
        assert r >= t;
      } else if Hop(p, t) in linkOk {
        assert r >= t;
      } else {
        assert Hop(p, t) !in passes;
        assert r == t - 1;
      }
    }
  }

  /** The flags of every channel after the first `k` have had their turn
      in round `t`. */
  ghost predicate FlagsAt(paths: seq<seq<int>>, passes: set<Link>, t: int, k: int, stepping: seq<bool>, valid: seq<bool>)
  {
    (forall i :: 0 <= i < |paths| ==> |paths[i]| >= 1) &&
    |stepping| == |paths| && |valid| == |paths| &&
    (forall i :: 0 <= i < |paths| ==>
       stepping[i] == SteppingAfter(paths[i], passes, Rounds(i, t, k)) &&
       valid[i] == ValidAfter(paths[i], passes, Rounds(i, t, k)))
  }

  /** Channel k's new flags, set after its turn, move the flags on. */
  lemma FlagsStep(paths: seq<seq<int>>, passes: set<Link>, t: int, k: int, stepping: seq<bool>, valid: seq<bool>,
                  sk: bool, vk: bool)
    requires 0 <= k < |paths| && FlagsAt(paths, passes, t, k, stepping, valid)
    requires sk == SteppingAfter(paths[k], passes, t) && vk == ValidAfter(paths[k], passes, t)
    ensures FlagsAt(paths, passes, t, k + 1, stepping[k := sk], valid[k := vk])
  {
    forall i | 0 <= i < |paths| && i != k
      ensures Rounds(i, t, k + 1) == Rounds(i, t, k)
    {
    }
  }

  /** The good links after channel k's turn. */
  lemma GoodAfterTurn(paths: seq<seq<int>>, passes: set<Link>, good0: set<Link>, t: int, k: int,
                      good: set<Link>, good': set<Link>)
    requires 0 <= k < |paths| && |paths[k]| >= 1 && t >= 1
    requires good == good0 + GoodLinks(paths, passes, t, k)
    requires good' == good + (if t <= Reach(paths[k], passes) then {Hop(paths[k], t)} else {})
    ensures good' == good0 + GoodLinks(paths, passes, t, k + 1)
  {
    GoodLinksStep(paths, passes, t, k);
  }

  /** The excluded links after channel k's turn. */
  lemma ExcludedAfterTurn(paths: seq<seq<int>>, passes: set<Link>, excluded0: set<Link>, t: int, k: int,
                          excluded: set<Link>, excluded': set<Link>)
    requires 0 <= k < |paths| && |paths[k]| >= 1 && t >= 1
    requires excluded == excluded0 + ExcludedLinks(paths, passes, t, k)
    requires excluded' == excluded +
      (if Reach(paths[k], passes) < |paths[k]| - 1 && Reach(paths[k], passes) + 1 == t then {Hop(paths[k], t)} else {})
    ensures excluded' == excluded0 + ExcludedLinks(paths, passes, t, k + 1)
  {
    ExcludedLinksStep(paths, passes, t, k);
  }

  /** One channel's turn keeps the loop state, one channel further on. */
  lemma RoundStep(paths: seq<seq<int>>, passes: set<Link>, linkOk: set<Link>, good0: set<Link>, excluded0: set<Link>,
                  t: int, k: int, stepping: seq<bool>, valid: seq<bool>, good: set<Link>, excluded: set<Link>,
                  sk: bool, vk: bool, good': set<Link>, excluded': set<Link>)
    requires passes == good0 + linkOk && 0 <= k < |paths| && t >= 1
    requires RoundState(paths, passes, good0, excluded0, t, k, stepping, valid, good, excluded)
    requires HopOutcome(paths[k], t, linkOk, stepping[k], valid[k], good, excluded, sk, vk, good', excluded')
    ensures RoundState(paths, passes, good0, excluded0, t, k + 1, stepping[k := sk], valid[k := vk], good', excluded')
  {
    GoodLinksPass(paths, passes, t, k);
    ChannelOutcome(paths[k], passes, linkOk, good0, t, stepping[k], valid[k], good, excluded, sk, vk, good', excluded');
    GoodAfterTurn(paths, passes, good0, t, k, good, good');
    ExcludedAfterTurn(paths, passes, excluded0, t, k, excluded, excluded');
    FlagsStep(paths, passes, t, k, stepping, valid, sk, vk);
  }

  /** The end of round t is the start of round t + 1. */
  lemma RoundShift(paths: seq<seq<int>>, passes: set<Link>, good0: set<Link>, excluded0: set<Link>,
                   t: int, stepping: seq<bool>, valid: seq<bool>, good: set<Link>, excluded: set<Link>)
    requires RoundState(paths, passes, good0, excluded0, t, |paths|, stepping, valid, good, excluded)
    ensures RoundState(paths, passes, good0, excluded0, t + 1, 0, stepping, valid, good, excluded)
  {
    assert GoodLinks(paths, passes, t, |paths|) == GoodLinks(paths, passes, t + 1, 0);
    assert ExcludedLinks(paths, passes, t, |paths|) == ExcludedLinks(paths, passes, t + 1, 0);
  }

  /** Before the first round every channel is stepping and valid and no
      link has been tried. */
  lemma RoundStart(paths: seq<seq<int>>, passes: set<Link>, good0: set<Link>, excluded0: set<Link>)
    requires forall i :: 0 <= i < |paths| ==> |paths[i]| >= 1
    ensures RoundState(paths, passes, good0, excluded0, 0, |paths|,
                       seq(|paths|, _ => true), seq(|paths|, _ => true), good0, excluded0)
  {
    assert GoodLinks(paths, passes, 0, |paths|) == {};
    assert ExcludedLinks(paths, passes, 0, |paths|) == {};
  }

  /** The longest planned path. */
  function MaxLen(paths: seq<seq<int>>): (m: nat)
    ensures forall i :: 0 <= i < |paths| ==> |paths[i]| <= m
  {
    if |paths| == 0 then 0
    else
      var m := MaxLen(paths[1..]);
      assert forall i :: 1 <= i < |paths| ==> paths[i] == paths[1..][i - 1];
      if |paths[0]| > m then |paths[0]| else m
  }

  /** When no channel is stepping any more, every walk has been tried to
      its end: the link sets are those of the whole walk, and a channel is
      valid exactly when its walk reaches the last chip. */
  lemma RoundsDone(paths: seq<seq<int>>, passes: set<Link>, good0: set<Link>, excluded0: set<Link>,
                   t: int, stepping: seq<bool>, valid: seq<bool>, good: set<Link>, excluded: set<Link>)
    requires RoundState(paths, passes, good0, excluded0, t, |paths|, stepping, valid, good, excluded)
    requires true !in stepping
    ensures good == good0 + WalkedLinks(paths, passes)
    ensures excluded == excluded0 + FailedLinks(paths, passes)
    ensures (false !in valid) <==> forall i :: 0 <= i < |paths| ==> Reach(paths[i], passes) == |paths[i]| - 1
  {
    forall i | 0 <= i < |paths|
      ensures Reach(paths[i], passes) <= t
      ensures Reach(paths[i], passes) < |paths[i]| - 1 ==> Reach(paths[i], passes) + 1 <= t
      ensures valid[i] <==> Reach(paths[i], passes) == |paths[i]| - 1
    {
      assert !stepping[i];
    }
    assert GoodLinks(paths, passes, t, |paths|) == WalkedLinks(paths, passes);
    assert ExcludedLinks(paths, passes, t, |paths|) == FailedLinks(paths, passes);
    if false !in valid {
      forall i | 0 <= i < |paths| ensures Reach(paths[i], passes) == |paths[i]| - 1 {
        assert valid[i];
      }
    }
  }

  /** A channel that is still stepping has rounds left. */
  lemma SteppingBound(paths: seq<seq<int>>, passes: set<Link>, good0: set<Link>, excluded0: set<Link>,
                      t: int, stepping: seq<bool>, valid: seq<bool>, good: set<Link>, excluded: set<Link>)
    requires RoundState(paths, passes, good0, excluded0, t, |paths|, stepping, valid, good, excluded)
    requires true in stepping
    ensures t < MaxLen(paths)
  {
    var i :| 0 <= i < |stepping| && stepping[i];
    assert t < |paths[i]|;
  }

  /** The configuration writes of a hop on the chip it starts from: at the
      root hop the root is reconfigured towards the PACMAN, and then its
      upstream mask is pointed at the next chip. */
  function HopPrev(c: Config, grid: Grid, rootHop: bool, prev: int, next: int): Config
  {
    (if rootHop then c.(chipId := prev, misoDs := grid.rootEnable(prev), misoDiff := Ones) else c)
      .(misoUs := grid.uartEnable(prev, next))
  }

  /** The configuration writes of a hop on the chip it reaches. */
  function HopNext(c: Config, grid: Grid, prev: int, next: int): Config
  {
    c.(chipId := next, misoDs := grid.uartEnable(next, prev), misoDiff := Ones)
  }

  /** The configuration writes of a hop, on the cells its two chips' keys
      refer to; when both keys share a cell it sees both writes. */
  function Reconfigured(cells: seq<Config>, net: map<ChipKey, int>, grid: Grid, roots: seq<int>,
                        ioGroup: int, ioChannel: int, path: seq<int>, s: int): (r: seq<Config>)
    requires 1 <= s < |path|
    requires ChipKey(ioGroup, ioChannel, path[s - 1]) in net && ChipKey(ioGroup, ioChannel, path[s]) in net
    requires 0 <= net[ChipKey(ioGroup, ioChannel, path[s - 1])] < |cells|
    requires 0 <= net[ChipKey(ioGroup, ioChannel, path[s])] < |cells|
    ensures |r| == |cells|
    ensures forall c ::
      (0 <= c < |cells| && c != net[ChipKey(ioGroup, ioChannel, path[s - 1])] &&
       c != net[ChipKey(ioGroup, ioChannel, path[s])]) ==> r[c] == cells[c]
  {
    var p := net[ChipKey(ioGroup, ioChannel, path[s - 1])];
    var q := net[ChipKey(ioGroup, ioChannel, path[s])];
    var mid := cells[p := HopPrev(cells[p], grid, path[s - 1] in roots, path[s - 1], path[s])];
    mid[q := HopNext(mid[q], grid, path[s - 1], path[s])]
  }

  /** How many hops a walk along `path` reconfigures: every hop up to the
      one where it fails, and none past its last chip. */
  function Tried(path: seq<int>, passes: set<Link>): (n: int)
    requires |path| >= 1
    ensures 0 <= n <= |path| - 1 && n <= Reach(path, passes) + 1
    ensures Reach(path, passes) < |path| - 1 ==> n == Reach(path, passes) + 1
  {
    if Reach(path, passes) < |path| - 1 then Reach(path, passes) + 1 else |path| - 1
  }

  /** The hops channel `i` has reconfigured once the channels before `k`
      have had their turn in round `t`. */
  function HopsDone(path: seq<int>, passes: set<Link>, i: int, t: int, k: int): int
    requires |path| >= 1
  {
    if Rounds(i, t, k) < Tried(path, passes) then Rounds(i, t, k) else Tried(path, passes)
  }

  /** The configuration of a walk's j-th chip once its first `h` hops are
      reconfigured: it is written as the chip hop j reaches, and then as
      the chip hop j + 1 starts from. */
  function ChipCell(orig: Config, grid: Grid, roots: seq<int>, path: seq<int>, j: int, h: int): Config
    requires 0 <= j < |path|
  {
    var c := if 1 <= j <= h then HopNext(orig, grid, path[j - 1], path[j]) else orig;
    if j + 1 <= h && j + 1 < |path| then HopPrev(c, grid, path[j] in roots, path[j], path[j + 1]) else c
  }

  /** The key of channel i's j-th chip. */
  function KeyAt(ioGroup: int, ioChannels: seq<int>, paths: seq<seq<int>>, i: int, j: int): ChipKey
    requires 0 <= i < |paths| <= |ioChannels| && 0 <= j < |paths[i]|
  {
    ChipKey(ioGroup, ioChannels[i], paths[i][j])
  }

  /** Channel i's j-th chip is written by the walk: the walk reconfigures
      a hop, and the chip is one of those hops' ends. */
  predicate TouchedAt(paths: seq<seq<int>>, passes: set<Link>, i: int, j: int)
  {
    0 <= i < |paths| && |paths[i]| >= 1 && Tried(paths[i], passes) >= 1 && 0 <= j <= Tried(paths[i], passes)
  }

  /** The cells the walk of the whole network writes. */
  ghost function TouchedCells(net: map<ChipKey, int>, ioGroup: int, ioChannels: seq<int>,
                              paths: seq<seq<int>>, passes: set<Link>): set<int>
    requires |paths| <= |ioChannels|
  {
    set i, j | 0 <= i < |paths| && 0 <= j < |paths[i]| && TouchedAt(paths, passes, i, j) &&
               KeyAt(ioGroup, ioChannels, paths, i, j) in net
      :: net[KeyAt(ioGroup, ioChannels, paths, i, j)]
  }

  /** No two chips the walk writes share a configuration. */
  ghost predicate SeparateHops(net: map<ChipKey, int>, ioGroup: int, ioChannels: seq<int>,
                               paths: seq<seq<int>>, passes: set<Link>)
    requires |paths| <= |ioChannels|
  {
    forall i, j, i', j' ::
      TouchedAt(paths, passes, i, j) && TouchedAt(paths, passes, i', j') && (i != i' || j != j') &&
      KeyAt(ioGroup, ioChannels, paths, i, j) in net && KeyAt(ioGroup, ioChannels, paths, i', j') in net ==>
        net[KeyAt(ioGroup, ioChannels, paths, i, j)] != net[KeyAt(ioGroup, ioChannels, paths, i', j')]
  }

  /** Every key refers to one of `n` cells. */
  ghost predicate Indexes(net: map<ChipKey, int>, n: int)
  {
    forall key :: key in net ==> 0 <= net[key] < n
  }

  /** The configurations in round `t` once the channels before `k` have
      had their turn: a cell no walk writes keeps its configuration, and
      when the written chips share no cell each of them has seen the
      writes of the hops its channel has reconfigured. */
  ghost predicate CellsAt(cells: seq<Config>, cells0: seq<Config>, net: map<ChipKey, int>, grid: Grid, roots: seq<int>,
                          ioGroup: int, ioChannels: seq<int>, paths: seq<seq<int>>, passes: set<Link>, t: int, k: int)
    requires |paths| <= |ioChannels|
  {
    |cells| == |cells0| &&
    (forall c :: 0 <= c < |cells0| && c !in TouchedCells(net, ioGroup, ioChannels, paths, passes) ==> cells[c] == cells0[c]) &&
    (SeparateHops(net, ioGroup, ioChannels, paths, passes) ==>
       forall i, j :: TouchedAt(paths, passes, i, j) && KeyAt(ioGroup, ioChannels, paths, i, j) in net &&
                      0 <= net[KeyAt(ioGroup, ioChannels, paths, i, j)] < |cells0| ==>
         cells[net[KeyAt(ioGroup, ioChannels, paths, i, j)]] ==
         ChipCell(cells0[net[KeyAt(ioGroup, ioChannels, paths, i, j)]], grid, roots, paths[i], j,
                  HopsDone(paths[i], passes, i, t, k)))
  }

  /** A channel's turn reconfigures its hop exactly while that hop is one
      its walk tries. */
  lemma TurnTries(paths: seq<seq<int>>, passes: set<Link>, t: int, k: int, stepping: seq<bool>, valid: seq<bool>)
    requires 0 <= k < |paths| && t >= 1 && FlagsAt(paths, passes, t, k, stepping, valid)
    ensures stepping[k] && valid[k] && t <= |paths[k]| - 1 <==> t <= Tried(paths[k], passes)
  {
  }

  /** Before the first round no cell has been written. */
  lemma CellsStart(cells0: seq<Config>, net: map<ChipKey, int>, grid: Grid, roots: seq<int>,
                   ioGroup: int, ioChannels: seq<int>, paths: seq<seq<int>>, passes: set<Link>)
    requires |paths| <= |ioChannels| && forall i :: 0 <= i < |paths| ==> |paths[i]| >= 1
    ensures CellsAt(cells0, cells0, net, grid, roots, ioGroup, ioChannels, paths, passes, 0, |paths|)
  {
  }

  /** The end of round t is the start of round t + 1. */
  lemma CellsShift(cells: seq<Config>, cells0: seq<Config>, net: map<ChipKey, int>, grid: Grid, roots: seq<int>,
                   ioGroup: int, ioChannels: seq<int>, paths: seq<seq<int>>, passes: set<Link>, t: int)
    requires |paths| <= |ioChannels|
    requires CellsAt(cells, cells0, net, grid, roots, ioGroup, ioChannels, paths, passes, t, |paths|)
    ensures CellsAt(cells, cells0, net, grid, roots, ioGroup, ioChannels, paths, passes, t + 1, 0)
  {
    forall i | 0 <= i < |paths| && |paths[i]| >= 1
      ensures HopsDone(paths[i], passes, i, t + 1, 0) == HopsDone(paths[i], passes, i, t, |paths|)
    {
    }
  }

  /** A chip of channel k other than the two ends of hop t is not written
      by channel k's turn in round t. */
  lemma ChipCellOther(orig: Config, grid: Grid, roots: seq<int>, path: seq<int>, j: int, t: int)
    requires 0 <= j < |path| && j != t - 1 && j != t
    ensures ChipCell(orig, grid, roots, path, j, t - 1) == ChipCell(orig, grid, roots, path, j, t)
  {
  }

  /** Channel k's turn in round t writes its hop's two ends, which then
      have seen one hop more, and nothing else. */
  lemma CellsStep(cells: seq<Config>, cells': seq<Config>, cells0: seq<Config>, net: map<ChipKey, int>, grid: Grid,
                  roots: seq<int>, ioGroup: int, ioChannels: seq<int>, paths: seq<seq<int>>, passes: set<Link>,
                  t: int, k: int)
    requires |paths| <= |ioChannels| && 0 <= k < |paths| && |paths[k]| >= 1 && t >= 1
    requires Indexes(net, |cells0|) && HopKeysPresent(net, ioGroup, ioChannels, paths, passes)
    requires CellsAt(cells, cells0, net, grid, roots, ioGroup, ioChannels, paths, passes, t, k)
    requires t <= Tried(paths[k], passes) ==>
      cells' == Reconfigured(cells, net, grid, roots, ioGroup, ioChannels[k], paths[k], t)
    requires t > Tried(paths[k], passes) ==> cells' == cells
    ensures CellsAt(cells', cells0, net, grid, roots, ioGroup, ioChannels, paths, passes, t, k + 1)
  {
    var T := Tried(paths[k], passes);
    forall i | 0 <= i < |paths| && |paths[i]| >= 1 && i != k
      ensures HopsDone(paths[i], passes, i, t, k + 1) == HopsDone(paths[i], passes, i, t, k)
    {
    }
    if t > T {
      assert HopsDone(paths[k], passes, k, t, k + 1) == HopsDone(paths[k], passes, k, t, k);
      return;
    }
    var kp, kq := KeyAt(ioGroup, ioChannels, paths, k, t - 1), KeyAt(ioGroup, ioChannels, paths, k, t);
    assert TouchedAt(paths, passes, k, t - 1) && TouchedAt(paths, passes, k, t);
    var p, q := net[kp], net[kq];
    var touched := TouchedCells(net, ioGroup, ioChannels, paths, passes);
    assert p in touched && q in touched;
    if SeparateHops(net, ioGroup, ioChannels, paths, passes) {
      assert p != q;
      forall i, j | TouchedAt(paths, passes, i, j) && KeyAt(ioGroup, ioChannels, paths, i, j) in net
        ensures cells'[net[KeyAt(ioGroup, ioChannels, paths, i, j)]] ==
                ChipCell(cells0[net[KeyAt(ioGroup, ioChannels, paths, i, j)]], grid, roots, paths[i], j,
                         HopsDone(paths[i], passes, i, t, k + 1))
      {
        var c := net[KeyAt(ioGroup, ioChannels, paths, i, j)];
        if i == k && j == t - 1 {
          assert c == p;
        } else if i == k && j == t {
          assert c == q;
        } else {
          assert c != p && c != q;
          if i == k {
            ChipCellOther(cells0[c], grid, roots, paths[k], j, t);
          }
        }
      }
    }
  }

  /** When no channel is stepping, every walk has reconfigured all the hops
      it tries. */
  lemma CellsDone(paths: seq<seq<int>>, passes: set<Link>, t: int, stepping: seq<bool>, valid: seq<bool>, i: int)
    requires FlagsAt(paths, passes, t, |paths|, stepping, valid) && true !in stepping && 0 <= i < |paths|
    ensures HopsDone(paths[i], passes, i, t, |paths|) == Tried(paths[i], passes)
  {
    assert !stepping[i];
  }

  /** The writes `test_network` makes before reading back a hop. Two keys
      that share a configuration both see both writes. */
  method ReconfigureHop(ctrl: Controller, grid: Grid, roots: seq<int>, ioGroup: int, ioChannel: int,
                        path: seq<int>, s: int)
    requires ctrl.Valid() && 1 <= s < |path|
    requires ChipKey(ioGroup, ioChannel, path[s - 1]) in ctrl.net && ChipKey(ioGroup, ioChannel, path[s]) in ctrl.net
    modifies ctrl
    ensures ctrl.Valid() && ctrl.net == old(ctrl.net)
    ensures ctrl.cells == Reconfigured(old(ctrl.cells), ctrl.net, grid, roots, ioGroup, ioChannel, path, s)
  {
    var prev := ChipKey(ioGroup, ioChannel, path[s - 1]);
    var next := ChipKey(ioGroup, ioChannel, path[s]);
    if prev.chipId in roots {
      ctrl.Put(prev, ctrl.Get(prev).(chipId := prev.chipId));
      ctrl.Put(prev, ctrl.Get(prev).(misoDs := grid.rootEnable(prev.chipId)));
      ctrl.Put(prev, ctrl.Get(prev).(misoDiff := Ones));
    }
    ctrl.Put(prev, ctrl.Get(prev).(misoUs := grid.uartEnable(prev.chipId, next.chipId)));
    ctrl.Put(next, ctrl.Get(next).(chipId := next.chipId));
    ctrl.Put(next, ctrl.Get(next).(misoDs := grid.uartEnable(next.chipId, prev.chipId)));
    ctrl.Put(next, ctrl.Get(next).(misoDiff := Ones));
  }

  /** One channel's turn in round `t` of `test_network`: a channel that is
      done or invalid is skipped, one that ran past its last chip is marked
      done, and otherwise the hop is reconfigured and, unless it is already
      known good, read back; a failed read-back excludes the link and stops
      the channel for good. `read` tells whether the read-back was issued. */
  method ChannelTurn(ctrl: Controller, arr: Arrangement, grid: Grid, bus: Bus, roots: seq<int>,
                     ioGroup: int, ioChannel: int, path: seq<int>, t: int, stepping: bool, valid: bool)
    returns (stepping': bool, valid': bool, read: bool)
    requires ctrl.Valid() && |path| >= 1 && t >= 1
    requires stepping && valid && t <= |path| - 1 ==>
      ChipKey(ioGroup, ioChannel, path[t - 1]) in ctrl.net && ChipKey(ioGroup, ioChannel, path[t]) in ctrl.net
    modifies ctrl, arr
    ensures ctrl.Valid() && ctrl.net == old(ctrl.net)
    ensures HopOutcome(path, t, bus.linkOk, stepping, valid, old(arr.goodConnections), old(arr.excludedLinks),
                       stepping', valid', arr.goodConnections, arr.excludedLinks)
    ensures read <==> stepping && valid && t <= |path| - 1 && Hop(path, t) !in old(arr.goodConnections)
    ensures stepping && valid && t <= |path| - 1 ==>
      ctrl.cells == Reconfigured(old(ctrl.cells), ctrl.net, grid, roots, ioGroup, ioChannel, path, t)
    ensures !(stepping && valid && t <= |path| - 1) ==> ctrl.cells == old(ctrl.cells)
  {
    stepping', valid', read := stepping, valid, false;
    if !stepping || !valid {
      return;
    }
    if t > |path| - 1 {
      stepping' := false;
      return;
    }
    ReconfigureHop(ctrl, grid, roots, ioGroup, ioChannel, path, t);
    var link := (path[t - 1], path[t]);
    if link in arr.goodConnections {
      return;
    }
    read := true;
    if link in bus.linkOk {
      arr.AddGoodConnection(link);
    } else {
      arr.AddOnesidedExcludedLink(link);
      stepping', valid' := false, false;
    }
  }

  /** The keys `test_network` reads and writes are there: those of every
      chip a walk of two or more chips reaches, and of the chip after it. */
  ghost predicate HopKeysPresent(net: map<ChipKey, int>, ioGroup: int, ioChannels: seq<int>,
                                 paths: seq<seq<int>>, passes: set<Link>)
    requires |paths| <= |ioChannels|
  {
    forall i, j :: 0 <= i < |paths| && |paths[i]| >= 2 && 0 <= j < |paths[i]| && j <= Reach(paths[i], passes) + 1 ==>
      ChipKey(ioGroup, ioChannels[i], paths[i][j]) in net
  }

  /** Channel `k`'s turn in round `t`, on the loop state. */
  method Turn(ctrl: Controller, arr: Arrangement, grid: Grid, bus: Bus, roots: seq<int>,
              ioGroup: int, ioChannels: seq<int>, paths: seq<seq<int>>, t: int, k: int,
              stepping: seq<bool>, valid: seq<bool>, ghost passes: set<Link>,
              ghost good0: set<Link>, ghost excluded0: set<Link>, ghost cells0: seq<Config>)
    returns (stepping': seq<bool>, valid': seq<bool>)
    requires ctrl.Valid() && |paths| <= |ioChannels| && t >= 1 && 0 <= k < |paths| && passes == good0 + bus.linkOk
    requires HopKeysPresent(ctrl.net, ioGroup, ioChannels, paths, passes)
    requires RoundState(paths, passes, good0, excluded0, t, k, stepping, valid, arr.goodConnections, arr.excludedLinks)
    requires CellsAt(ctrl.cells, cells0, ctrl.net, grid, roots, ioGroup, ioChannels, paths, passes, t, k)
    modifies ctrl, arr
    ensures ctrl.Valid() && ctrl.net == old(ctrl.net)
    ensures RoundState(paths, passes, good0, excluded0, t, k + 1, stepping', valid', arr.goodConnections, arr.excludedLinks)
    ensures CellsAt(ctrl.cells, cells0, ctrl.net, grid, roots, ioGroup, ioChannels, paths, passes, t, k + 1)
  {
    ghost var good, excluded, cells := arr.goodConnections, arr.excludedLinks, ctrl.cells;
    TurnTries(paths, passes, t, k, stepping, valid);
    if stepping[k] && valid[k] && t <= |paths[k]| - 1 {
      assert t <= Reach(paths[k], passes) + 1;
    }
    var sk, vk, _ := ChannelTurn(ctrl, arr, grid, bus, roots, ioGroup, ioChannels[k], paths[k], t, stepping[k], valid[k]);
    CellsStep(cells, ctrl.cells, cells0, ctrl.net, grid, roots, ioGroup, ioChannels, paths, passes, t, k);
    RoundStep(paths, passes, bus.linkOk, good0, excluded0, t, k, stepping, valid, good, excluded,
              sk, vk, arr.goodConnections, arr.excludedLinks);
    stepping', valid' := stepping[k := sk], valid[k := vk];
  }

  /** One round of `test_network`'s lockstep loop: each channel in turn. */
  method Round(ctrl: Controller, arr: Arrangement, grid: Grid, bus: Bus, roots: seq<int>,
               ioGroup: int, ioChannels: seq<int>, paths: seq<seq<int>>, t: int,
               stepping: seq<bool>, valid: seq<bool>, ghost passes: set<Link>,
               ghost good0: set<Link>, ghost excluded0: set<Link>, ghost cells0: seq<Config>)
    returns (stepping': seq<bool>, valid': seq<bool>)
    requires ctrl.Valid() && |paths| <= |ioChannels| && t >= 1 && passes == good0 + bus.linkOk
    requires HopKeysPresent(ctrl.net, ioGroup, ioChannels, paths, passes)
    requires RoundState(paths, passes, good0, excluded0, t, 0, stepping, valid, arr.goodConnections, arr.excludedLinks)
    requires CellsAt(ctrl.cells, cells0, ctrl.net, grid, roots, ioGroup, ioChannels, paths, passes, t, 0)
    modifies ctrl, arr
    ensures ctrl.Valid() && ctrl.net == old(ctrl.net)
    ensures RoundState(paths, passes, good0, excluded0, t, |paths|, stepping', valid', arr.goodConnections, arr.excludedLinks)
    ensures CellsAt(ctrl.cells, cells0, ctrl.net, grid, roots, ioGroup, ioChannels, paths, passes, t, |paths|)
  {
    stepping', valid' := stepping, valid;
    ghost var net0 := ctrl.net;
    for k := 0 to |paths|
      invariant ctrl.Valid() && ctrl.net == net0
      invariant RoundState(paths, passes, good0, excluded0, t, k, stepping', valid', arr.goodConnections, arr.excludedLinks)
      invariant CellsAt(ctrl.cells, cells0, ctrl.net, grid, roots, ioGroup, ioChannels, paths, passes, t, k)
    {
      stepping', valid' := Turn(ctrl, arr, grid, bus, roots, ioGroup, ioChannels, paths, t, k, stepping', valid',
                                passes, good0, excluded0, cells0);
    }
  }

  /** `test_network`: walks every planned path again, in lockstep, until no
      channel is stepping. A link passes when it was already known good or
      its read-back succeeds. Afterwards the good links are the old ones
      and every passing hop of each walk up to where it stopped, the
      excluded links gained the failing hop of each walk that failed, and
      the result is true exactly when every walk reached its last chip. */
  method TestNetwork(ctrl: Controller, arr: Arrangement, grid: Grid, bus: Bus,
                     ioGroup: int, ioChannels: seq<int>, paths: seq<seq<int>>)
    returns (allValid: bool)
    requires ctrl.Valid() && |paths| <= |ioChannels|
    requires forall i :: 0 <= i < |paths| ==> |paths[i]| >= 1
    requires HopKeysPresent(ctrl.net, ioGroup, ioChannels, paths, arr.goodConnections + bus.linkOk)
    modifies ctrl, arr
    ensures ctrl.Valid() && ctrl.net == old(ctrl.net)
    ensures arr.goodConnections == old(arr.goodConnections) + WalkedLinks(paths, old(arr.goodConnections) + bus.linkOk)
    ensures arr.excludedLinks == old(arr.excludedLinks) + FailedLinks(paths, old(arr.goodConnections) + bus.linkOk)
    ensures allValid <==> forall i :: 0 <= i < |paths| ==>
      Reach(paths[i], old(arr.goodConnections) + bus.linkOk) == |paths[i]| - 1
    ensures |ctrl.cells| == |old(ctrl.cells)|
    ensures forall c ::
      (0 <= c < |ctrl.cells| &&
       c !in TouchedCells(ctrl.net, ioGroup, ioChannels, paths, old(arr.goodConnections) + bus.linkOk)) ==>
      ctrl.cells[c] == old(ctrl.cells)[c]
    ensures SeparateHops(ctrl.net, ioGroup, ioChannels, paths, old(arr.goodConnections) + bus.linkOk) ==>
      forall i, j :: TouchedAt(paths, old(arr.goodConnections) + bus.linkOk, i, j) ==>
        ctrl.Get(KeyAt(ioGroup, ioChannels, paths, i, j)) ==
        ChipCell(old(ctrl.Get(KeyAt(ioGroup, ioChannels, paths, i, j))), grid, Roots(paths), paths[i], j,
                 Tried(paths[i], old(arr.goodConnections) + bus.linkOk))
  {
    ghost var good0, excluded0, cells0 := arr.goodConnections, arr.excludedLinks, ctrl.cells;
    ghost var passes := good0 + bus.linkOk;
    var roots := Roots(paths);
    var step := 0;
    var stepping := seq(|paths|, _ => true);
    var valid := seq(|paths|, _ => true);
    RoundStart(paths, passes, good0, excluded0);
    CellsStart(cells0, ctrl.net, grid, roots, ioGroup, ioChannels, paths, passes);
    while true in stepping
      invariant ctrl.Valid() && ctrl.net == old(ctrl.net) && step >= 0
      invariant RoundState(paths, passes, good0, excluded0, step, |paths|, stepping, valid, arr.goodConnections, arr.excludedLinks)
      invariant CellsAt(ctrl.cells, cells0, ctrl.net, grid, roots, ioGroup, ioChannels, paths, passes, step, |paths|)
      decreases MaxLen(paths) - step
    {
      SteppingBound(paths, passes, good0, excluded0, step, stepping, valid, arr.goodConnections, arr.excludedLinks);
      RoundShift(paths, passes, good0, excluded0, step, stepping, valid, arr.goodConnections, arr.excludedLinks);
      CellsShift(ctrl.cells, cells0, ctrl.net, grid, roots, ioGroup, ioChannels, paths, passes, step);
      step := step + 1;
      stepping, valid := Round(ctrl, arr, grid, bus, roots, ioGroup, ioChannels, paths, step, stepping, valid,
                               passes, good0, excluded0, cells0);
    }
    RoundsDone(paths, passes, good0, excluded0, step, stepping, valid, arr.goodConnections, arr.excludedLinks);
    forall i | 0 <= i < |paths|
      ensures HopsDone(paths[i], passes, i, step, |paths|) == Tried(paths[i], passes)
    {
      CellsDone(paths, passes, step, stepping, valid, i);
    }
    allValid := false !in valid;
  }
}
