/** The list logic of the iterative trigger-rate run: the initial list of
    forbidden (chip, channel) pairs, the front-end configuration each chip
    is tested with and left in, the pairs appended after each rate cut and
    the grouped list that is saved. */
module TriggerRate {
  import opened Common
  import opened Frontend
  import DecimalCodec

  /** An entry of the `forbidden` list: a key (a chip, or a key of the
      loaded list, which may be 'All') and a channel. */
  type Pair = (ListKey, int)

  // ---------------------------------------------------------------------
  // The initial forbidden list

  /** Every tested chip paired with each non-routed channel, chip after chip. */
  function NonroutedPairs(chips: seq<ChipKey>): (r: seq<Pair>)
    ensures |r| == |chips| * |Nonrouted|
    ensures forall p :: p in r <==> p.0.Chip? && p.0.key in chips && p.1 in Nonrouted
  {
    if chips == [] then []
    else
      var front := NonroutedPairs(chips[..|chips| - 1]);
      var last := chips[|chips| - 1];
      var r := front + seq(|Nonrouted|, j requires 0 <= j < |Nonrouted| => (Chip(last), Nonrouted[j]));
      forall p | p in r
        ensures p.0.Chip? && p.0.key in chips && p.1 in Nonrouted
      {
        if p in front {
          assert p.0.key in chips[..|chips| - 1];
        }
      }
      forall p: Pair | p.0.Chip? && p.0.key in chips && p.1 in Nonrouted
        ensures p in r
      {
        var j :| 0 <= j < |Nonrouted| && Nonrouted[j] == p.1;
        if p.0.key == last {
          assert r[|front| + j] == p;
        } else {
          assert chips == chips[..|chips| - 1] + [last];
          assert p.0.key in chips[..|chips| - 1];
        }
      }
      r
  }

  /** With no list given, the forbidden list is built chip by chip from the
      non-routed channels. */
  method DefaultForbidden(chips: seq<ChipKey>) returns (forbidden: seq<Pair>)
    ensures forbidden == NonroutedPairs(chips)
  {
    forbidden := [];
    for i := 0 to |chips|
      invariant forbidden == NonroutedPairs(chips[..i])
    {
      assert chips[..i + 1][..i] == chips[..i];
      ghost var before := forbidden;
      for j := 0 to |Nonrouted|
        invariant forbidden == before + seq(j, m requires 0 <= m < j => (Chip(chips[i]), Nonrouted[m]))
      {
        forbidden := forbidden + [(Chip(chips[i]), Nonrouted[j])];
      }
    }
    assert chips[..|chips|] == chips;
  }

  /** Every channel of every entry of a loaded list, paired with the entry's
      key, in the list's order. */
  function EntryPairs(d: DisabledList): (r: seq<Pair>)
    ensures forall p :: p in r <==> exists i :: 0 <= i < |d| && d[i].0 == p.0 && p.1 in d[i].1
  {
    if d == [] then []
    else
      var front := EntryPairs(d[..|d| - 1]);
      var last := d[|d| - 1];
      var r := front + seq(|last.1|, j requires 0 <= j < |last.1| => (last.0, last.1[j]));
      forall p | p in r
        ensures exists i :: 0 <= i < |d| && d[i].0 == p.0 && p.1 in d[i].1
      {
        if p !in front {
          assert d[|d| - 1].0 == p.0 && p.1 in d[|d| - 1].1;
        } else {
          var i :| 0 <= i < |d| - 1 && d[..|d| - 1][i].0 == p.0 && p.1 in d[..|d| - 1][i].1;
          assert d[i] == d[..|d| - 1][i];
        }
      }
      forall p: Pair | exists i :: 0 <= i < |d| && d[i].0 == p.0 && p.1 in d[i].1
        ensures p in r
      {
        var i :| 0 <= i < |d| && d[i].0 == p.0 && p.1 in d[i].1;
        if i == |d| - 1 {
          var j :| 0 <= j < |last.1| && last.1[j] == p.1;
          assert r[|front| + j] == p;
        } else {
          assert d[..|d| - 1][i] == d[i];
        }
      }
      r
  }

  /** With a list given, every channel of every entry becomes a forbidden
      pair under the entry's key. */
  method LoadedForbidden(d: DisabledList) returns (forbidden: seq<Pair>)
    ensures forbidden == EntryPairs(d)
  {
    forbidden := [];
    for i := 0 to |d|
      invariant forbidden == EntryPairs(d[..i])
    {
      assert d[..i + 1][..i] == d[..i];
      ghost var before := forbidden;
      var channels := d[i].1;
      for j := 0 to |channels|
        invariant forbidden == before + seq(j, m requires 0 <= m < j => (d[i].0, channels[m]))
      {
        forbidden := forbidden + [(d[i].0, channels[j])];
      }
    }
    assert d[..|d|] == d;
  }

  // ---------------------------------------------------------------------
  // asic_test

  /** Is `ch` switched on while `chip` is tested: routed, and not forbidden
      for that chip? */
  predicate Enabled(chip: ChipKey, ch: int, forbidden: seq<Pair>)
  {
    IsRouted(ch) && (Chip(chip), ch) !in forbidden
  }

  /** The front end a chip is tested with. */
  function Tested(r: Regs, chip: ChipKey, forbidden: seq<Pair>, threshold: int): (r': Regs)
    requires WellFormed(r)
    ensures WellFormed(r') && r'.thresholdGlobal == threshold
    ensures r'.pixelTrim == r.pixelTrim && r'.triggerMask == r.triggerMask
    ensures forall ch :: 0 <= ch < NumChannels && !IsRouted(ch) ==>
              r'.channelMask[ch] == r.channelMask[ch] && r'.csaEnable[ch] == r.csaEnable[ch]
    ensures forall ch :: 0 <= ch < NumChannels && (Chip(chip), ch) in forbidden ==>
              r'.channelMask[ch] == r.channelMask[ch] && r'.csaEnable[ch] == r.csaEnable[ch]
  {
    r.(channelMask := seq(NumChannels, ch requires 0 <= ch < NumChannels =>
                            if Enabled(chip, ch, forbidden) then 0 else r.channelMask[ch]),
       csaEnable := seq(NumChannels, ch requires 0 <= ch < NumChannels =>
                          if Enabled(chip, ch, forbidden) then 1 else r.csaEnable[ch]),
       thresholdGlobal := threshold)
  }

  /** Every routed channel that is not forbidden is unmasked with its CSA on. */
  lemma TestedEnables(r: Regs, chip: ChipKey, forbidden: seq<Pair>, threshold: int, ch: int)
    requires WellFormed(r) && IsRouted(ch) && (Chip(chip), ch) !in forbidden
    ensures Tested(r, chip, forbidden, threshold).channelMask[ch] == 0
    ensures Tested(r, chip, forbidden, threshold).csaEnable[ch] == 1
  {
  }

  /** With the default list every routed channel of a tested chip is on. */
  lemma DefaultEnablesRouted(r: Regs, chips: seq<ChipKey>, chip: ChipKey, threshold: int, ch: int)
    requires WellFormed(r) && IsRouted(ch)
    ensures Tested(r, chip, NonroutedPairs(chips), threshold).channelMask[ch] == 0
    ensures Tested(r, chip, NonroutedPairs(chips), threshold).csaEnable[ch] == 1
  {
    NonroutedRanges(ch);
    TestedEnables(r, chip, NonroutedPairs(chips), threshold, ch);
  }

  /** An 'All' entry of a loaded list never matches a tested chip's pair,
      so it forbids nothing here. */
  lemma AllEntriesIgnored(r: Regs, chip: ChipKey, forbidden: seq<Pair>, ch: int, threshold: int)
    requires WellFormed(r)
    ensures Tested(r, chip, forbidden + [(All, ch)], threshold) == Tested(r, chip, forbidden, threshold)
  {
    forall m | 0 <= m < NumChannels
      ensures Enabled(chip, m, forbidden + [(All, ch)]) == Enabled(chip, m, forbidden)
    {
      assert (Chip(chip), m) in forbidden + [(All, ch)] <==> (Chip(chip), m) in forbidden;
    }
  }

  /** The state a chip is left in after its test: all channels masked, all
      CSAs off and the global threshold at its maximum. */
  function Reset(r: Regs): (r': Regs)
    requires WellFormed(r)
    ensures WellFormed(r')
    ensures forall ch :: 0 <= ch < NumChannels ==> r'.channelMask[ch] == 1 && r'.csaEnable[ch] == 0
    ensures r'.thresholdGlobal == 255
    ensures r'.pixelTrim == r.pixelTrim && r'.triggerMask == r.triggerMask
  {
    r.(channelMask := seq(NumChannels, _ => 1), csaEnable := seq(NumChannels, _ => 0),
       thresholdGlobal := 255)
  }

  /** A test leaves no trace: resetting after it is resetting before it. */
  lemma ResetForgetsTest(r: Regs, chip: ChipKey, forbidden: seq<Pair>, threshold: int)
    requires WellFormed(r)
    ensures Reset(Tested(r, chip, forbidden, threshold)) == Reset(r)
  {
  }

  /** `flags` with `v` at each channel of `done` that is on for `chip`. */
  function Marked(flags: seq<int>, chip: ChipKey, forbidden: seq<Pair>, done: seq<int>, v: int): seq<int>
  {
    seq(|flags|, ch requires 0 <= ch < |flags| =>
          if Enabled(chip, ch, forbidden) && ch in done then v else flags[ch])
  }

  /** Visiting one more routed channel marks it unless it is forbidden. */
  lemma MarkedStep(flags: seq<int>, chip: ChipKey, forbidden: seq<Pair>, channels: seq<int>, i: int, v: int)
    requires 0 <= i < |channels| && IsRouted(channels[i]) && |flags| == NumChannels
    ensures Marked(flags, chip, forbidden, channels[..i + 1], v) ==
            if (Chip(chip), channels[i]) in forbidden then Marked(flags, chip, forbidden, channels[..i], v)
            else Marked(flags, chip, forbidden, channels[..i], v)[channels[i] := v]
  {
    assert channels[..i + 1] == channels[..i] + [channels[i]];
  }

  /** Visiting every routed channel marks exactly the enabled ones. */
  lemma MarkedRouted(r: Regs, chip: ChipKey, forbidden: seq<Pair>, threshold: int)
    requires WellFormed(r)
    ensures Marked(r.channelMask, chip, forbidden, Routed(), 0) == Tested(r, chip, forbidden, threshold).channelMask
    ensures Marked(r.csaEnable, chip, forbidden, Routed(), 1) == Tested(r, chip, forbidden, threshold).csaEnable
  {
  }

  /** The channel loop of one chip's test over the routed channels
      `channels`: unmask each channel and switch its CSA on, skipping the
      forbidden ones. */
  method TestChannels(r: Regs, chip: ChipKey, forbidden: seq<Pair>, channels: seq<int>)
    returns (mask: seq<int>, csa: seq<int>)
    requires WellFormed(r) && forall i :: 0 <= i < |channels| ==> IsRouted(channels[i])
    ensures mask == Marked(r.channelMask, chip, forbidden, channels, 0)
    ensures csa == Marked(r.csaEnable, chip, forbidden, channels, 1)
  {
    mask := r.channelMask;
    csa := r.csaEnable;
    for i := 0 to |channels|
      invariant mask == Marked(r.channelMask, chip, forbidden, channels[..i], 0)
      invariant csa == Marked(r.csaEnable, chip, forbidden, channels[..i], 1)
    {
      var channel := channels[i];
      MarkedStep(r.channelMask, chip, forbidden, channels, i, 0);
      MarkedStep(r.csaEnable, chip, forbidden, channels, i, 1);
      if (Chip(chip), channel) in forbidden {
        continue;
      }
      mask := mask[channel := 0];
      csa := csa[channel := 1];
    }
    assert channels[..|channels|] == channels;
  }

  /** One chip's test: the channel loop over the routed channels, then the
      threshold. */
  method TestChip(r: Regs, chip: ChipKey, forbidden: seq<Pair>, threshold: int) returns (r': Regs)
    requires WellFormed(r)
    ensures r' == Tested(r, chip, forbidden, threshold)
  {
    var channels := Routed();
    var mask, csa := TestChannels(r, chip, forbidden, channels);
    MarkedRouted(r, chip, forbidden, threshold);
    r' := r.(channelMask := mask, csaEnable := csa, thresholdGlobal := threshold);
  }

  /** The chips tested so far are reset, the others untouched. */
  ghost predicate TestedSoFar(regs: map<ChipKey, Regs>, regs0: map<ChipKey, Regs>, done: seq<ChipKey>)
  {
    (forall k :: k in regs <==> k in regs0) &&
    forall k :: k in regs ==>
      WellFormed(regs0[k]) && regs[k] == if k in done then Reset(regs0[k]) else regs0[k]
  }

  /** Testing one more chip resets it and nothing else. */
  lemma TestedStep(regs: map<ChipKey, Regs>, regs0: map<ChipKey, Regs>, chips: seq<ChipKey>, i: int)
    requires 0 <= i < |chips| && chips[i] !in chips[..i] && chips[i] in regs0
    requires TestedSoFar(regs, regs0, chips[..i])
    ensures TestedSoFar(regs[chips[i] := Reset(regs0[chips[i]])], regs0, chips[..i + 1])
  {
    assert chips[..i + 1] == chips[..i] + [chips[i]];
  }

  /** `asic_test`: each chip in turn is configured for its test, which is
      recorded in `written` (the configuration written before data taking),
      and then reset. */
  method AsicTest(fe: Chips, chips: seq<ChipKey>, forbidden: seq<Pair>, threshold: int)
    returns (written: seq<Regs>)
    requires fe.Valid() && Distinct(chips)
    requires forall i :: 0 <= i < |chips| ==> chips[i] in fe.regs
    modifies fe
    ensures fe.Valid() && fe.order == old(fe.order)
    ensures |written| == |chips|
    ensures forall i :: 0 <= i < |chips| ==>
              written[i] == Tested(old(fe.regs)[chips[i]], chips[i], forbidden, threshold)
    ensures TestedSoFar(fe.regs, old(fe.regs), chips)
  {
    ghost var regs0 := fe.regs;
    written := [];
    for i := 0 to |chips|
      invariant fe.order == old(fe.order) && fe.Valid()
      invariant |written| == i
      invariant forall m :: 0 <= m < i ==>
                  written[m] == Tested(regs0[chips[m]], chips[m], forbidden, threshold)
      invariant TestedSoFar(fe.regs, regs0, chips[..i])
    {
      var chip := chips[i];
      ghost var before := fe.regs;
      assert chip !in chips[..i];
      var t := TestChip(fe.regs[chip], chip, forbidden, threshold);
      fe.regs := fe.regs[chip := t];
      written := written + [t];
      fe.regs := fe.regs[chip := Reset(fe.regs[chip])];
      ResetForgetsTest(regs0[chip], chip, forbidden, threshold);
      TestedStep(before, regs0, chips, i);
    }
    assert chips[..|chips|] == chips;
  }

  // ---------------------------------------------------------------------
  // evaluate_rate

  /** `s` with each element of `ps` appended unless already present, in turn. */
  function AppendAbsent<T(==)>(s: seq<T>, ps: seq<T>): (r: seq<T>)
    ensures |s| <= |r| && r[..|s|] == s
    ensures forall p :: p in ps ==> p in r
    ensures forall p :: p in r ==> p in s || p in ps
    ensures Distinct(s) ==> Distinct(r)
  {
    if ps == [] then s
    else
      var front := AppendAbsent(s, ps[..|ps| - 1]);
      var last := ps[|ps| - 1];
      assert ps == ps[..|ps| - 1] + [last];
      if last in front then front else front + [last]
  }

  /** Appending what is all present already changes nothing. */
  lemma {:induction false} AppendPresent<T>(s: seq<T>, ps: seq<T>)
    requires forall p :: p in ps ==> p in s
    ensures AppendAbsent(s, ps) == s
  {
    if ps != [] {
      assert forall p :: p in ps[..|ps| - 1] ==> p in ps;
      AppendPresent(s, ps[..|ps| - 1]);
    }
  }

  /** Evaluating the same flagged channels twice adds nothing the second time. */
  lemma AppendAbsentIdempotent<T>(s: seq<T>, ps: seq<T>)
    ensures AppendAbsent(AppendAbsent(s, ps), ps) == AppendAbsent(s, ps)
  {
    AppendPresent(AppendAbsent(s, ps), ps);
  }

  /** The pair a channel's unique id stands for: the chip's key string and
      the channel. */
  function PairOf(unique: int): Pair
  {
    (Chip(DecimalCodec.ChipKeyOf(unique)), DecimalCodec.ChannelIdOf(unique))
  }

  /** Decoding an in-range unique id gives back the chip and channel. */
  lemma PairOfUnique(ioGroup: int, ioChannel: int, chipId: int, channelId: int)
    requires DecimalCodec.InRange(ioGroup, ioChannel, chipId, channelId)
    ensures PairOf(DecimalCodec.UniqueChannelId(ioGroup, ioChannel, chipId, channelId))
            == (Chip(ChipKey(ioGroup, ioChannel, chipId)), channelId)
  {
    DecimalCodec.RoundTrip(ioGroup, ioChannel, chipId, channelId);
  }

  /** The pairs of the flagged unique ids, in order. */
  function FlaggedPairs(flagged: seq<int>): seq<Pair>
  {
    seq(|flagged|, i requires 0 <= i < |flagged| => PairOf(flagged[i]))
  }

  /** `evaluate_rate`: the pair of each flagged channel (one whose rate is
      above the cut, in increasing unique id) is appended to `forbidden`
      unless already present. */
  method EvaluateRate(forbidden: seq<Pair>, flagged: seq<int>) returns (forbidden': seq<Pair>)
    ensures forbidden' == AppendAbsent(forbidden, FlaggedPairs(flagged))
  {
    forbidden' := forbidden;
    for i := 0 to |flagged|
      invariant forbidden' == AppendAbsent(forbidden, FlaggedPairs(flagged[..i]))
    {
      var pair := PairOf(flagged[i]);
      assert FlaggedPairs(flagged[..i + 1]) == FlaggedPairs(flagged[..i]) + [pair];
      if pair !in forbidden' {
        forbidden' := forbidden' + [pair];
      }
    }
    assert flagged[..|flagged|] == flagged;
  }

  // ---------------------------------------------------------------------
  // save_do_not_enable_list

  /** The channels of the pairs under key `k`, in list order. */
  function ChannelsOf(forbidden: seq<Pair>, k: ListKey): seq<int>
  {
    if forbidden == [] then []
    else
      var last := forbidden[|forbidden| - 1];
      ChannelsOf(forbidden[..|forbidden| - 1], k) + if last.0 == k then [last.1] else []
  }

  /** The channels under `k` are those paired with `k`. */
  lemma {:induction false} ChannelsOfHas(forbidden: seq<Pair>, k: ListKey, ch: int)
    ensures ch in ChannelsOf(forbidden, k) <==> (k, ch) in forbidden
  {
    if forbidden != [] {
      var front := forbidden[..|forbidden| - 1];
      ChannelsOfHas(front, k, ch);
      assert forbidden == front + [forbidden[|forbidden| - 1]];
    }
  }

  /** The keys of the pairs. */
  function KeysOf(forbidden: seq<Pair>): set<ListKey>
  {
    if forbidden == [] then {}
    else KeysOf(forbidden[..|forbidden| - 1]) + {forbidden[|forbidden| - 1].0}
  }

  /** A key is among the keys when some pair carries it. */
  lemma {:induction false} KeysOfHas(forbidden: seq<Pair>, k: ListKey)
    ensures k in KeysOf(forbidden) <==> exists ch :: (k, ch) in forbidden
  {
    if forbidden != [] {
      var front := forbidden[..|forbidden| - 1];
      var last := forbidden[|forbidden| - 1];
      KeysOfHas(front, k);
      assert forbidden == front + [last];
      if k in KeysOf(forbidden) {
        if k == last.0 {
          assert (k, last.1) in forbidden;
        } else {
          var ch :| (k, ch) in front;
          assert (k, ch) in forbidden;
        }
      }
      if exists ch :: (k, ch) in forbidden {
        var ch :| (k, ch) in forbidden;
        if k != last.0 {
          assert (k, ch) in front;
        }
      }
    }
  }

  /** No channels are listed under a key no pair carries. */
  lemma {:induction false} ChannelsOfAbsent(forbidden: seq<Pair>, k: ListKey)
    requires k !in KeysOf(forbidden)
    ensures ChannelsOf(forbidden, k) == []
  {
    if forbidden != [] {
      ChannelsOfAbsent(forbidden[..|forbidden| - 1], k);
    }
  }

  /** The saved lists as the grouping loop builds them, pair after pair: the
      pair's key gets a list if it has none, and the pair's channel is
      appended to it unless already listed. */
  function Grouped(forbidden: seq<Pair>): map<ListKey, seq<int>>
  {
    if forbidden == [] then map[]
    else
      var g := Grouped(forbidden[..|forbidden| - 1]);
      var p := forbidden[|forbidden| - 1];
      var chs := Get(g, p.0);
      g[p.0 := if p.1 in chs then chs else chs + [p.1]]
  }

  /** The channels under `p`'s key after one more pair `p`. */
  lemma ChannelsOfSnoc(forbidden: seq<Pair>, p: Pair)
    ensures ChannelsOf(forbidden + [p], p.0) == ChannelsOf(forbidden, p.0) + [p.1]
  {
    assert (forbidden + [p])[..|forbidden|] == forbidden;
  }

  /** A pair under another key leaves the channels under `k` alone. */
  lemma ChannelsOfOther(forbidden: seq<Pair>, p: Pair, k: ListKey)
    requires p.0 != k
    ensures ChannelsOf(forbidden + [p], k) == ChannelsOf(forbidden, k)
  {
    var f := forbidden + [p];
    assert f[..|forbidden|] == forbidden;
    assert ChannelsOf(f, k) == ChannelsOf(forbidden, k) + [];
  }

  /** One more element, appended unless present. */
  lemma AppendAbsentSnoc<T>(s: seq<T>, ps: seq<T>, x: T)
    ensures AppendAbsent(s, ps + [x]) ==
            if x in AppendAbsent(s, ps) then AppendAbsent(s, ps) else AppendAbsent(s, ps) + [x]
  {
    assert (ps + [x])[..|ps|] == ps;
  }

  /** The saved lists have exactly the keys of the pairs. */
  lemma {:induction false} GroupedKeys(forbidden: seq<Pair>)
    ensures Grouped(forbidden).Keys == KeysOf(forbidden)
  {
    if forbidden != [] {
      GroupedKeys(forbidden[..|forbidden| - 1]);
    }
  }

  /** Each key's saved list is the channels under the key, in list order,
      with repeats dropped. */
  lemma {:induction false} GroupedAt(forbidden: seq<Pair>, k: ListKey)
    ensures Get(Grouped(forbidden), k) == AppendAbsent([], ChannelsOf(forbidden, k))
  {
    if forbidden != [] {
      var front := forbidden[..|forbidden| - 1];
      var p := forbidden[|forbidden| - 1];
      assert forbidden == front + [p];
      GroupedAt(front, k);
      if p.0 == k {
        ChannelsOfSnoc(front, p);
        AppendAbsentSnoc([], ChannelsOf(front, k), p.1);
      } else {
        ChannelsOfOther(front, p, k);
      }
    }
  }

  /** Each forbidden pair's channel is listed exactly once under its key,
      and nothing else is listed. */
  lemma GroupedOnce(forbidden: seq<Pair>, k: ListKey, ch: int)
    ensures k in Grouped(forbidden) <==> exists c :: (k, c) in forbidden
    ensures k in Grouped(forbidden) ==>
              Distinct(Grouped(forbidden)[k]) && (ch in Grouped(forbidden)[k] <==> (k, ch) in forbidden)
  {
    GroupedKeys(forbidden);
    KeysOfHas(forbidden, k);
    GroupedAt(forbidden, k);
    ChannelsOfHas(forbidden, k, ch);
  }

  /** One pass of the grouping loop: the key's list is created when missing
      and the channel appended when not yet listed. */
  method GroupNext(d: map<ListKey, seq<int>>, p: Pair) returns (d': map<ListKey, seq<int>>)
    ensures var chs := Get(d, p.0);
            d' == d[p.0 := if p.1 in chs then chs else chs + [p.1]]
  {
    d' := d;
    if p.0 !in d' {
      d' := d'[p.0 := []];
    }
    if p.1 !in d'[p.0] {
      d' := d'[p.0 := d'[p.0] + [p.1]];
    }
  }

  /** `save_do_not_enable_list`: the pairs grouped by key (the key's
      string), each channel listed once. */
  method SaveDoNotEnable(forbidden: seq<Pair>) returns (d: map<ListKey, seq<int>>)
    ensures d == Grouped(forbidden)
  {
    d := map[];
    for i := 0 to |forbidden|
      invariant d == Grouped(forbidden[..i])
    {
      assert forbidden[..i + 1][..i] == forbidden[..i];
      d := GroupNext(d, forbidden[i]);
    }
    assert forbidden[..|forbidden|] == forbidden;
  }
}
