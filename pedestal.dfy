/** The list logic of the pedestal run: the front end it configures from a
    disabled-channel list, when its two enforcement checks give up, and
    how it merges the channels it flags into the list it saves. */
module Pedestal {
  import opened Common
  import opened Frontend
  import DecimalCodec

  // ---------------------------------------------------------------------
  // configure_pedestal

  /** `flags` with every channel the entries of `d` list for `chip`
      overwritten by `v`, entry after entry. */
  method MarkListed(flags: seq<int>, d: DisabledList, chip: ChipKey, v: int) returns (flags': seq<int>)
    requires |flags| == NumChannels && ValidChannelsIn(d)
    ensures flags' == Overwrite(flags, Listed(d, chip), v)
  {
    flags' := flags;
    for j := 0 to |d|
      invariant flags' == Overwrite(flags, Listed(d[..j], chip), v)
    {
      assert d[..j + 1][..j] == d[..j];
      if AppliesTo(d[j].0, chip) {
        var chs := d[j].1;
        for m := 0 to |chs|
          invariant flags' == Overwrite(flags, Listed(d[..j], chip) + chs[..m], v)
        {
          assert chs[..m + 1] == chs[..m] + [chs[m]];
          assert Listed(d[..j], chip) + chs[..m + 1] == Listed(d[..j], chip) + chs[..m] + [chs[m]];
          OverwriteStep(flags, Listed(d[..j], chip) + chs[..m], chs[m], v);
          flags' := flags'[chs[m] := v];
        }
        assert chs[..|chs|] == chs;
      }
    }
    assert d[..|d|] == d;
  }

  /** The trigger and reset pass for one chip: every CSA on, then the
      listed channels' CSAs off. */
  method CsaChip(r: Regs, d: DisabledList, chip: ChipKey) returns (r': Regs)
    requires WellFormed(r) && ValidChannelsIn(d)
    ensures r' == r.(csaEnable := Flags(Listed(d, chip), 0, 1))
  {
    var csa := MarkListed(seq(NumChannels, _ => 1), d, chip, 0);
    FlagsAsOverwrite(Listed(d, chip), 0, 1);
    r' := r.(csaEnable := csa);
  }

  /** The mask pass for one chip: every channel unmasked and out of the
      periodic trigger, then the listed channels masked and in it. */
  method MaskChip(r: Regs, d: DisabledList, chip: ChipKey) returns (r': Regs)
    requires WellFormed(r) && ValidChannelsIn(d)
    ensures r' == r.(channelMask := Flags(Listed(d, chip), 1, 0), triggerMask := Flags(Listed(d, chip), 1, 0))
  {
    var trigger := seq(NumChannels, _ => 0);
    var mask := seq(NumChannels, _ => 0);
    for j := 0 to |d|
      invariant trigger == Overwrite(seq(NumChannels, _ => 0), Listed(d[..j], chip), 1)
      invariant mask == trigger
    {
      assert d[..j + 1][..j] == d[..j];
      if AppliesTo(d[j].0, chip) {
        var chs := d[j].1;
        for m := 0 to |chs|
          invariant trigger == Overwrite(seq(NumChannels, _ => 0), Listed(d[..j], chip) + chs[..m], 1)
          invariant mask == trigger
        {
          assert chs[..m + 1] == chs[..m] + [chs[m]];
          assert Listed(d[..j], chip) + chs[..m + 1] == Listed(d[..j], chip) + chs[..m] + [chs[m]];
          OverwriteStep(seq(NumChannels, _ => 0), Listed(d[..j], chip) + chs[..m], chs[m], 1);
          trigger := trigger[chs[m] := 1];
          mask := mask[chs[m] := 1];
        }
        assert chs[..|chs|] == chs;
      }
    }
    assert d[..|d|] == d;
    FlagsAsOverwrite(Listed(d, chip), 1, 0);
    r' := r.(channelMask := mask, triggerMask := trigger);
  }

  /** The registers once the chips of `done` went through `CsaChip` (when
      `csa`) or `MaskChip`. */
  ghost predicate PassDone(regs: map<ChipKey, Regs>, regs0: map<ChipKey, Regs>, d: DisabledList,
                           csa: bool, done: set<ChipKey>)
  {
    regs.Keys == regs0.Keys &&
    forall k :: k in regs ==>
      regs[k] == if k !in done then regs0[k]
                 else if csa then regs0[k].(csaEnable := Flags(Listed(d, k), 0, 1))
                 else regs0[k].(channelMask := Flags(Listed(d, k), 1, 0), triggerMask := Flags(Listed(d, k), 1, 0))
  }

  /** One chip of a pass over `reversed(c.chips.items())`. */
  method PassNext(fe: Chips, i: int, d: DisabledList, csa: bool, ghost regs0: map<ChipKey, Regs>, ghost done: set<ChipKey>)
    returns (ghost done': set<ChipKey>)
    requires fe.Valid() && 0 <= i < |fe.order| && ValidChannelsIn(d)
    requires (forall k :: k in done <==> k in fe.order[|fe.order| - i..]) && PassDone(fe.regs, regs0, d, csa, done)
    modifies fe
    ensures fe.Valid() && fe.order == old(fe.order)
    ensures (forall k :: k in done' <==> k in fe.order[|fe.order| - (i + 1)..]) && PassDone(fe.regs, regs0, d, csa, done')
  {
    var n := |fe.order|;
    var chip := fe.order[n - 1 - i];
    assert fe.order[n - (i + 1)..] == [chip] + fe.order[n - i..];
    assert chip !in fe.order[n - i..];
    var r;
    if csa {
      r := CsaChip(fe.regs[chip], d, chip);
    } else {
      r := MaskChip(fe.regs[chip], d, chip);
    }
    PassStep(fe.regs, regs0, d, csa, done, chip, r);
    fe.Set(chip, r);
    done' := done + {chip};
  }

  /** Visiting one more chip keeps `PassDone`. */
  lemma PassStep(regs: map<ChipKey, Regs>, regs0: map<ChipKey, Regs>, d: DisabledList, csa: bool,
                 done: set<ChipKey>, chip: ChipKey, r: Regs)
    requires PassDone(regs, regs0, d, csa, done) && chip in regs && chip !in done
    requires r == if csa then regs[chip].(csaEnable := Flags(Listed(d, chip), 0, 1))
                  else regs[chip].(channelMask := Flags(Listed(d, chip), 1, 0), triggerMask := Flags(Listed(d, chip), 1, 0))
    ensures PassDone(regs[chip := r], regs0, d, csa, done + {chip})
  {
    forall k | k in regs[chip := r] && k != chip
      ensures regs[chip := r][k] == regs[k]
    {
    }
  }

  /** A pass over the chips in reverse insertion order. */
  method Pass(fe: Chips, d: DisabledList, csa: bool)
    requires fe.Valid() && ValidChannelsIn(d)
    modifies fe
    ensures fe.Valid() && fe.order == old(fe.order)
    ensures PassDone(fe.regs, old(fe.regs), d, csa, set k | k in fe.regs)
  {
    ghost var regs0 := fe.regs;
    ghost var done: set<ChipKey> := {};
    for i := 0 to |fe.order|
      invariant fe.Valid() && fe.order == old(fe.order)
      invariant (forall k :: k in done <==> k in fe.order[|fe.order| - i..]) && PassDone(fe.regs, regs0, d, csa, done)
    {
      done := PassNext(fe, i, d, csa, regs0, done);
    }
    assert fe.order[0..] == fe.order;
    assert done == set k | k in fe.regs;
  }

  /** The first enforcement's test: some register outside the CSA enables
      differs on a chip whose id is not 12. */
  function FirstRaises(diff: Diff): (r: bool)
    ensures r <==> exists i, j ::
      0 <= i < |diff| && 0 <= j < |diff[i].1| && !IsCsaRegister(diff[i].1[j]) && diff[i].0.chipId != 12
  {
    if diff == [] then false
    else
      var r := FirstRaises(diff[1..]);
      assert forall i :: 1 <= i < |diff| ==> diff[1..][i - 1] == diff[i];
      (diff[0].0.chipId != 12 && exists j :: 0 <= j < |diff[0].1| && !IsCsaRegister(diff[0].1[j])) || r
  }

  /** The second enforcement's test: some differing chip's id is not 12. */
  function SecondRaises(diff: Diff): (r: bool)
    ensures r <==> exists i :: 0 <= i < |diff| && diff[i].0.chipId != 12
  {
    if diff == [] then false
    else
      var r := SecondRaises(diff[1..]);
      assert forall i :: 1 <= i < |diff| ==> diff[1..][i - 1] == diff[i];
      diff[0].0.chipId != 12 || r
  }

  /** Differences confined to the CSA enables, or to chip 12, never stop
      the first enforcement. */
  lemma CsaDiffsTolerated(diff: Diff)
    requires forall i, j :: 0 <= i < |diff| && 0 <= j < |diff[i].1| ==>
      IsCsaRegister(diff[i].1[j]) || diff[i].0.chipId == 12
    ensures !FirstRaises(diff)
  {
  }

  /** `configure_pedestal`: the CSAs of the listed channels off and all
      others on, then (unless the first enforcement gives up) the listed
      channels masked and in the periodic trigger and all others not. The
      enforcement results `ok1`/`diff1` and `ok2`/`diff2` come from the
      controller. Returns whether an enforcement raised. */
  method ConfigurePedestal(fe: Chips, d: DisabledList, ok1: bool, diff1: Diff, ok2: bool, diff2: Diff)
    returns (raised: bool)
    requires fe.Valid() && ValidChannelsIn(d)
    modifies fe
    ensures fe.Valid() && fe.order == old(fe.order) && fe.regs.Keys == old(fe.regs.Keys)
    ensures raised <==> (!ok1 && FirstRaises(diff1)) || (!ok2 && SecondRaises(diff2))
    ensures forall k :: k in fe.regs ==> fe.regs[k].csaEnable == Flags(Listed(d, k), 0, 1)
    ensures forall k :: k in fe.regs ==>
      fe.regs[k].pixelTrim == old(fe.regs[k]).pixelTrim && fe.regs[k].thresholdGlobal == old(fe.regs[k]).thresholdGlobal
    ensures forall k :: k in fe.regs ==>
      if !ok1 && FirstRaises(diff1) then
        fe.regs[k].channelMask == old(fe.regs[k]).channelMask && fe.regs[k].triggerMask == old(fe.regs[k]).triggerMask
      else
        fe.regs[k].channelMask == Flags(Listed(d, k), 1, 0) && fe.regs[k].triggerMask == Flags(Listed(d, k), 1, 0)
  {
    Pass(fe, d, true);
    if !ok1 && FirstRaises(diff1) {
      return true;
    }
    Pass(fe, d, false);
    raised := !ok2 && SecondRaises(diff2);
  }

  // ---------------------------------------------------------------------
  // evaluate_pedestal

  /** The string a disabled-list key stands for in JSON. */
  function ListKeyString(k: ListKey): string
  {
    match k
    case All => "All"
    case Chip(c) => KeyString(c)
  }

  /** Different list keys are different strings, for keys with
      non-negative fields. */
  lemma ListKeyStringInjective(a: ListKey, b: ListKey)
    requires a.Chip? ==> NonNegativeKey(a.key)
    requires b.Chip? ==> NonNegativeKey(b.key)
    requires ListKeyString(a) == ListKeyString(b)
    ensures a == b
  {
    SplitWhole("All", '-');
    if a.Chip? {
      KeyStringRoundTrip(a.key);
    }
    if b.Chip? {
      KeyStringRoundTrip(b.key);
    }
  }

  /** The record's key for a flagged identifier: its chip. */
  function FlaggedKey(unique: int): ListKey
  {
    Chip(DecimalCodec.ChipKeyOf(unique))
  }

  /** The channels of the flagged identifiers on the chip `k` names, in the
      order the loop visits them. */
  function FlaggedFor(flagged: seq<int>, k: ListKey): seq<int>
  {
    if flagged == [] then []
    else
      var u := flagged[|flagged| - 1];
      FlaggedFor(flagged[..|flagged| - 1], k) + (if FlaggedKey(u) == k then [DecimalCodec.ChannelIdOf(u)] else [])
  }

  /** A channel is listed under a chip exactly when some flagged identifier
      of that chip carries it. */
  lemma {:induction false} FlaggedForHas(flagged: seq<int>, k: ListKey, ch: int)
    ensures ch in FlaggedFor(flagged, k) <==>
      exists i :: 0 <= i < |flagged| && FlaggedKey(flagged[i]) == k && DecimalCodec.ChannelIdOf(flagged[i]) == ch
  {
    if flagged != [] {
      var front := flagged[..|flagged| - 1];
      FlaggedForHas(front, k, ch);
      if exists i :: 0 <= i < |flagged| && FlaggedKey(flagged[i]) == k && DecimalCodec.ChannelIdOf(flagged[i]) == ch {
        var i :| 0 <= i < |flagged| && FlaggedKey(flagged[i]) == k && DecimalCodec.ChannelIdOf(flagged[i]) == ch;
        if i < |flagged| - 1 {
          assert front[i] == flagged[i];
        }
      }
    }
  }

  /** What the flagged loop leaves under a key. When a larpix key tests as
      present in the string-keyed record (`keysMatch`), each further channel
      of the chip resets the entry, so only the last one stays. */
  function Kept(flagged: seq<int>, k: ListKey, keysMatch: bool): seq<int>
  {
    var all := FlaggedFor(flagged, k);
    if keysMatch && all != [] then [all[|all| - 1]] else all
  }

  /** The input channels appended under a key: those of every entry with
      that key. */
  function InputFor(d: DisabledList, k: ListKey): seq<int>
  {
    if d == [] then []
    else InputFor(d[..|d| - 1], k) + (if d[|d| - 1].0 == k then d[|d| - 1].1 else [])
  }

  /** With distinct keys (a dictionary's), an input entry's channels are
      exactly what is appended under its key, and nothing is appended under
      a key the input does not have. */
  lemma {:induction false} InputForEntry(d: DisabledList, k: ListKey)
    requires DistinctKeys(d)
    ensures InputFor(d, k) == match Lookup(d, k) case Some(chs) => chs case None => []
  {
    if d != [] {
      var front := d[..|d| - 1];
      assert forall j :: 0 <= j < |front| ==> front[j] == d[j];
      InputForEntry(front, k);
      if d[|d| - 1].0 == k {
        assert InputFor(front, k) == [] by {
          LookupAbsent(front, k);
        }
        assert Lookup(d, k) == Some(d[|d| - 1].1) by {
          LookupLast(d, k);
        }
      } else {
        assert Lookup(d, k) == Lookup(front, k) by {
          LookupFront(d, k);
        }
      }
    }
  }

  /** Nothing is appended under a key no entry has. */
  lemma {:induction false} InputForNone(d: DisabledList, k: ListKey)
    requires forall j :: 0 <= j < |d| ==> d[j].0 != k
    ensures InputFor(d, k) == []
  {
    if d != [] {
      var front := d[..|d| - 1];
      assert forall j :: 0 <= j < |front| ==> front[j] == d[j];
      InputForNone(front, k);
    }
  }

  /** A key no entry has is not found. */
  lemma LookupAbsent(d: DisabledList, k: ListKey)
    requires forall j :: 0 <= j < |d| ==> d[j].0 != k
    ensures Lookup(d, k) == None
  {
  }

  /** With distinct keys, the last entry's key finds the last entry. */
  lemma {:induction false} LookupLast(d: DisabledList, k: ListKey)
    requires DistinctKeys(d) && d != [] && d[|d| - 1].0 == k
    ensures Lookup(d, k) == Some(d[|d| - 1].1)
  {
    if d[0].0 != k {
      assert forall j :: 0 <= j < |d| - 1 ==> d[1..][j] == d[j + 1];
      LookupLast(d[1..], k);
    }
  }

  /** A key other than the last entry's is found among the others. */
  lemma {:induction false} LookupFront(d: DisabledList, k: ListKey)
    requires d != [] && d[|d| - 1].0 != k
    ensures Lookup(d, k) == Lookup(d[..|d| - 1], k)
  {
    if d[0].0 != k && |d| > 1 {
      assert d[1..][..|d| - 2] == d[..|d| - 1][1..];
      LookupFront(d[1..], k);
    }
  }

  /** The record after the flagged loop over `flagged`. */
  ghost predicate FlaggedDone(record: map<ListKey, seq<int>>, flagged: seq<int>, keysMatch: bool)
  {
    (forall k :: k in record <==> FlaggedFor(flagged, k) != []) &&
    forall k :: k in record ==> record[k] == Kept(flagged, k, keysMatch)
  }

  /** One flagged identifier: its channel goes under its chip. */
  lemma FlaggedStep(record: map<ListKey, seq<int>>, flagged: seq<int>, j: int, keysMatch: bool, record': map<ListKey, seq<int>>)
    requires 0 <= j < |flagged| && FlaggedDone(record, flagged[..j], keysMatch)
    requires var k := FlaggedKey(flagged[j]);
      record' == record[k := (if keysMatch && k in record then [] else Get(record, k)) + [DecimalCodec.ChannelIdOf(flagged[j])]]
    ensures FlaggedDone(record', flagged[..j + 1], keysMatch)
  {
    var key := FlaggedKey(flagged[j]);
    forall k
      ensures FlaggedFor(flagged[..j + 1], k) ==
        FlaggedFor(flagged[..j], k) + (if k == key then [DecimalCodec.ChannelIdOf(flagged[j])] else [])
    {
      FlaggedForSnoc(flagged, j, k);
    }
    forall k | k in record'
      ensures record'[k] == Kept(flagged[..j + 1], k, keysMatch)
    {
      if k == key {
        KeptSnoc(record, flagged[..j], k, keysMatch, DecimalCodec.ChannelIdOf(flagged[j]));
      }
    }
  }

  /** `FlaggedFor` over one more identifier. */
  lemma FlaggedForSnoc(flagged: seq<int>, j: int, k: ListKey)
    requires 0 <= j < |flagged|
    ensures FlaggedFor(flagged[..j + 1], k) ==
      FlaggedFor(flagged[..j], k) + (if k == FlaggedKey(flagged[j]) then [DecimalCodec.ChannelIdOf(flagged[j])] else [])
  {
    assert flagged[..j + 1][..j] == flagged[..j];
  }

  /** `Kept` after a channel of the chip `k` is appended. */
  lemma KeptSnoc(record: map<ListKey, seq<int>>, prior: seq<int>, k: ListKey, keysMatch: bool, ch: int)
    requires FlaggedDone(record, prior, keysMatch)
    ensures var all := FlaggedFor(prior, k) + [ch];
      (if keysMatch && k in record then [] else Get(record, k)) + [ch] ==
        if keysMatch && all != [] then [all[|all| - 1]] else all
  {
  }

  /** The flagged loop of `evaluate_pedestal`: each flagged identifier (a
      channel whose pedestal failed a cut, in sorted order) puts its channel
      under its chip's key. Returns the record and the count. */
  method FlagChannels(flagged: seq<int>, keysMatch: bool) returns (record: map<ListKey, seq<int>>, nBad: nat)
    ensures nBad == |flagged| && FlaggedDone(record, flagged, keysMatch)
  {
    record := map[];
    nBad := 0;
    for j := 0 to |flagged|
      invariant nBad == j && FlaggedDone(record, flagged[..j], keysMatch)
    {
      var unique := flagged[j];
      nBad := nBad + 1;
      var key := FlaggedKey(unique);
      ghost var before := record;
      if keysMatch && key in record {
        record := record[key := []];
      }
      record := record[key := Get(record, key) + [DecimalCodec.ChannelIdOf(unique)]];
      FlaggedStep(before, flagged, j, keysMatch, record);
    }
    assert flagged[..|flagged|] == flagged;
  }

  /** The keys of the record once the first `i` input entries were
      appended. */
  ghost predicate MergeKeys(record: map<ListKey, seq<int>>, flagged: seq<int>, d: DisabledList, i: int)
    requires 0 <= i <= |d|
  {
    forall k :: k in record <==> FlaggedFor(flagged, k) != [] || exists j :: 0 <= j < i && d[j].0 == k
  }

  /** The entries of the record once the first `i` input entries were
      appended. */
  ghost predicate MergeValues(record: map<ListKey, seq<int>>, flagged: seq<int>, d: DisabledList, keysMatch: bool, i: int)
    requires 0 <= i <= |d|
  {
    forall k :: k in record ==> record[k] == Kept(flagged, k, keysMatch) + InputFor(d[..i], k)
  }

  /** Appending one input entry keeps `MergeKeys`. */
  lemma MergeKeysStep(record: map<ListKey, seq<int>>, flagged: seq<int>, d: DisabledList, i: int,
                      record': map<ListKey, seq<int>>)
    requires 0 <= i < |d| && MergeKeys(record, flagged, d, i) && record'.Keys == record.Keys + {d[i].0}
    ensures MergeKeys(record', flagged, d, i + 1)
  {
  }

  /** Appending one input entry keeps `MergeValues`. */
  lemma MergeValuesStep(record: map<ListKey, seq<int>>, flagged: seq<int>, d: DisabledList, keysMatch: bool, i: int,
                        record': map<ListKey, seq<int>>)
    requires 0 <= i < |d| && MergeKeys(record, flagged, d, i) && MergeValues(record, flagged, d, keysMatch, i)
    requires record' == record[d[i].0 := Get(record, d[i].0) + d[i].1]
    ensures MergeValues(record', flagged, d, keysMatch, i + 1)
  {
    var key := d[i].0;
    forall k | k in record'
      ensures record'[k] == Kept(flagged, k, keysMatch) + InputFor(d[..i + 1], k)
    {
      InputForSnoc(d, i, k);
      if k == key {
        if key !in record {
          assert forall j :: 0 <= j < i ==> d[..i][j].0 != key;
          InputForNone(d[..i], key);
        }
        assert record'[key] == Kept(flagged, key, keysMatch) + InputFor(d[..i], key) + d[i].1;
      } else {
        assert record'[k] == record[k];
      }
    }
  }

  /** `InputFor` over one more entry. */
  lemma InputForSnoc(d: DisabledList, i: int, k: ListKey)
    requires 0 <= i < |d|
    ensures InputFor(d[..i + 1], k) == InputFor(d[..i], k) + (if k == d[i].0 then d[i].1 else [])
  {
    assert d[..i + 1][..i] == d[..i];
  }

  /** `evaluate_pedestal`'s record: the flagged loop, then every input
      entry's channels appended under its key. The record's string keys
      are the keys' `ListKeyString`s. */
  method EvaluatePedestal(flagged: seq<int>, d: DisabledList, keysMatch: bool)
    returns (record: map<ListKey, seq<int>>, nBad: nat)
    ensures nBad == |flagged|
    ensures forall k :: k in record <==> FlaggedFor(flagged, k) != [] || exists i :: 0 <= i < |d| && d[i].0 == k
    ensures forall k :: k in record ==> record[k] == Kept(flagged, k, keysMatch) + InputFor(d, k)
  {
    record, nBad := FlagChannels(flagged, keysMatch);
    assert d[..0] == [];
    for i := 0 to |d|
      invariant MergeKeys(record, flagged, d, i) && MergeValues(record, flagged, d, keysMatch, i)
    {
      ghost var before := record;
      record := record[d[i].0 := Get(record, d[i].0) + d[i].1];
      MergeKeysStep(before, flagged, d, i, record);
      MergeValuesStep(before, flagged, d, keysMatch, i, record);
    }
    assert d[..|d|] == d;
  }

  /** With keys that do not match their strings, every flagged channel is
      listed under its chip. */
  lemma MergeKeepsFlagged(flagged: seq<int>, d: DisabledList, record: map<ListKey, seq<int>>, i: int)
    requires forall k :: k in record <==> FlaggedFor(flagged, k) != [] || exists i :: 0 <= i < |d| && d[i].0 == k
    requires forall k :: k in record ==> record[k] == Kept(flagged, k, false) + InputFor(d, k)
    requires 0 <= i < |flagged|
    ensures FlaggedKey(flagged[i]) in record && DecimalCodec.ChannelIdOf(flagged[i]) in record[FlaggedKey(flagged[i])]
  {
    var k := FlaggedKey(flagged[i]);
    FlaggedForHas(flagged, k, DecimalCodec.ChannelIdOf(flagged[i]));
    assert record[k] == FlaggedFor(flagged, k) + InputFor(d, k);
  }

  /** Every input entry's channels end its key's entry of the record. */
  lemma MergeKeepsInput(flagged: seq<int>, d: DisabledList, keysMatch: bool, record: map<ListKey, seq<int>>, i: int)
    requires DistinctKeys(d) && 0 <= i < |d|
    requires forall k :: k in record <==> FlaggedFor(flagged, k) != [] || exists i :: 0 <= i < |d| && d[i].0 == k
    requires forall k :: k in record ==> record[k] == Kept(flagged, k, keysMatch) + InputFor(d, k)
    ensures var e := d[i].0;
      e in record && |record[e]| >= |d[i].1| && record[e][|record[e]| - |d[i].1|..] == d[i].1
  {
    var k := d[i].0;
    InputForEntry(d, k);
    LookupDistinct(d, i);
    var a := Kept(flagged, k, keysMatch);
    assert record[k] == a + d[i].1;
    assert record[k][|a|..] == d[i].1;
  }

  /** With distinct keys, each entry's key finds that entry. */
  lemma {:induction false} LookupDistinct(d: DisabledList, i: int)
    requires DistinctKeys(d) && 0 <= i < |d|
    ensures Lookup(d, d[i].0) == Some(d[i].1)
  {
    if i > 0 {
      assert forall j :: 0 <= j < |d| - 1 ==> d[1..][j] == d[j + 1];
      LookupDistinct(d[1..], i - 1);
    }
  }

  /** With keys that match their strings, a chip's flagged channels shrink
      to its last one. */
  lemma {:induction false} KeysMatchKeepsLast(flagged: seq<int>, k: ListKey)
    requires FlaggedFor(flagged, k) != []
    decreases |flagged|
    ensures exists i :: 0 <= i < |flagged| && FlaggedKey(flagged[i]) == k &&
              Kept(flagged, k, true) == [DecimalCodec.ChannelIdOf(flagged[i])] &&
              forall j :: i < j < |flagged| ==> FlaggedKey(flagged[j]) != k
  {
    var u := flagged[|flagged| - 1];
    var front := flagged[..|flagged| - 1];
    if FlaggedKey(u) == k {
      assert Kept(flagged, k, true) == [DecimalCodec.ChannelIdOf(flagged[|flagged| - 1])];
    } else {
      KeysMatchKeepsLast(front, k);
      var i :| 0 <= i < |front| && FlaggedKey(front[i]) == k &&
               Kept(front, k, true) == [DecimalCodec.ChannelIdOf(front[i])] &&
               forall j :: i < j < |front| ==> FlaggedKey(front[j]) != k;
      assert flagged[i] == front[i];
      assert forall j :: i < j < |flagged| ==> flagged[j] == u || flagged[j] == front[j];
    }
  }
}
