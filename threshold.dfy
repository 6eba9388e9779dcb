/** The integer and list logic of the threshold scan: the disabled-channel
    bookkeeping, the front-end masks derived from it, the pixel-trim toggle
    loop and the clamps on the DAC seeds. */
module Threshold {
  import opened Common
  import opened Frontend

  // ---------------------------------------------------------------------
  // disable_from_file

  /** Switch off the CSA of each of `chs` on one chip and append the channel
      to the chip's `csa_disable` entry, creating the entry at the first
      channel. */
  method DisableChannels(csa: seq<int>, csaDisable: map<ChipKey, seq<int>>, chip: ChipKey, chs: seq<int>)
    returns (csa': seq<int>, csaDisable': map<ChipKey, seq<int>>)
    requires |csa| == NumChannels && ValidChannels(chs)
    ensures csa' == Overwrite(csa, chs, 0)
    ensures csaDisable' == if chs == [] then csaDisable else csaDisable[chip := Get(csaDisable, chip) + chs]
  {
    csa', csaDisable' := csa, csaDisable;
    for m := 0 to |chs|
      invariant |csa'| == NumChannels
      invariant csa' == Overwrite(csa, chs[..m], 0)
      invariant csaDisable' == if m == 0 then csaDisable else csaDisable[chip := Get(csaDisable, chip) + chs[..m]]
    {
      var ch := chs[m];
      assert chs[..m + 1] == chs[..m] + [ch];
      assert Get(csaDisable, chip) + chs[..m + 1] == Get(csaDisable, chip) + chs[..m] + [ch];
      OverwriteStep(csa, chs[..m], ch, 0);
      csa' := csa'[ch := 0];
      if chip !in csaDisable' {
        csaDisable' := csaDisable'[chip := []];
      }
      assert csaDisable'[chip] == Get(csaDisable, chip) + chs[..m];
      csaDisable' := csaDisable'[chip := csaDisable'[chip] + [ch]];
    }
    assert chs[..|chs|] == chs;
  }

  /** The entries of the disabled list, in order, applied to one chip. */
  method DisableChip(r: Regs, csaDisable: map<ChipKey, seq<int>>, chip: ChipKey, d: DisabledList)
    returns (r': Regs, csaDisable': map<ChipKey, seq<int>>)
    requires WellFormed(r) && ValidChannelsIn(d)
    ensures r' == r.(csaEnable := Overwrite(r.csaEnable, Listed(d, chip), 0))
    ensures csaDisable' == if Listed(d, chip) == [] then csaDisable
                           else csaDisable[chip := Get(csaDisable, chip) + Listed(d, chip)]
  {
    r', csaDisable' := r, csaDisable;
    for j := 0 to |d|
      invariant ValidChannelsIn(d[..j])
      invariant r' == r.(csaEnable := Overwrite(r.csaEnable, Listed(d[..j], chip), 0))
      invariant csaDisable' == if Listed(d[..j], chip) == [] then csaDisable
                               else csaDisable[chip := Get(csaDisable, chip) + Listed(d[..j], chip)]
    {
      assert d[..j + 1][..j] == d[..j];
      ghost var part := if AppliesTo(d[j].0, chip) then d[j].1 else [];
      assert Listed(d[..j + 1], chip) == Listed(d[..j], chip) + part;
      if part == [] {
        assert Listed(d[..j + 1], chip) == Listed(d[..j], chip);
      } else if Listed(d[..j], chip) == [] {
        assert Listed(d[..j + 1], chip) == part;
      } else {
        assert Get(csaDisable, chip) + Listed(d[..j + 1], chip) == Get(csaDisable, chip) + Listed(d[..j], chip) + part;
      }
      if AppliesTo(d[j].0, chip) {
        var csa;
        csa, csaDisable' := DisableChannels(r'.csaEnable, csaDisable', chip, d[j].1);
        OverwriteTwice(r.csaEnable, Listed(d[..j], chip), d[j].1, 0);
        r' := r'.(csaEnable := csa);
      }
    }
    assert d[..|d|] == d;
  }

  /** One chip's registers after the list's entries for it were applied. */
  function Disabled(r: Regs, input: DisabledList, chip: ChipKey): Regs
  {
    r.(csaEnable := Overwrite(r.csaEnable, Listed(input, chip), 0))
  }

  /** The registers of `disable_from_file` once the chips of `done` were
      visited. */
  ghost predicate RegsDone(regs: map<ChipKey, Regs>, regs0: map<ChipKey, Regs>,
                           input: DisabledList, done: set<ChipKey>)
  {
    regs.Keys == regs0.Keys &&
    forall k :: k in regs ==> regs[k] == if k in done then Disabled(regs0[k], input, k) else regs0[k]
  }

  /** The `csa_disable` entries of `disable_from_file` once the chips of
      `done` were visited. */
  ghost predicate ListsDone(csaDisable: map<ChipKey, seq<int>>, csaDisable0: map<ChipKey, seq<int>>,
                            input: DisabledList, done: set<ChipKey>)
  {
    Appended(csaDisable, csaDisable0, k => Listed(input, k), done)
  }

  /** `m` is `m0` with `f(k)` appended to the entry of each chip `k` of
      `done`, an entry being created only when there is something to
      append. */
  ghost predicate Appended(m: map<ChipKey, seq<int>>, m0: map<ChipKey, seq<int>>, f: ChipKey -> seq<int>, done: set<ChipKey>)
  {
    (forall k :: k in m <==> k in m0 || (k in done && f(k) != [])) &&
    (forall k :: k in m ==> m[k] == Get(m0, k) + (if k in done then f(k) else []))
  }

  /** One turn of the chip loop of `disable_from_file`. */
  method DisableNext(fe: Chips, i: int, input: DisabledList, csaDisable: map<ChipKey, seq<int>>,
                     ghost regs0: map<ChipKey, Regs>, ghost csaDisable0: map<ChipKey, seq<int>>, ghost done: set<ChipKey>)
    returns (csaDisable': map<ChipKey, seq<int>>, ghost done': set<ChipKey>)
    requires fe.Valid() && 0 <= i < |fe.order| && ValidChannelsIn(input)
    requires forall k :: k in done <==> k in fe.order[..i]
    requires RegsDone(fe.regs, regs0, input, done) && ListsDone(csaDisable, csaDisable0, input, done)
    modifies fe
    ensures fe.Valid() && fe.order == old(fe.order)
    ensures forall k :: k in done' <==> k in fe.order[..i + 1]
    ensures RegsDone(fe.regs, regs0, input, done') && ListsDone(csaDisable', csaDisable0, input, done')
  {
    var chip := fe.order[i];
    assert chip !in fe.order[..i];
    assert fe.order[..i + 1] == fe.order[..i] + [chip];
    var r;
    r, csaDisable' := DisableChip(fe.regs[chip], csaDisable, chip, input);
    RegsStep(fe.regs, regs0, input, done, chip, r);
    ListsStep(csaDisable, csaDisable0, input, done, chip, csaDisable');
    fe.Set(chip, r);
    done' := done + {chip};
  }

  /** Visiting one more chip keeps `RegsDone`. */
  lemma RegsStep(regs: map<ChipKey, Regs>, regs0: map<ChipKey, Regs>, input: DisabledList,
                 done: set<ChipKey>, chip: ChipKey, r: Regs)
    requires RegsDone(regs, regs0, input, done)
    requires chip in regs && chip !in done && r == Disabled(regs[chip], input, chip)
    ensures RegsDone(regs[chip := r], regs0, input, done + {chip})
  {
    var regs' := regs[chip := r];
    forall k | k in regs'
      ensures regs'[k] == if k in done + {chip} then Disabled(regs0[k], input, k) else regs0[k]
    {
      if k != chip {
        assert regs'[k] == regs[k];
      }
    }
  }

  /** Visiting one more chip keeps `ListsDone`. */
  lemma ListsStep(csaDisable: map<ChipKey, seq<int>>, csaDisable0: map<ChipKey, seq<int>>,
                  input: DisabledList, done: set<ChipKey>, chip: ChipKey, csaDisable': map<ChipKey, seq<int>>)
    requires ListsDone(csaDisable, csaDisable0, input, done) && chip !in done
    requires csaDisable' == if Listed(input, chip) == [] then csaDisable
                            else csaDisable[chip := Get(csaDisable, chip) + Listed(input, chip)]
    ensures ListsDone(csaDisable', csaDisable0, input, done + {chip})
  {
    AppendedStep(csaDisable, csaDisable0, k => Listed(input, k), done, chip, csaDisable');
  }

  /** The same step for any per-chip list `f` in place of `Listed`. */
  lemma AppendedStep(m: map<ChipKey, seq<int>>, m0: map<ChipKey, seq<int>>, f: ChipKey -> seq<int>,
                     done: set<ChipKey>, chip: ChipKey, m': map<ChipKey, seq<int>>)
    requires Appended(m, m0, f, done) && chip !in done
    requires m' == if f(chip) == [] then m else m[chip := Get(m, chip) + f(chip)]
    ensures Appended(m', m0, f, done + {chip})
  {
    var before := Get(m0, chip);
    assert Get(m, chip) == before by {
      if chip in m {
        assert m[chip] == before + [];
      }
    }
    forall k ensures k in m' <==> k in m0 || (k in done + {chip} && f(k) != []) {
      if k != chip {
        assert k in m' <==> k in m;
      }
    }
    forall k | k in m'
      ensures m'[k] == Get(m0, k) + (if k in done + {chip} then f(k) else [])
    {
      if k != chip {
        assert m'[k] == m[k];
      } else if f(chip) == [] {
        assert m'[k] == m[k] == before + [];
      } else {
        assert m'[k] == before + f(chip);
      }
    }
  }

  /** `disable_from_file`: with no list given the non-routed channels under
      'All'; every chip that an entry applies to gets that entry's channels'
      CSAs switched off and appended to its `csa_disable` entry. No other
      register and no other chip's entry changes. */
  method DisableFromFile(fe: Chips, list: Option<DisabledList>, csaDisable: map<ChipKey, seq<int>>)
    returns (csaDisable': map<ChipKey, seq<int>>)
    requires fe.Valid() && (list.Some? ==> ValidChannelsIn(list.value))
    modifies fe
    ensures fe.Valid() && fe.order == old(fe.order)
    ensures var input := if list.Some? then list.value else DefaultDisabled;
      (forall k :: k in fe.regs ==> fe.regs[k] == Disabled(old(fe.regs[k]), input, k)) &&
      (forall k :: k in csaDisable' <==> k in csaDisable || (k in fe.order && Listed(input, k) != [])) &&
      (forall k :: k in csaDisable' ==>
         csaDisable'[k] == Get(csaDisable, k) + (if k in fe.order then Listed(input, k) else []))
  {
    var input := if list.Some? then list.value else DefaultDisabled;
    assert ValidChannels(Nonrouted);
    ghost var regs0 := fe.regs;
    ghost var done: set<ChipKey> := {};
    csaDisable' := csaDisable;
    for i := 0 to |fe.order|
      invariant fe.Valid() && fe.order == old(fe.order)
      invariant forall k :: k in done <==> k in fe.order[..i]
      invariant RegsDone(fe.regs, regs0, input, done) && ListsDone(csaDisable', csaDisable, input, done)
    {
      csaDisable', done := DisableNext(fe, i, input, csaDisable', regs0, csaDisable, done);
    }
    assert fe.order[..|fe.order|] == fe.order;
  }

  /** With no list, each chip's non-routed channels are the ones disabled. */
  lemma DefaultListsNonrouted(chip: ChipKey)
    ensures Listed(DefaultDisabled, chip) == Nonrouted
  {
    assert DefaultDisabled[..0] == [];
  }

  // ---------------------------------------------------------------------
  // enable_frontend and save_config_to_file

  /** The front end a `csa_disable` entry asks for: masked with the CSA off
      exactly at the listed channels, unmasked with the CSA on elsewhere. */
  function Requested(r: Regs, disabled: seq<int>): Regs
  {
    r.(channelMask := Flags(disabled, 1, 0), csaEnable := Flags(disabled, 0, 1))
  }

  /** The channel loop of `enable_frontend` for one chip. */
  method EnableChip(r: Regs, csaDisable: map<ChipKey, seq<int>>, chip: ChipKey) returns (r': Regs)
    requires WellFormed(r)
    ensures r' == Requested(r, Get(csaDisable, chip))
  {
    var mask, csa := r.channelMask, r.csaEnable;
    for channel := 0 to NumChannels
      invariant |mask| == |csa| == NumChannels
      invariant forall ch :: 0 <= ch < channel ==>
        mask[ch] == Flags(Get(csaDisable, chip), 1, 0)[ch] && csa[ch] == Flags(Get(csaDisable, chip), 0, 1)[ch]
      invariant forall ch :: channel <= ch < NumChannels ==> mask[ch] == r.channelMask[ch] && csa[ch] == r.csaEnable[ch]
    {
      if chip in csaDisable {
        if channel in csaDisable[chip] {
          mask := mask[channel := 1];
          csa := csa[channel := 0];
          continue;
        }
      }
      mask := mask[channel := 0];
      csa := csa[channel := 1];
    }
    r' := r.(channelMask := mask, csaEnable := csa);
  }

  /** The mask loop of `enable_frontend` over the network's chips: each
      gets the front end its `csa_disable` entry asks for. */
  method EnableFrontend(fe: Chips, keys: seq<ChipKey>, csaDisable: map<ChipKey, seq<int>>)
    requires fe.Valid() && forall i :: 0 <= i < |keys| ==> keys[i] in fe.regs
    modifies fe
    ensures fe.Valid() && fe.order == old(fe.order) && fe.regs.Keys == old(fe.regs.Keys)
    ensures forall k :: k in fe.regs ==>
      fe.regs[k] == if k in keys then Requested(old(fe.regs[k]), Get(csaDisable, k)) else old(fe.regs[k])
  {
    ghost var regs0 := fe.regs;
    for i := 0 to |keys|
      invariant fe.Valid() && fe.order == old(fe.order) && fe.regs.Keys == regs0.Keys
      invariant forall k :: k in fe.regs ==>
        fe.regs[k] == if k in keys[..i] then Requested(regs0[k], Get(csaDisable, k)) else regs0[k]
    {
      assert keys[..i + 1] == keys[..i] + [keys[i]];
      var r := EnableChip(fe.regs[keys[i]], csaDisable, keys[i]);
      fe.Set(keys[i], r);
    }
    assert keys[..|keys|] == keys;
  }

  /** The mask part of `save_config_to_file` for one chip: all CSAs on and
      all channels unmasked, then each listed channel switched off. */
  method SaveChip(r: Regs, csaDisable: map<ChipKey, seq<int>>, chip: ChipKey) returns (r': Regs)
    requires WellFormed(r) && ValidChannels(Get(csaDisable, chip))
    ensures r' == Requested(r, Get(csaDisable, chip))
  {
    var csa := seq(NumChannels, _ => 1);
    var mask := seq(NumChannels, _ => 0);
    if chip in csaDisable {
      var listed := csaDisable[chip];
      for m := 0 to |listed|
        invariant csa == Overwrite(seq(NumChannels, _ => 1), listed[..m], 0)
        invariant mask == Overwrite(seq(NumChannels, _ => 0), listed[..m], 1)
      {
        assert listed[..m + 1] == listed[..m] + [listed[m]];
        csa := csa[listed[m] := 0];
        mask := mask[listed[m] := 1];
      }
      assert listed[..|listed|] == listed;
    }
    FlagsAsOverwrite(Get(csaDisable, chip), 0, 1);
    FlagsAsOverwrite(Get(csaDisable, chip), 1, 0);
    r' := r.(channelMask := mask, csaEnable := csa);
  }

  /** The mask part of `save_config_to_file`: built the other way round
      from `enable_frontend`, it gives every listed chip the same front end. */
  method SaveConfigMasks(fe: Chips, keys: seq<ChipKey>, csaDisable: map<ChipKey, seq<int>>)
    requires fe.Valid() && forall i :: 0 <= i < |keys| ==> keys[i] in fe.regs
    requires forall k :: k in csaDisable ==> ValidChannels(csaDisable[k])
    modifies fe
    ensures fe.Valid() && fe.order == old(fe.order) && fe.regs.Keys == old(fe.regs.Keys)
    ensures forall k :: k in fe.regs ==>
      fe.regs[k] == if k in keys then Requested(old(fe.regs[k]), Get(csaDisable, k)) else old(fe.regs[k])
  {
    ghost var regs0 := fe.regs;
    for i := 0 to |keys|
      invariant fe.Valid() && fe.order == old(fe.order) && fe.regs.Keys == regs0.Keys
      invariant forall k :: k in fe.regs ==>
        fe.regs[k] == if k in keys[..i] then Requested(regs0[k], Get(csaDisable, k)) else regs0[k]
    {
      assert keys[..i + 1] == keys[..i] + [keys[i]];
      var r := SaveChip(fe.regs[keys[i]], csaDisable, keys[i]);
      fe.Set(keys[i], r);
    }
    assert keys[..|keys|] == keys;
  }

  /** A channel gets mask 1 and CSA 0 exactly when its chip's `csa_disable`
      entry lists it, and mask 0 and CSA 1 otherwise. */
  lemma FrontendFlags(r: Regs, disabled: seq<int>, ch: int)
    requires ValidChannel(ch)
    ensures var f := Requested(r, disabled);
      (f.channelMask[ch] == 1 && f.csaEnable[ch] == 0 <==> ch in disabled) &&
      (f.channelMask[ch] == 0 && f.csaEnable[ch] == 1 <==> ch !in disabled)
  {
  }

  // ---------------------------------------------------------------------
  // toggle_trim and update_chip

  /** One channel's entries of `toggle_trim`'s status: its pixel trim,
      whether it is still being tuned, and whether it was given up. */
  datatype TrimState = TrimState(trim: int, active: bool, disable: bool)

  /** What one sample of the toggle loop saw: the distinct `(chip, channel)`
      pairs that triggered, in the order the loop visits them, and those of
      them whose rate reached `set_rate`. */
  datatype Sample = Sample(fired: seq<(ChipKey, int)>, high: set<(ChipKey, int)>)

  /** A channel `update_chip` switches off. */
  predicate Off(s: TrimState)
  {
    s.disable || !s.active
  }

  /** A trim within the 5-bit DAC range. */
  predicate TrimInRange(s: TrimState)
  {
    0 <= s.trim <= 31
  }

  /** One channel through one pass of the toggle loop: whether it triggered,
      whether its rate was at least `set_rate`, and whether it is one of the
      `channels` the loop tunes. */
  function ChannelStep(s: TrimState, fired: bool, high: bool, tuned: bool): (r: TrimState)
    ensures !s.active ==> r == s
    ensures TrimInRange(s) ==> TrimInRange(r)
    ensures s.disable ==> r.disable
    ensures r.disable && !s.disable ==> s.trim + 1 > 31 && r.trim == 31 && !r.active
    ensures s.active && fired && high ==> !r.active && (r.trim == s.trim + 1 || r.disable)
    ensures s.active && (fired || tuned) ==> r.trim == s.trim + 1 || r.trim == s.trim - 1 || !r.active
    ensures r.active && s.active && (fired || tuned) ==> r.trim == s.trim - 1
    ensures !fired && !tuned ==> r == s
  {
    if !s.active then s
    else if fired && high then
      if s.trim + 1 > 31 then TrimState(31, false, true) else TrimState(s.trim + 1, false, s.disable)
    else if fired || tuned then
      if s.trim - 1 < 0 then TrimState(0, false, s.disable) else TrimState(s.trim - 1, true, s.disable)
    else s
  }

  /** A switched-off channel stays switched off. */
  lemma OffStaysOff(s: TrimState, fired: bool, high: bool, tuned: bool)
    requires Off(s)
    ensures Off(ChannelStep(s, fired, high, tuned))
  {
  }

  /** The state of the toggle loop: each chip's 64 channel entries and the
      `csa_disable` lists. */
  datatype Toggling = Toggling(status: map<ChipKey, seq<TrimState>>, csaDisable: map<ChipKey, seq<int>>)

  /** The channels of `chip` that the fired pairs push past trim 31, in the
      order the loop visits them: they are appended to `csa_disable`. */
  function MaxedOut(status: map<ChipKey, seq<TrimState>>, fired: seq<(ChipKey, int)>, high: set<(ChipKey, int)>,
                    chip: ChipKey): seq<int>
  {
    if fired == [] then []
    else
      var p := fired[|fired| - 1];
      var front := MaxedOut(status, fired[..|fired| - 1], high, chip);
      if p.0 == chip && chip in status && 0 <= p.1 < |status[chip]| && status[chip][p.1].active &&
         p in high && status[chip][p.1].trim + 1 > 31
      then front + [p.1]
      else front
  }

  /** One pass of the toggle loop on its state. */
  function Round(t: Toggling, smp: Sample, channels: seq<int>): Toggling
  {
    Toggling(
      map k | k in t.status ::
        seq(|t.status[k]|, ch requires 0 <= ch < |t.status[k]| =>
          ChannelStep(t.status[k][ch], (k, ch) in smp.fired, (k, ch) in smp.high, ch in channels)),
      map k | k in t.csaDisable :: t.csaDisable[k] + MaxedOut(t.status, smp.fired, smp.high, k))
  }

  /** The toggle loop's state after the given passes. */
  function Rounds(t: Toggling, samples: seq<Sample>, channels: seq<int>): Toggling
  {
    if samples == [] then t
    else Round(Rounds(t, samples[..|samples| - 1], channels), samples[|samples| - 1], channels)
  }

  /** Every chip has 64 channel entries and a `csa_disable` entry. */
  ghost predicate StatusOk(t: Toggling)
  {
    forall k :: k in t.status ==> k in t.csaDisable && |t.status[k]| == NumChannels
  }

  /** Every trim lies within the 5-bit DAC range. */
  ghost predicate TrimsInRange(status: map<ChipKey, seq<TrimState>>)
  {
    forall k, ch :: k in status && 0 <= ch < |status[k]| ==> TrimInRange(status[k][ch])
  }

  /** Whether some channel of some chip is still being tuned. */
  ghost predicate AnyActive(status: map<ChipKey, seq<TrimState>>)
  {
    exists k, ch :: k in status && 0 <= ch < |status[k]| && status[k][ch].active
  }

  /** A pass keeps every trim within [0, 31], leaves the channels that were
      no longer tuned as they were, and keeps switched-off channels off. */
  lemma RoundKeeps(t: Toggling, smp: Sample, channels: seq<int>)
    requires StatusOk(t)
    ensures var t' := Round(t, smp, channels);
      StatusOk(t') && t'.status.Keys == t.status.Keys && t'.csaDisable.Keys == t.csaDisable.Keys &&
      (TrimsInRange(t.status) ==> TrimsInRange(t'.status)) &&
      (forall k, ch :: k in t.status && 0 <= ch < NumChannels && !t.status[k][ch].active ==>
         t'.status[k][ch] == t.status[k][ch]) &&
      (forall k, ch :: k in t.status && 0 <= ch < NumChannels && Off(t.status[k][ch]) ==> Off(t'.status[k][ch]))
  {
    var t' := Round(t, smp, channels);
    forall k, ch | k in t.status && 0 <= ch < NumChannels && Off(t.status[k][ch])
      ensures Off(t'.status[k][ch])
    {
      OffStaysOff(t.status[k][ch], (k, ch) in smp.fired, (k, ch) in smp.high, ch in channels);
    }
  }

  /** However many passes run, every trim stays within [0, 31], channels
      that were not tuned at the start are never touched, and a channel
      once switched off stays off. */
  lemma {:induction false} RoundsKeep(t: Toggling, samples: seq<Sample>, channels: seq<int>)
    requires StatusOk(t)
    ensures var t' := Rounds(t, samples, channels);
      StatusOk(t') && t'.status.Keys == t.status.Keys && t'.csaDisable.Keys == t.csaDisable.Keys &&
      (TrimsInRange(t.status) ==> TrimsInRange(t'.status)) &&
      (forall k, ch :: k in t.status && 0 <= ch < NumChannels && !t.status[k][ch].active ==>
         t'.status[k][ch] == t.status[k][ch]) &&
      (forall k, ch :: k in t.status && 0 <= ch < NumChannels && Off(t.status[k][ch]) ==> Off(t'.status[k][ch]))
  {
    if samples != [] {
      var front := samples[..|samples| - 1];
      RoundsKeep(t, front, channels);
      RoundKeeps(Rounds(t, front, channels), samples[|samples| - 1], channels);
    }
  }

  /** A tuned channel still active after some passes was active from the
      start and lost one trim step in each pass. */
  lemma {:induction false} ActiveDescends(t: Toggling, samples: seq<Sample>, channels: seq<int>, k: ChipKey, ch: int)
    requires StatusOk(t) && k in t.status && 0 <= ch < NumChannels && ch in channels
    ensures var st := Rounds(t, samples, channels).status;
      k in st && ch < |st[k]| &&
      (st[k][ch].active ==> t.status[k][ch].active && st[k][ch].trim == t.status[k][ch].trim - |samples|)
  {
    RoundsKeep(t, samples, channels);
    if samples != [] {
      var front := samples[..|samples| - 1];
      var smp := samples[|samples| - 1];
      ActiveDescends(t, front, channels, k, ch);
      var s1 := Rounds(t, front, channels).status[k][ch];
      assert Rounds(t, samples, channels).status[k][ch] ==
        ChannelStep(s1, (k, ch) in smp.fired, (k, ch) in smp.high, ch in channels);
    }
  }

  /** Every channel still being tuned is one of the `channels` the loop
      steps down. */
  ghost predicate ActiveTuned(status: map<ChipKey, seq<TrimState>>, channels: seq<int>)
  {
    forall k, ch :: k in status && 0 <= ch < |status[k]| && status[k][ch].active ==> ch in channels
  }

  /** When every active channel is one of `channels` and every trim starts
      within [0, 31], no channel is still tuned after 32 passes: the toggle
      loop ends whatever the samples. */
  lemma AllTunedSettle(t: Toggling, samples: seq<Sample>, channels: seq<int>)
    requires StatusOk(t) && TrimsInRange(t.status) && |samples| >= 32
    requires ActiveTuned(t.status, channels)
    ensures !AnyActive(Rounds(t, samples, channels).status)
  {
    RoundsKeep(t, samples, channels);
    var st := Rounds(t, samples, channels).status;
    if AnyActive(st) {
      var k, ch :| k in st && 0 <= ch < |st[k]| && st[k][ch].active;
      assert k in t.status && ch < NumChannels;
      ActiveDescends(t, samples, channels, k, ch);
      assert false;
    }
  }

  /** As the script's main sets it up, every active channel is tuned: the
      non-routed channels are in every chip's `csa_disable` list, so they
      start given up, and the loop tunes every routed channel. */
  lemma MainStartTuned(regs: map<ChipKey, Regs>, csaDisable: map<ChipKey, seq<int>>)
    requires StatusOk(Start(regs, csaDisable))
    requires forall k, ch :: k in csaDisable && ch in Nonrouted ==> ch in csaDisable[k]
    ensures ActiveTuned(Start(regs, csaDisable).status, Routed())
  {
    var st: map<ChipKey, seq<TrimState>> := Start(regs, csaDisable).status;
    forall k: ChipKey, ch: int | k in st && 0 <= ch < |st[k]| && st[k][ch].active
      ensures ch in Routed()
    {
      assert ch !in csaDisable[k];
      NonroutedRanges(ch);
    }
  }

  /** An active channel outside `channels` that fires in no sample keeps
      its entry through every pass: it stays active, so the toggle loop
      keeps running however many samples it is fed. */
  lemma {:induction false} UntunedQuietStays(t: Toggling, samples: seq<Sample>, channels: seq<int>, k: ChipKey, ch: int)
    requires StatusOk(t) && k in t.status && 0 <= ch < NumChannels && ch !in channels
    requires forall i :: 0 <= i < |samples| ==> (k, ch) !in samples[i].fired
    ensures var st := Rounds(t, samples, channels).status;
      k in st && |st[k]| == NumChannels && st[k][ch] == t.status[k][ch]
    ensures t.status[k][ch].active ==> AnyActive(Rounds(t, samples, channels).status)
  {
    if samples != [] {
      var front := samples[..|samples| - 1];
      var smp := samples[|samples| - 1];
      assert forall i :: 0 <= i < |front| ==> front[i] == samples[i];
      UntunedQuietStays(t, front, channels, k, ch);
      var s1 := Rounds(t, front, channels).status[k][ch];
      assert Rounds(t, samples, channels).status[k][ch] ==
        ChannelStep(s1, (k, ch) in smp.fired, (k, ch) in smp.high, ch in channels);
    }
  }

  /** A pass only appends to `csa_disable`, and only channels it gave up. */
  lemma {:induction false} MaxedOutDisabled(t: Toggling, fired: seq<(ChipKey, int)>, high: set<(ChipKey, int)>,
                                            chip: ChipKey, channels: seq<int>, ch: int)
    requires StatusOk(t) && TrimsInRange(t.status) && chip in t.status
    requires ch in MaxedOut(t.status, fired, high, chip)
    ensures 0 <= ch < NumChannels && (chip, ch) in fired && t.status[chip][ch].active && t.status[chip][ch].trim == 31
    ensures var s' := ChannelStep(t.status[chip][ch], true, (chip, ch) in high, ch in channels);
      s'.disable && s'.trim == 31 && !s'.active
  {
    if fired != [] {
      var p := fired[|fired| - 1];
      var front := fired[..|fired| - 1];
      if ch in MaxedOut(t.status, front, high, chip) {
        MaxedOutDisabled(t, front, high, chip, channels, ch);
      }
    }
  }

  /** The status `toggle_trim` starts from for one chip: channels listed in
      `csa_disable` start given up and not tuned, all others tuned. */
  function StartChip(trims: seq<int>, disabled: seq<int>): (s: seq<TrimState>)
    ensures |s| == |trims|
    ensures forall ch :: 0 <= ch < |s| ==>
      s[ch].trim == trims[ch] && (s[ch].active <==> ch !in disabled) && (s[ch].disable <==> ch in disabled)
  {
    seq(|trims|, ch requires 0 <= ch < |trims| => TrimState(trims[ch], ch !in disabled, ch in disabled))
  }

  /** The toggle loop's starting state. */
  function Start(regs: map<ChipKey, Regs>, csaDisable: map<ChipKey, seq<int>>): Toggling
  {
    Toggling(map k | k in regs && k in csaDisable :: StartChip(regs[k].pixelTrim, csaDisable[k]), csaDisable)
  }

  /** The registers `update_chip` writes for one chip's status: the trims,
      and the CSA switched off and the channel masked wherever the channel
      is given up or no longer tuned. */
  function Applied(r: Regs, s: seq<TrimState>): (r': Regs)
    requires |s| == |r.csaEnable| == |r.channelMask|
    ensures WellFormed(r) ==> WellFormed(r')
  {
    r.(pixelTrim := seq(|s|, ch requires 0 <= ch < |s| => s[ch].trim),
       csaEnable := seq(|s|, ch requires 0 <= ch < |s| => if Off(s[ch]) then 0 else r.csaEnable[ch]),
       channelMask := seq(|s|, ch requires 0 <= ch < |s| => if Off(s[ch]) then 1 else r.channelMask[ch]))
  }

  /** Writing a status whose switched-off channels include an earlier
      one's overrides that earlier write: the writes of successive passes
      add up to the write of the last. */
  lemma AppliedAbsorbs(r: Regs, s1: seq<TrimState>, s2: seq<TrimState>)
    requires |s1| == |s2| == |r.csaEnable| == |r.channelMask|
    requires forall ch :: 0 <= ch < |s1| && Off(s1[ch]) ==> Off(s2[ch])
    ensures Applied(Applied(r, s1), s2) == Applied(r, s2)
  {
  }

  /** `update_chip`: every chip of the status gets its trims, and the CSA
      off and the mask on for each channel given up or no longer tuned. */
  method UpdateChip(fe: Chips, status: map<ChipKey, seq<TrimState>>)
    requires fe.Valid() && forall k :: k in status ==> k in fe.regs && |status[k]| == NumChannels
    modifies fe
    ensures fe.Valid() && fe.order == old(fe.order) && fe.regs.Keys == old(fe.regs.Keys)
    ensures forall k :: k in fe.regs ==>
      fe.regs[k] == if k in status then Applied(old(fe.regs[k]), status[k]) else old(fe.regs[k])
  {
    ghost var regs0 := fe.regs;
    for i := 0 to |fe.order|
      invariant fe.Valid() && fe.order == old(fe.order) && fe.regs.Keys == regs0.Keys
      invariant forall k :: k in fe.regs ==>
        fe.regs[k] == if k in status && k in fe.order[..i] then Applied(regs0[k], status[k]) else regs0[k]
    {
      var chip := fe.order[i];
      assert chip !in fe.order[..i];
      assert fe.order[..i + 1] == fe.order[..i] + [chip];
      if chip in status {
        var r := UpdateOne(fe.regs[chip], status[chip]);
        fe.Set(chip, r);
      }
    }
    assert fe.order[..|fe.order|] == fe.order;
  }

  /** The channel loop of `update_chip` for one chip. */
  method UpdateOne(r: Regs, s: seq<TrimState>) returns (r': Regs)
    requires WellFormed(r) && |s| == NumChannels
    ensures r' == Applied(r, s)
  {
    var csa, mask := r.csaEnable, r.channelMask;
    var trims := seq(|s|, ch requires 0 <= ch < |s| => s[ch].trim);
    for channel := 0 to NumChannels
      invariant |csa| == |mask| == NumChannels
      invariant forall ch :: 0 <= ch < channel ==>
        csa[ch] == (if Off(s[ch]) then 0 else r.csaEnable[ch]) && mask[ch] == (if Off(s[ch]) then 1 else r.channelMask[ch])
      invariant forall ch :: channel <= ch < NumChannels ==> csa[ch] == r.csaEnable[ch] && mask[ch] == r.channelMask[ch]
    {
      if s[channel].disable || !s[channel].active {
        csa := csa[channel := 0];
        mask := mask[channel := 1];
      }
    }
    r' := r.(pixelTrim := trims, csaEnable := csa, channelMask := mask);
  }

  /** The fired pairs of a sample name each chip channel at most once (they
      come from a set) and only channels of a chip. */
  predicate SampleOk(smp: Sample)
  {
    Distinct(smp.fired) && forall i :: 0 <= i < |smp.fired| ==> ValidChannel(smp.fired[i].1)
  }

  /** The channel entries `status` once the first `j` fired pairs of the
      pass that starts from `status0` were visited. */
  ghost predicate FiredStatus(status: map<ChipKey, seq<TrimState>>, status0: map<ChipKey, seq<TrimState>>,
                              smp: Sample, j: int)
    requires 0 <= j <= |smp.fired|
  {
    status.Keys == status0.Keys &&
    (forall k :: k in status ==> |status[k]| == |status0[k]|) &&
    forall k, ch :: k in status && 0 <= ch < |status[k]| ==>
      status[k][ch] == if (k, ch) in smp.fired[..j] then ChannelStep(status0[k][ch], true, (k, ch) in smp.high, false)
                       else status0[k][ch]
  }

  /** The `csa_disable` lists once the first `j` fired pairs of the pass
      that starts from `status0` and `csaDisable0` were visited. */
  ghost predicate FiredLists(csaDisable: map<ChipKey, seq<int>>, csaDisable0: map<ChipKey, seq<int>>,
                             status0: map<ChipKey, seq<TrimState>>, smp: Sample, j: int)
    requires 0 <= j <= |smp.fired|
  {
    csaDisable.Keys == csaDisable0.Keys &&
    forall k :: k in csaDisable ==> csaDisable[k] == csaDisable0[k] + MaxedOut(status0, smp.fired[..j], smp.high, k)
  }

  /** Both halves of the state once the first `j` fired pairs were visited. */
  ghost predicate FiredDone(u: Toggling, t: Toggling, smp: Sample, j: int)
    requires 0 <= j <= |smp.fired|
  {
    FiredStatus(u.status, t.status, smp, j) && FiredLists(u.csaDisable, t.csaDisable, t.status, smp, j)
  }

  /** The entry of the `j`-th fired pair after its visit. */
  lemma FiredStatusStep(status: map<ChipKey, seq<TrimState>>, status0: map<ChipKey, seq<TrimState>>,
                        smp: Sample, j: int, status': map<ChipKey, seq<TrimState>>)
    requires 0 <= j < |smp.fired| && Distinct(smp.fired) && FiredStatus(status, status0, smp, j)
    requires var (chip, ch) := smp.fired[j];
      if chip in status && 0 <= ch < |status[chip]|
      then status' == status[chip := status[chip][ch := ChannelStep(status0[chip][ch], true, (chip, ch) in smp.high, false)]]
      else status' == status
    ensures FiredStatus(status', status0, smp, j + 1)
  {
    var (chip, channel) := smp.fired[j];
    assert smp.fired[..j + 1] == smp.fired[..j] + [(chip, channel)];
    forall k, ch | k in status' && 0 <= ch < |status'[k]|
      ensures status'[k][ch] == if (k, ch) in smp.fired[..j + 1] then ChannelStep(status0[k][ch], true, (k, ch) in smp.high, false)
                                else status0[k][ch]
    {
      if (k, ch) != (chip, channel) {
        assert status'[k][ch] == status[k][ch];
      }
    }
  }

  /** The `csa_disable` lists after the visit of the `j`-th fired pair. */
  lemma FiredListsStep(csaDisable: map<ChipKey, seq<int>>, csaDisable0: map<ChipKey, seq<int>>,
                       status0: map<ChipKey, seq<TrimState>>, smp: Sample, j: int, csaDisable': map<ChipKey, seq<int>>)
    requires 0 <= j < |smp.fired| && FiredLists(csaDisable, csaDisable0, status0, smp, j)
    requires var (chip, ch) := smp.fired[j];
      var maxed := chip in status0 && 0 <= ch < |status0[chip]| && status0[chip][ch].active &&
        (chip, ch) in smp.high && status0[chip][ch].trim + 1 > 31;
      if maxed && chip in csaDisable then csaDisable' == csaDisable[chip := csaDisable[chip] + [ch]]
      else csaDisable' == csaDisable
    ensures FiredLists(csaDisable', csaDisable0, status0, smp, j + 1)
  {
    var (chip, channel) := smp.fired[j];
    assert smp.fired[..j + 1][..j] == smp.fired[..j];
    forall k | k in csaDisable'
      ensures csaDisable'[k] == csaDisable0[k] + MaxedOut(status0, smp.fired[..j + 1], smp.high, k)
    {
      if k == chip && csaDisable' != csaDisable {
        assert csaDisable'[k] == csaDisable0[k] + MaxedOut(status0, smp.fired[..j], smp.high, k) + [channel];
      }
    }
  }

  /** One fired pair of the toggle loop: a tuned channel whose rate reached
      `set_rate` gets one trim step up and is no longer tuned, given up with
      its channel appended to `csa_disable` when that passes 31; a quieter
      one gets one step down, no longer tuned when that passes 0. */
  method FiredStep(u: Toggling, ghost t: Toggling, smp: Sample, j: int) returns (u': Toggling)
    requires 0 <= j < |smp.fired| && SampleOk(smp) && StatusOk(t) && FiredDone(u, t, smp, j)
    ensures FiredDone(u', t, smp, j + 1)
  {
    var (chip, channel) := smp.fired[j];
    assert (chip, channel) !in smp.fired[..j];
    var status: map<ChipKey, seq<TrimState>>, csaDisable: map<ChipKey, seq<int>> := u.status, u.csaDisable;
    if chip in status && status[chip][channel].active {
      var s := status[chip][channel];
      var s': TrimState;
      if (chip, channel) in smp.high {
        if s.trim + 1 > 31 {
          s' := TrimState(31, false, true);
          csaDisable := csaDisable[chip := csaDisable[chip] + [channel]];
        } else {
          s' := TrimState(s.trim + 1, false, s.disable);
        }
      } else if s.trim - 1 < 0 {
        s' := TrimState(0, false, s.disable);
      } else {
        s' := TrimState(s.trim - 1, true, s.disable);
      }
      assert s == t.status[chip][channel] && s' == ChannelStep(s, true, (chip, channel) in smp.high, false);
      status := status[chip := status[chip][channel := s']];
    } else if chip in status {
      assert status[chip][channel] == t.status[chip][channel];
      assert status[chip][channel := status[chip][channel]] == status[chip];
    }
    FiredStatusStep(u.status, t.status, smp, j, status);
    FiredListsStep(u.csaDisable, t.csaDisable, t.status, smp, j, csaDisable);
    u' := Toggling(status, csaDisable);
  }

  /** The second half of a pass on one channel: a channel that did not
      fire this pass and is among the tuned `channels` steps down. */
  function Quiet(s: TrimState, fired: bool, tuned: bool): TrimState
  {
    if fired then s else ChannelStep(s, false, false, tuned)
  }

  /** The second half of a pass on one chip's entries. */
  function QuietRow(row: seq<TrimState>, chip: ChipKey, smp: Sample, channels: seq<int>): seq<TrimState>
  {
    seq(|row|, ch requires 0 <= ch < |row| => Quiet(row[ch], (chip, ch) in smp.fired, ch in channels))
  }

  /** The channel loop of the second half of a pass for one chip; a chip
      with no channel still tuned is skipped. */
  method QuietChip(row: seq<TrimState>, chip: ChipKey, smp: Sample, channels: seq<int>) returns (row': seq<TrimState>)
    requires |row| == NumChannels && Distinct(channels) && ValidChannels(channels)
    ensures row' == QuietRow(row, chip, smp, channels)
  {
    row' := row;
    if forall ch | 0 <= ch < |row| :: !row[ch].active {
      return;
    }
    for m := 0 to |channels|
      invariant |row'| == |row|
      invariant forall ch :: 0 <= ch < |row| ==> row'[ch] == Quiet(row[ch], (chip, ch) in smp.fired, ch in channels[..m])
    {
      var channel := channels[m];
      assert channels[..m + 1] == channels[..m] + [channel];
      assert channel !in channels[..m];
      if !row'[channel].active {
        continue;
      }
      if (chip, channel) in smp.fired {
        continue;
      }
      var s := row'[channel];
      row' := row'[channel := if s.trim - 1 < 0 then TrimState(0, false, s.disable) else TrimState(s.trim - 1, true, s.disable)];
    }
    assert channels[..|channels|] == channels;
  }

  /** The second half of a pass on every chip's entries. */
  function QuietStatus(status: map<ChipKey, seq<TrimState>>, smp: Sample, channels: seq<int>): map<ChipKey, seq<TrimState>>
  {
    map k | k in status :: QuietRow(status[k], k, smp, channels)
  }

  /** The entries once the chips of `done` went through the second half of
      a pass. */
  ghost predicate QuietDone(status': map<ChipKey, seq<TrimState>>, status: map<ChipKey, seq<TrimState>>,
                            smp: Sample, channels: seq<int>, done: set<ChipKey>)
  {
    status'.Keys == status.Keys &&
    forall k :: k in status' ==> status'[k] == if k in done then QuietRow(status[k], k, smp, channels) else status[k]
  }

  /** One turn of the chip loop of the second half of a pass. */
  method QuietNext(order: seq<ChipKey>, i: int, status': map<ChipKey, seq<TrimState>>, ghost status: map<ChipKey, seq<TrimState>>,
                   smp: Sample, channels: seq<int>, ghost done: set<ChipKey>)
    returns (status'': map<ChipKey, seq<TrimState>>, ghost done': set<ChipKey>)
    requires 0 <= i < |order| && Distinct(order) && (forall k :: k in status <==> k in order)
    requires (forall k :: k in status ==> |status[k]| == NumChannels) && Distinct(channels) && ValidChannels(channels)
    requires (forall k :: k in done <==> k in order[..i]) && QuietDone(status', status, smp, channels, done)
    ensures (forall k :: k in done' <==> k in order[..i + 1]) && QuietDone(status'', status, smp, channels, done')
  {
    var chip := order[i];
    assert order[..i + 1] == order[..i] + [chip];
    assert chip !in order[..i];
    var row := QuietChip(status'[chip], chip, smp, channels);
    status'' := status'[chip := row];
    done' := done + {chip};
  }

  /** The chip loop of the second half of a pass, over the controller's
      chips. */
  method QuietPass(order: seq<ChipKey>, status: map<ChipKey, seq<TrimState>>, smp: Sample, channels: seq<int>)
    returns (status': map<ChipKey, seq<TrimState>>)
    requires Distinct(order) && (forall k :: k in status <==> k in order)
    requires (forall k :: k in status ==> |status[k]| == NumChannels) && Distinct(channels) && ValidChannels(channels)
    ensures status' == QuietStatus(status, smp, channels)
  {
    status' := status;
    ghost var done: set<ChipKey> := {};
    for i := 0 to |order|
      invariant (forall k :: k in done <==> k in order[..i]) && QuietDone(status', status, smp, channels, done)
    {
      status', done := QuietNext(order, i, status', status, smp, channels, done);
    }
    assert order[..|order|] == order;
  }

  /** The two halves of a pass in turn are one `Round`. */
  lemma FiredThenQuiet(u: Toggling, t: Toggling, smp: Sample, channels: seq<int>)
    requires StatusOk(t) && FiredDone(u, t, smp, |smp.fired|)
    ensures Toggling(QuietStatus(u.status, smp, channels), u.csaDisable) == Round(t, smp, channels)
  {
    var r := Round(t, smp, channels);
    assert smp.fired[..|smp.fired|] == smp.fired;
    assert QuietStatus(u.status, smp, channels) == r.status by {
      forall k | k in u.status
        ensures QuietRow(u.status[k], k, smp, channels) == r.status[k]
      {
        RowAfterFired(u, t, smp, channels, k);
      }
    }
    assert u.csaDisable == r.csaDisable;
  }

  /** One chip's entries after both halves of a pass. */
  lemma RowAfterFired(u: Toggling, t: Toggling, smp: Sample, channels: seq<int>, k: ChipKey)
    requires StatusOk(t) && FiredStatus(u.status, t.status, smp, |smp.fired|) && k in u.status
    ensures QuietRow(u.status[k], k, smp, channels) == Round(t, smp, channels).status[k]
  {
    assert smp.fired[..|smp.fired|] == smp.fired;
    var q := QuietRow(u.status[k], k, smp, channels);
    forall ch | 0 <= ch < |q|
      ensures q[ch] == Round(t, smp, channels).status[k][ch]
    {
      QuietAfterFired(t.status[k][ch], (k, ch) in smp.fired, (k, ch) in smp.high, ch in channels);
    }
  }

  /** On one channel, the second half of a pass after the first is the
      whole `ChannelStep`. */
  lemma QuietAfterFired(s: TrimState, fired: bool, high: bool, tuned: bool)
    ensures Quiet(if fired then ChannelStep(s, true, high, false) else s, fired, tuned) == ChannelStep(s, fired, high, tuned)
  {
  }

  /** One pass of the toggle loop: the fired pairs, then the quiet tuned
      channels of every chip. */
  method Pass(order: seq<ChipKey>, t: Toggling, smp: Sample, channels: seq<int>) returns (t': Toggling)
    requires StatusOk(t) && Distinct(order) && (forall k :: k in t.status <==> k in order)
    requires SampleOk(smp) && Distinct(channels) && ValidChannels(channels)
    ensures t' == Round(t, smp, channels)
  {
    var u := t;
    for j := 0 to |smp.fired|
      invariant FiredDone(u, t, smp, j)
    {
      u := FiredStep(u, t, smp, j);
    }
    var status := QuietPass(order, u.status, smp, channels);
    FiredThenQuiet(u, t, smp, channels);
    t' := Toggling(status, u.csaDisable);
  }

  /** The channel loop that sets up one chip's status. */
  method StartRow(trims: seq<int>, disabled: seq<int>) returns (row: seq<TrimState>)
    requires |trims| == NumChannels
    ensures row == StartChip(trims, disabled)
  {
    row := seq(NumChannels, ch requires 0 <= ch < NumChannels => TrimState(trims[ch], true, false));
    for channel := 0 to NumChannels
      invariant |row| == NumChannels
      invariant forall ch :: 0 <= ch < NumChannels ==>
        row[ch] == if ch < channel then StartChip(trims, disabled)[ch] else TrimState(trims[ch], true, false)
    {
      if channel in disabled {
        row := row[channel := row[channel].(active := false, disable := true)];
      }
    }
  }

  /** The status `toggle_trim` starts from, or `None` where a chip of the
      controller has no `csa_disable` entry (the lookup raises). */
  method InitStatus(fe: Chips, csaDisable: map<ChipKey, seq<int>>) returns (status: Option<map<ChipKey, seq<TrimState>>>)
    requires fe.Valid()
    ensures status.None? <==> exists i :: 0 <= i < |fe.order| && fe.order[i] !in csaDisable
    ensures status.Some? ==> status.value == Start(fe.regs, csaDisable).status
  {
    var m: map<ChipKey, seq<TrimState>> := map[];
    for i := 0 to |fe.order|
      invariant forall k :: k in m <==> k in fe.order[..i]
      invariant forall j :: 0 <= j < i ==> fe.order[j] in csaDisable
      invariant forall k :: k in m ==> k in csaDisable && m[k] == StartChip(fe.regs[k].pixelTrim, csaDisable[k])
    {
      var chip := fe.order[i];
      assert fe.order[..i + 1] == fe.order[..i] + [chip];
      if chip !in csaDisable {
        return None;
      }
      var row := StartRow(fe.regs[chip].pixelTrim, csaDisable[chip]);
      m := m[chip := row];
    }
    assert fe.order[..|fe.order|] == fe.order;
    status := Some(m);
  }

  /** The stop test of the toggle loop: whether some chip still has a
      tuned channel. */
  method StillTuning(order: seq<ChipKey>, status: map<ChipKey, seq<TrimState>>) returns (b: bool)
    requires forall k :: k in status <==> k in order
    ensures b == AnyActive(status)
  {
    for i := 0 to |order|
      invariant forall j :: 0 <= j < i ==> forall ch :: 0 <= ch < |status[order[j]]| ==> !status[order[j]][ch].active
    {
      var row := status[order[i]];
      if exists ch | 0 <= ch < |row| :: row[ch].active {
        return true;
      }
    }
    b := false;
  }

  /** After a pass, the registers `update_chip` wrote for every pass so far
      are those it writes for the last one. */
  lemma UpdatesAbsorb(regs0: map<ChipKey, Regs>, regs: map<ChipKey, Regs>, regs': map<ChipKey, Regs>,
                      t: Toggling, t': Toggling, n: int)
    requires n >= 0 && StatusOk(t) && WrittenFor(regs, regs0, t, n) && t'.status.Keys == t.status.Keys && regs'.Keys == regs0.Keys
    requires forall k :: k in t'.status ==> |t'.status[k]| == NumChannels
    requires forall k, ch :: k in t.status && 0 <= ch < NumChannels && Off(t.status[k][ch]) ==> Off(t'.status[k][ch])
    requires forall k :: k in regs' ==> regs'[k] == Applied(regs[k], t'.status[k])
    ensures WrittenFor(regs', regs0, t', n + 1)
  {
    forall k | k in regs'
      ensures regs'[k] == Applied(regs0[k], t'.status[k]) && WellFormed(regs'[k])
    {
      if n != 0 {
        AppliedAbsorbs(regs0[k], t.status[k], t'.status[k]);
      }
    }
  }

  /** The passes of the toggle loop so far: `n` passes ran, each but the
      last left a channel tuned, and `flag` says whether one still is. */
  ghost predicate PassesDone(t: Toggling, t0: Toggling, order: seq<ChipKey>, samples: seq<Sample>, channels: seq<int>,
                             n: int, flag: bool)
  {
    0 <= n <= |samples| && StatusOk(t0) && t == Rounds(t0, samples[..n], channels) && StatusOk(t) &&
    (forall k :: k in t.status <==> k in order) &&
    flag == (n == 0 || AnyActive(t.status)) &&
    forall j :: 0 < j < n ==> AnyActive(Rounds(t0, samples[..j], channels).status)
  }

  /** The chips' registers after the passes so far: those `update_chip`
      wrote for the last one. */
  ghost predicate WrittenFor(regs: map<ChipKey, Regs>, regs0: map<ChipKey, Regs>, t: Toggling, n: int)
  {
    regs.Keys == regs0.Keys &&
    (forall k :: k in regs0 ==> WellFormed(regs0[k]) && k in t.status && |t.status[k]| == NumChannels) &&
    (forall k :: k in regs ==> regs[k] == if n == 0 then regs0[k] else Applied(regs0[k], t.status[k])) &&
    forall k :: k in regs ==> WellFormed(regs[k])
  }

  /** One pass of the toggle loop followed by `update_chip` and the stop
      test. */
  method ToggleNext(fe: Chips, t: Toggling, samples: seq<Sample>, n: int, channels: seq<int>,
                    ghost t0: Toggling, ghost regs0: map<ChipKey, Regs>)
    returns (t': Toggling, flag: bool)
    requires fe.Valid() && Distinct(channels) && ValidChannels(channels) && n < |samples|
    requires forall i :: 0 <= i < |samples| ==> SampleOk(samples[i])
    requires PassesDone(t, t0, fe.order, samples, channels, n, true) && WrittenFor(fe.regs, regs0, t, n)
    modifies fe
    ensures fe.Valid() && fe.order == old(fe.order)
    ensures PassesDone(t', t0, fe.order, samples, channels, n + 1, flag) && WrittenFor(fe.regs, regs0, t', n + 1)
  {
    t' := Pass(fe.order, t, samples[n], channels);
    RoundKeeps(t, samples[n], channels);
    ghost var regs := fe.regs;
    UpdateChip(fe, t'.status);
    UpdatesAbsorb(regs0, regs, fe.regs, t, t', n);
    flag := StillTuning(fe.order, t'.status);
    PassesStep(t, t', t0, fe.order, samples, channels, n, flag);
  }

  /** One more pass keeps `PassesDone`. */
  lemma PassesStep(t: Toggling, t': Toggling, t0: Toggling, order: seq<ChipKey>, samples: seq<Sample>,
                   channels: seq<int>, n: int, flag: bool)
    requires PassesDone(t, t0, order, samples, channels, n, true) && n < |samples|
    requires t' == Round(t, samples[n], channels) && flag == AnyActive(t'.status)
    ensures PassesDone(t', t0, order, samples, channels, n + 1, flag)
  {
    assert samples[..n + 1][..n] == samples[..n];
    RoundKeeps(t, samples[n], channels);
  }

  /** `toggle_trim`, fed the samples the controller reads, pass after
      pass: it stops once no channel is tuned any more (or when the samples
      run out), returns the grown `csa_disable` lists and writes each pass's
      trims and switched-off channels to the chips. `None` when a chip has
      no `csa_disable` entry. */
  method ToggleTrim(fe: Chips, channels: seq<int>, csaDisable: map<ChipKey, seq<int>>, samples: seq<Sample>)
    returns (result: Option<(map<ChipKey, seq<int>>, nat)>)
    requires fe.Valid() && Distinct(channels) && ValidChannels(channels)
    requires forall i :: 0 <= i < |samples| ==> SampleOk(samples[i])
    modifies fe
    ensures fe.Valid() && fe.order == old(fe.order) && fe.regs.Keys == old(fe.regs.Keys)
    ensures result.None? <==> exists i :: 0 <= i < |fe.order| && fe.order[i] !in csaDisable
    ensures result.None? ==> fe.regs == old(fe.regs)
    ensures result.Some? ==>
      var t0 := Start(old(fe.regs), csaDisable);
      var n := result.value.1;
      n <= |samples| && (|samples| > 0 ==> n > 0) &&
      result.value.0 == Rounds(t0, samples[..n], channels).csaDisable &&
      (n < |samples| ==> !AnyActive(Rounds(t0, samples[..n], channels).status)) &&
      (forall j :: 0 < j < n ==> AnyActive(Rounds(t0, samples[..j], channels).status)) &&
      (n == 0 ==> fe.regs == old(fe.regs)) &&
      (n > 0 ==> forall k :: k in fe.regs ==>
         var st := Rounds(t0, samples[..n], channels).status;
         k in st && |st[k]| == NumChannels && WellFormed(old(fe.regs[k])) &&
         fe.regs[k] == Applied(old(fe.regs[k]), st[k]))
  {
    var init := InitStatus(fe, csaDisable);
    if init.None? {
      return None;
    }
    ghost var regs0 := fe.regs;
    var t := Toggling(init.value, csaDisable);
    var t0 := t;
    assert samples[..0] == [];
    PassesStart(t0, regs0, fe.order, samples, channels);
    var n, flag;
    t, n, flag := TogglePasses(fe, t0, samples, channels, regs0);
    PassesFinish(t, t0, fe.order, samples, channels, n, flag, fe.regs, regs0);
    result := Some((t.csaDisable, n));
  }

  /** The pass loop of `toggle_trim`: passes run while some channel is still
      tuned, at most one per sample. */
  method TogglePasses(fe: Chips, t0: Toggling, samples: seq<Sample>, channels: seq<int>, ghost regs0: map<ChipKey, Regs>)
    returns (t: Toggling, n: int, flag: bool)
    requires fe.Valid() && Distinct(channels) && ValidChannels(channels)
    requires forall i :: 0 <= i < |samples| ==> SampleOk(samples[i])
    requires PassesDone(t0, t0, fe.order, samples, channels, 0, true) && WrittenFor(fe.regs, regs0, t0, 0)
    modifies fe
    ensures fe.Valid() && fe.order == old(fe.order)
    ensures PassesDone(t, t0, fe.order, samples, channels, n, flag) && WrittenFor(fe.regs, regs0, t, n)
    ensures !(flag && n < |samples|)
  {
    t, n, flag := t0, 0, true;
    while flag && n < |samples|
      invariant fe.Valid() && fe.order == old(fe.order)
      invariant PassesDone(t, t0, fe.order, samples, channels, n, flag) && WrittenFor(fe.regs, regs0, t, n)
      decreases |samples| - n
    {
      t, flag := ToggleNext(fe, t, samples, n, channels, t0, regs0);
      n := n + 1;
    }
  }

  /** Before the first pass. */
  lemma PassesStart(t0: Toggling, regs0: map<ChipKey, Regs>, order: seq<ChipKey>, samples: seq<Sample>, channels: seq<int>)
    requires StatusOk(t0) && (forall k :: k in t0.status <==> k in order)
    requires regs0.Keys == t0.status.Keys
    requires forall k :: k in regs0 ==> WellFormed(regs0[k]) && |t0.status[k]| == NumChannels
    ensures PassesDone(t0, t0, order, samples, channels, 0, true) && WrittenFor(regs0, regs0, t0, 0)
  {
    assert samples[..0] == [];
  }

  /** What the loop's state says once it stops. */
  lemma PassesFinish(t: Toggling, t0: Toggling, order: seq<ChipKey>, samples: seq<Sample>, channels: seq<int>,
                     n: int, flag: bool, regs: map<ChipKey, Regs>, regs0: map<ChipKey, Regs>)
    requires PassesDone(t, t0, order, samples, channels, n, flag) && WrittenFor(regs, regs0, t, n)
    requires !(flag && n < |samples|)
    ensures n <= |samples| && (|samples| > 0 ==> n > 0)
    ensures t.csaDisable == Rounds(t0, samples[..n], channels).csaDisable
    ensures n < |samples| ==> !AnyActive(Rounds(t0, samples[..n], channels).status)
    ensures forall j :: 0 < j < n ==> AnyActive(Rounds(t0, samples[..j], channels).status)
    ensures n == 0 ==> regs == regs0
    ensures n > 0 ==> forall k :: k in regs ==>
              var st := Rounds(t0, samples[..n], channels).status;
              k in st && |st[k]| == NumChannels && WellFormed(regs0[k]) && regs[k] == Applied(regs0[k], st[k])
  {
  }

  /** When every active channel is one of `channels` and every trim starts
      within [0, 31], the toggle loop runs at most 32 passes: a run of
      passes that each left a channel tuned is no longer than that. */
  lemma PassesBounded(t0: Toggling, samples: seq<Sample>, channels: seq<int>, n: int)
    requires StatusOk(t0) && TrimsInRange(t0.status) && n <= |samples|
    requires ActiveTuned(t0.status, channels)
    requires forall j :: 0 < j < n ==> AnyActive(Rounds(t0, samples[..j], channels).status)
    ensures n <= 32
  {
    if n > 32 {
      AllTunedSettle(t0, samples[..32], channels);
      assert false;
    }
  }

  // ---------------------------------------------------------------------
  // find_global_dac_seed and find_trim_dac_seed

  /** The clamp both seed searches apply to the rounded DAC value they
      computed: into [0, hi]. */
  function Clamp(v: int, hi: int): (r: int)
    requires 0 <= hi
    ensures 0 <= r <= hi
    ensures 0 <= v <= hi ==> r == v
    ensures v < 0 ==> r == 0
    ensures v > hi ==> r == hi
  {
    var r := if v < 0 then 0 else v;
    if r > hi then hi else r
  }

  function Abs(n: int): (r: int)
    ensures r >= 0 && (r == n || r == -n)
  {
    if n < 0 then -n else n
  }

  /** The clamp is the nearest value of the range and keeps the order. */
  lemma ClampNearest(v: int, w: int, hi: int, x: int)
    requires 0 <= hi && 0 <= x <= hi
    ensures Abs(Clamp(v, hi) - v) <= Abs(x - v)
    ensures v <= w ==> Clamp(v, hi) <= Clamp(w, hi)
  {
  }

  /** The front end `find_global_dac_seed` writes for a chip with a
      pedestal: the clamped global threshold and every trim at 31. */
  function GlobalSeed(r: Regs, dac: int): (r': Regs)
    ensures 0 <= r'.thresholdGlobal <= 255 && (0 <= dac <= 255 ==> r'.thresholdGlobal == dac)
    ensures |r'.pixelTrim| == NumChannels && forall ch :: 0 <= ch < NumChannels ==> r'.pixelTrim[ch] == 31
    ensures r'.csaEnable == r.csaEnable && r'.channelMask == r.channelMask && r'.triggerMask == r.triggerMask
  {
    r.(thresholdGlobal := Clamp(dac, 255), pixelTrim := seq(NumChannels, _ => 31))
  }

  /** The front end `find_trim_dac_seed` writes for one channel with a
      pedestal: that channel's trim, clamped to [0, 31]. */
  function TrimSeed(r: Regs, ch: int, dac: int): (r': Regs)
    requires WellFormed(r) && ValidChannel(ch)
    ensures WellFormed(r') && 0 <= r'.pixelTrim[ch] <= 31 && (0 <= dac <= 31 ==> r'.pixelTrim[ch] == dac)
    ensures forall c :: 0 <= c < NumChannels && c != ch ==> r'.pixelTrim[c] == r.pixelTrim[c]
    ensures r'.(pixelTrim := r.pixelTrim) == r
  {
    r.(pixelTrim := r.pixelTrim[ch := Clamp(dac, 31)])
  }
}
