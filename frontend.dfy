/** The analog front-end registers the checkout scripts rewrite on every
    chip of a running controller, and the disabled-channel lists that decide
    which channels stay switched off. */
module Frontend {
  import opened Common

  /** The front-end part of a LArPix-v2 configuration: per channel the CSA
      enable bit (registers 66-73), the channel mask (131-138), the periodic
      trigger mask (155-162) and the 5-bit pixel trim DAC (0-63), and the
      global threshold DAC (64). */
  datatype Regs = Regs(csaEnable: seq<int>, channelMask: seq<int>, triggerMask: seq<int>,
                       pixelTrim: seq<int>, thresholdGlobal: int)

  predicate WellFormed(r: Regs)
  {
    |r.csaEnable| == NumChannels && |r.channelMask| == NumChannels &&
    |r.triggerMask| == NumChannels && |r.pixelTrim| == NumChannels
  }

  /** The controller's chips (`c.chips`, in insertion order) and the
      front-end registers of each chip's configuration. */
  class Chips {
    var order: seq<ChipKey>
    var regs: map<ChipKey, Regs>

    ghost predicate Valid()
      reads this
    {
      Distinct(order) && (forall k :: k in regs <==> k in order) &&
      forall k :: k in regs ==> WellFormed(regs[k])
    }

    constructor (order: seq<ChipKey>, regs: map<ChipKey, Regs>)
      requires Distinct(order) && (forall k :: k in regs <==> k in order)
      requires forall k :: k in regs ==> WellFormed(regs[k])
      ensures Valid() && this.order == order && this.regs == regs
    {
      this.order := order;
      this.regs := regs;
    }

    /** `c[chip].config` replaced by `r`. */
    method Set(chip: ChipKey, r: Regs)
      requires Valid() && chip in regs && WellFormed(r)
      modifies this
      ensures Valid() && order == old(order) && regs == old(regs)[chip := r]
    {
      regs := regs[chip := r];
    }
  }

  /** Every channel that the entries of `d` applying to `chip` list, entry
      after entry: what the loop `for key in disabled: if key == chip_key or
      key == 'All': for channel in disabled[key]` visits. */
  function Listed(d: DisabledList, chip: ChipKey): (r: seq<int>)
    ensures ValidChannelsIn(d) ==> ValidChannels(r)
  {
    if d == [] then []
    else
      var front := Listed(d[..|d| - 1], chip);
      var last := d[|d| - 1];
      assert forall i :: 0 <= i < |d| - 1 ==> d[..|d| - 1][i] == d[i];
      front + (if AppliesTo(last.0, chip) then last.1 else [])
  }

  /** A channel is listed for a chip exactly when some entry that applies
      to the chip names it. */
  lemma {:induction false} ListedHas(d: DisabledList, chip: ChipKey, ch: int)
    ensures ch in Listed(d, chip) <==> exists i :: 0 <= i < |d| && AppliesTo(d[i].0, chip) && ch in d[i].1
  {
    if d != [] {
      var front := d[..|d| - 1];
      ListedHas(front, chip, ch);
      if ch in Listed(d, chip) && ch !in Listed(front, chip) {
        assert AppliesTo(d[|d| - 1].0, chip) && ch in d[|d| - 1].1;
      }
      if exists i :: 0 <= i < |d| && AppliesTo(d[i].0, chip) && ch in d[i].1 {
        var i :| 0 <= i < |d| && AppliesTo(d[i].0, chip) && ch in d[i].1;
        if i < |d| - 1 {
          assert front[i] == d[i];
        }
      }
    }
  }

  /** Every channel a disabled list names is a channel of the chip. */
  predicate ValidChannelsIn(d: DisabledList)
  {
    forall i :: 0 <= i < |d| ==> ValidChannels(d[i].1)
  }

  /** `key in d` and `d[key]` on a disabled list read from JSON. */
  function Lookup(d: DisabledList, key: ListKey): (r: Option<seq<int>>)
    ensures r.None? <==> forall i :: 0 <= i < |d| ==> d[i].0 != key
    ensures r.Some? ==> exists i :: 0 <= i < |d| && d[i] == (key, r.value)
  {
    if d == [] then None
    else if d[0].0 == key then Some(d[0].1)
    else
      var r := Lookup(d[1..], key);
      assert forall i :: 1 <= i < |d| ==> d[1..][i - 1] == d[i];
      r
  }

  /** The default list when none is given: the non-routed channels on every
      chip. */
  const DefaultDisabled: DisabledList := [(All, Nonrouted)]

  /** A dictionary lookup that falls back to the empty list. */
  function Get<K>(m: map<K, seq<int>>, k: K): seq<int>
  {
    if k in m then m[k] else []
  }

  /** The 64 flags of a chip with `on` at each listed channel and `off`
      elsewhere. */
  function Flags(listed: seq<int>, on: int, off: int): seq<int>
  {
    seq(NumChannels, ch => if ch in listed then on else off)
  }

  /** `flags` with every listed channel overwritten by `v`. */
  function Overwrite(flags: seq<int>, listed: seq<int>, v: int): seq<int>
  {
    seq(|flags|, ch requires 0 <= ch < |flags| => if ch in listed then v else flags[ch])
  }

  /** Overwriting channel after channel is overwriting the whole list. */
  lemma OverwriteStep(flags: seq<int>, listed: seq<int>, ch: int, v: int)
    requires 0 <= ch < |flags|
    ensures Overwrite(flags, listed + [ch], v) == Overwrite(flags, listed, v)[ch := v]
  {
  }

  /** Overwriting with two lists in turn is overwriting with both. */
  lemma OverwriteTwice(flags: seq<int>, a: seq<int>, b: seq<int>, v: int)
    ensures Overwrite(Overwrite(flags, a, v), b, v) == Overwrite(flags, a + b, v)
  {
  }

  /** Flags are the all-`off` list with the listed channels overwritten. */
  lemma FlagsAsOverwrite(listed: seq<int>, on: int, off: int)
    ensures Flags(listed, on, off) == Overwrite(seq(NumChannels, _ => off), listed, on)
  {
  }

  /** A register difference the enforcement reports: a chip and the
      registers that read back differently. */
  type Diff = seq<(ChipKey, seq<int>)>

  /** The CSA enable registers 66 to 73. */
  predicate IsCsaRegister(reg: int)
  {
    66 <= reg < 74
  }
}
