/** The base bring-up of a tile: the table of ADC registers through which the
    tile power is read back, the loop that drains stale data, and the analog
    settings every chip receives before they are enforced. */
module BaseConfig {
  import opened Common

  /** The four power-monitor ADCs of a tile, in the order the table lists
      them. */
  datatype Adc = Vdda | Idda | Vddd | Iddd

  const Adcs: seq<Adc> := [Vdda, Idda, Vddd, Iddd]

  /** Number of tiles on a PACMAN board. */
  const NumTiles: int := 8

  /** The register offset of one ADC of tile `tile` (tiles count from 1):
      each tile owns a block of 32 offsets, its analog pair at the bottom
      and its digital pair 16 higher, the voltage above the current. */
  function Offset(tile: int, adc: Adc): (r: int)
    ensures (tile - 1) * 32 <= r < tile * 32
    ensures adc == Vdda || adc == Vddd <==> r % 2 == 1
    ensures adc == Vddd || adc == Iddd <==> r - (tile - 1) * 32 >= 16
  {
    match adc
    case Vddd => (tile - 1) * 32 + 17
    case Iddd => (tile - 1) * 32 + 16
    case Vdda => (tile - 1) * 32 + 1
    case Idda => (tile - 1) * 32
  }

  /** Within a tile the four ADCs have different offsets. */
  lemma OffsetsDistinctInTile(tile: int, a: Adc, b: Adc)
    requires a != b
    ensures Offset(tile, a) != Offset(tile, b)
  {
  }

  /** Different tiles share no offset, and all offsets of tiles 1..8 are
      byte values. */
  lemma OffsetsDisjoint(i: int, j: int, a: Adc, b: Adc)
    requires 1 <= i <= NumTiles && 1 <= j <= NumTiles && i != j
    ensures Offset(i, a) != Offset(j, b)
    ensures 0 <= Offset(i, a) <= 255
  {
    if i < j {
      MulMonotone(32, j - i);
    } else {
      MulMonotone(32, i - j);
    }
  }

  /** `power_registers`: for each tile 1..8 its four offsets in
      VDDA, IDDA, VDDD, IDDD order. */
  method PowerRegisters() returns (data: map<int, seq<int>>)
    ensures forall i :: i in data <==> 1 <= i <= NumTiles
    ensures forall i :: i in data ==>
              data[i] == [32 * (i - 1) + 1, 32 * (i - 1), 32 * (i - 1) + 17, 32 * (i - 1) + 16]
  {
    data := map[];
    for i := 1 to NumTiles + 1
      invariant forall t :: t in data <==> 1 <= t < i
      invariant forall t :: t in data ==>
                  data[t] == [32 * (t - 1) + 1, 32 * (t - 1), 32 * (t - 1) + 17, 32 * (t - 1) + 16]
    {
      var l := [];
      var offset := 0;
      for a := 0 to |Adcs|
        invariant |l| == a
        invariant forall b :: 0 <= b < a ==> l[b] == Offset(i, Adcs[b])
      {
        var adc := Adcs[a];
        if adc == Vddd { offset := (i - 1) * 32 + 17; }
        if adc == Iddd { offset := (i - 1) * 32 + 16; }
        if adc == Vdda { offset := (i - 1) * 32 + 1; }
        if adc == Idda { offset := (i - 1) * 32; }
        l := l + [offset];
      }
      data := data[i := l];
    }
  }

  /** `flush_data`: run the controller for a short while, at most
      `maxIterations` times, stopping right after a run whose data rate was
      within the limit. `quiet(k)` says whether the `k`-th run read few
      enough packets; the result is the number of runs made. */
  method FlushData(quiet: nat -> bool, maxIterations: int) returns (runs: nat)
    ensures runs <= if maxIterations < 0 then 0 else maxIterations
    ensures forall k :: 0 <= k < runs - 1 ==> !quiet(k)
    ensures runs == 0 <==> maxIterations <= 0
    ensures runs > 0 && runs < maxIterations ==> quiet(runs - 1)
  {
    runs := 0;
    while runs < maxIterations
      invariant runs <= if maxIterations < 0 then 0 else maxIterations
      invariant forall k :: 0 <= k < runs ==> !quiet(k)
    {
      runs := runs + 1;
      if quiet(runs - 1) {
        return;
      }
    }
  }

  /** The first run within the limit, when there is one: the flush makes
      exactly one more run than the noisy ones before it, unless the
      iteration budget runs out first. */
  lemma FlushStopsAtFirstQuiet(quiet: nat -> bool, maxIterations: int, runs: nat, first: nat)
    requires runs <= if maxIterations < 0 then 0 else maxIterations
    requires forall k :: 0 <= k < runs - 1 ==> !quiet(k)
    requires runs == 0 <==> maxIterations <= 0
    requires runs > 0 && runs < maxIterations ==> quiet(runs - 1)
    requires quiet(first) && forall k :: 0 <= k < first ==> !quiet(k)
    ensures runs == if first + 1 < maxIterations then first + 1 else if maxIterations < 0 then 0 else maxIterations
  {
    if runs > 0 && runs < maxIterations {
      assert !(runs - 1 < first);
    }
  }

  /** When no run is ever quiet the flush uses its whole budget. */
  lemma FlushWithoutQuiet(quiet: nat -> bool, maxIterations: int, runs: nat)
    requires runs <= if maxIterations < 0 then 0 else maxIterations
    requires runs == 0 <==> maxIterations <= 0
    requires runs > 0 && runs < maxIterations ==> quiet(runs - 1)
    requires forall k: nat :: !quiet(k)
    ensures runs == if maxIterations < 0 then 0 else maxIterations
  {
  }

  /** A chip configuration: the four registers `main` sets, and every
      other register, which it leaves alone. */
  datatype Analog = Analog(vrefDac: int, vcmDac: int, adcHoldDelay: int, misoDiff: seq<int>, others: seq<int>)

  /** Register addresses of the four set fields: `vref_dac`, `vcm_dac`,
      `enable_miso_differential`, `adc_hold_delay`. */
  const BaseRegisters: seq<int> := [82, 83, 125, 129]

  /** The configuration after `main` has set the base values. */
  function Based(c: Analog): (r: Analog)
    ensures r.vrefDac == 185 && r.vcmDac == 41 && r.adcHoldDelay == 15
    ensures r.misoDiff == [1, 1, 1, 1]
    ensures r.others == c.others
  {
    c.(vrefDac := 185, vcmDac := 41, adcHoldDelay := 15, misoDiff := [1, 1, 1, 1])
  }

  /** Setting the base values twice is setting them once, and two
      configurations that agree outside the four base registers agree after
      it. */
  lemma BasedIdempotent(c: Analog, d: Analog)
    ensures Based(Based(c)) == Based(c)
    ensures c.others == d.others ==> Based(c) == Based(d)
  {
  }

  /** The controller's chips with their analog settings, in the order of
      `c.chips`. */
  class Chips {
    var order: seq<ChipKey>
    var analog: map<ChipKey, Analog>

    ghost predicate Valid()
      reads this
    {
      Distinct(order) && forall k :: k in analog <==> k in order
    }

    constructor (order: seq<ChipKey>, analog: map<ChipKey, Analog>)
      requires Distinct(order) && forall k :: k in analog <==> k in order
      ensures Valid() && this.order == order && this.analog == analog
    {
      this.order := order;
      this.analog := analog;
    }

    /** `c[chip_key].config = ...` */
    method Set(k: ChipKey, c: Analog)
      requires Valid() && k in analog
      modifies this
      ensures Valid() && order == old(order) && analog == old(analog)[k := c]
    {
      analog := analog[k := c];
    }
  }

  /** The chips in `done` have the base values, the others what they had. */
  ghost predicate BasedOn(analog: map<ChipKey, Analog>, analog0: map<ChipKey, Analog>, done: set<ChipKey>)
  {
    analog.Keys == analog0.Keys &&
    forall k :: k in analog ==> analog[k] == if k in done then Based(analog0[k]) else analog0[k]
  }

  /** Setting the base values of one more chip. */
  lemma BasedOnStep(analog: map<ChipKey, Analog>, analog0: map<ChipKey, Analog>, done: set<ChipKey>, k: ChipKey)
    requires BasedOn(analog, analog0, done) && k in analog && k !in done
    ensures BasedOn(analog[k := Based(analog[k])], analog0, done + {k})
  {
  }

  /** The loop over `reversed(c.chips.items())`: every chip gets the base
      settings, and the pairs of key and configuration before the change
      are collected, last chip first, for the differential write. */
  method SetBase(chips: Chips) returns (pairs: seq<(ChipKey, Analog)>)
    requires chips.Valid()
    modifies chips
    ensures chips.Valid() && chips.order == old(chips.order)
    ensures forall k :: k in chips.analog ==> chips.analog[k] == Based(old(chips.analog)[k])
    ensures |pairs| == |chips.order|
    ensures forall i :: 0 <= i < |pairs| ==>
              var k := chips.order[|chips.order| - 1 - i]; pairs[i] == (k, old(chips.analog)[k])
  {
    var n := |chips.order|;
    pairs := [];
    ghost var done: set<ChipKey> := {};
    for i := 0 to n
      invariant chips.Valid() && chips.order == old(chips.order)
      invariant forall k :: k in done <==> k in chips.order[n - i..]
      invariant BasedOn(chips.analog, old(chips.analog), done)
      invariant |pairs| == i
      invariant forall j :: 0 <= j < i ==>
                  var k := chips.order[n - 1 - j]; pairs[j] == (k, old(chips.analog)[k])
    {
      var key := chips.order[n - 1 - i];
      ReversedStep(chips.order, i, done);
      var initial := chips.analog[key];
      BasedOnStep(chips.analog, old(chips.analog), done, key);
      chips.Set(key, Based(initial));
      pairs := pairs + [(key, initial)];
      done := done + {key};
    }
    assert forall k :: k in chips.analog ==> k in done;
  }

  /** The enforcement loop over `c.chips`: `enforceOk(k, regs)` is what
      `enforce_registers` on the registers `regs` of chip `k` reports, and
      each chip is checked on the four base registers. The result names
      the chip whose failure raises, if any. */
  method EnforceBase(order: seq<ChipKey>, enforceOk: (ChipKey, seq<int>) -> bool) returns (failed: Option<ChipKey>)
    ensures failed.None? <==> forall i :: 0 <= i < |order| ==> enforceOk(order[i], BaseRegisters)
    ensures failed.Some? ==>
              exists i :: (0 <= i < |order| && order[i] == failed.value && !enforceOk(order[i], BaseRegisters) &&
                           forall j :: 0 <= j < i ==> enforceOk(order[j], BaseRegisters))
  {
    for i := 0 to |order|
      invariant forall j :: 0 <= j < i ==> enforceOk(order[j], BaseRegisters)
    {
      if !enforceOk(order[i], BaseRegisters) {
        return Some(order[i]);
      }
    }
    return None;
  }
}
