/** Raising the global threshold DAC of saved chip configurations by a fixed
    step, clamped from above at the register's largest value. */
module IncrementGlobal {
  /** The largest value of the 8-bit `threshold_global` register. */
  const MaxGlobal: int := 255

  /** The new `threshold_global` of a configuration whose old value is
      `old_` after an increment of `inc`. */
  function Incremented(old_: int, inc: int): (r: int)
    ensures r <= MaxGlobal
    ensures r == old_ + inc || r == MaxGlobal
    ensures r >= old_ + inc ==> r == old_ + inc
  {
    if old_ + inc >= MaxGlobal then MaxGlobal else old_ + inc
  }

  /** The clamp is the minimum of the plain sum and 255. */
  lemma IncrementedIsMin(old_: int, inc: int)
    ensures Incremented(old_, inc) == if old_ + inc < MaxGlobal then old_ + inc else MaxGlobal
  {
  }

  /** A zero increment leaves every value in register range unchanged; a
      stored value above 255 is pulled down to 255. */
  lemma IncrementByZero(old_: int)
    ensures old_ <= MaxGlobal ==> Incremented(old_, 0) == old_
    ensures old_ > MaxGlobal ==> Incremented(old_, 0) == MaxGlobal
  {
  }

  /** There is no lower clamp: a negative increment can take the value below
      zero. */
  lemma NoLowerClamp()
    ensures Incremented(0, -1) == -1
  {
  }

  /** A larger increment never gives a smaller value. */
  lemma IncrementedMonotone(old_: int, a: int, b: int)
    requires a <= b
    ensures Incremented(old_, a) <= Incremented(old_, b)
  {
  }

  /** Two runs with a non-negative second step do what one run with the
      summed step does. */
  lemma IncrementedTwice(old_: int, a: int, b: int)
    requires b >= 0
    ensures Incremented(Incremented(old_, a), b) == Incremented(old_, a + b)
  {
  }

  /** The saved configuration files, as far as this script reads them: the
      `threshold_global` stored in each file. */
  class ConfigStore {
    var thresholds: map<string, int>

    constructor (thresholds: map<string, int>)
      ensures this.thresholds == thresholds
    {
      this.thresholds := thresholds;
    }

    /** `config.write(file, force=True)` */
    method Write(file: string, value: int)
      modifies this
      ensures thresholds == old(thresholds)[file := value]
    {
      thresholds := thresholds[file := value];
    }
  }

  /** The stored values after the files in `files` have been processed one
      after the other, each loading what the earlier writes left behind. */
  function Applied(store: map<string, int>, files: seq<string>, inc: int): (r: map<string, int>)
    requires forall i :: 0 <= i < |files| ==> files[i] in store
    ensures r.Keys == store.Keys
  {
    if |files| == 0 then store
    else
      var before := Applied(store, files[..|files| - 1], inc);
      var f := files[|files| - 1];
      before[f := Incremented(before[f], inc)]
  }

  /** When no file is listed twice, each listed file gets one increment
      and an unlisted one keeps its value. */
  lemma {:induction false} AppliedOnce(store: map<string, int>, files: seq<string>, inc: int, f: string)
    requires forall i :: 0 <= i < |files| ==> files[i] in store
    requires f in store
    ensures f !in files ==> Applied(store, files, inc)[f] == store[f]
    ensures (forall i, j :: 0 <= i < j < |files| ==> files[i] != files[j]) && f in files
            ==> Applied(store, files, inc)[f] == Incremented(store[f], inc)
    decreases |files|
  {
    if |files| > 0 {
      var front := files[..|files| - 1];
      AppliedOnce(store, front, inc, f);
      if f != files[|files| - 1] && f in files {
        var i :| 0 <= i < |files| && files[i] == f;
        assert front[i] == f;
      }
    }
  }

  /** A file listed twice, with a non-negative step, ends up incremented by
      twice the step. */
  lemma ListedTwice(store: map<string, int>, f: string, inc: int)
    requires f in store && inc >= 0
    ensures Applied(store, [f, f], inc)[f] == Incremented(store[f], 2 * inc)
  {
    assert [f, f][..1] == [f];
    assert [f][..0] == [];
    assert Applied(store, [], inc) == store;
    var once := Applied(store, [f], inc);
    assert once == store[f := Incremented(store[f], inc)];
    assert Applied(store, [f, f], inc) == once[f := Incremented(once[f], inc)];
    IncrementedTwice(store[f], inc, inc);
  }

  /** The script's `main`: for each file, load it, raise its global
      threshold, and write it back unless `dryRun`; in a dry run, report
      each file with the value it would get. */
  method IncrementFiles(store: ConfigStore, files: seq<string>, inc: int, dryRun: bool)
    returns (report: seq<(string, int)>)
    requires forall i :: 0 <= i < |files| ==> files[i] in store.thresholds
    modifies store
    ensures dryRun ==> store.thresholds == old(store.thresholds)
    ensures !dryRun ==> store.thresholds == Applied(old(store.thresholds), files, inc)
    ensures !dryRun ==> report == []
    ensures dryRun ==> |report| == |files|
    ensures dryRun ==> forall i :: 0 <= i < |files| ==>
              report[i] == (files[i], Incremented(old(store.thresholds)[files[i]], inc))
  {
    report := [];
    var i := 0;
    while i < |files|
      invariant 0 <= i <= |files|
      invariant store.thresholds.Keys == old(store.thresholds).Keys
      invariant dryRun ==> store.thresholds == old(store.thresholds)
      invariant !dryRun ==> store.thresholds == Applied(old(store.thresholds), files[..i], inc)
      invariant !dryRun ==> report == []
      invariant dryRun ==> |report| == i
      invariant dryRun ==> forall j :: 0 <= j < i ==>
                  report[j] == (files[j], Incremented(old(store.thresholds)[files[j]], inc))
    {
      var file := files[i];
      var loaded := store.thresholds[file];
      var updated := Incremented(loaded, inc);
      if !dryRun {
        store.Write(file, updated);
        assert files[..i + 1][..i] == files[..i];
      } else {
        report := report + [(file, updated)];
      }
      i := i + 1;
    }
    assert files[..|files|] == files;
  }
}
