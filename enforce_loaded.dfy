/** Loading saved configurations onto every chip of a controller: which
    file each chip loads, the front end held off while the configuration
    is written, and the CSA enables and channel masks restored afterwards
    with the disabled channels forced off. */
module EnforceLoaded {
  import opened Common
  import opened Frontend

  // ---------------------------------------------------------------------
  // Choosing the configuration file

  /** Python's `<` on strings: code point by code point, a proper prefix
      first. */
  predicate LexLess(a: string, b: string)
  {
    if |a| == 0 then |b| > 0
    else if |b| == 0 then false
    else if a[0] != b[0] then a[0] < b[0]
    else LexLess(a[1..], b[1..])
  }

  lemma {:induction false} LexLessIrreflexive(a: string)
    ensures !LexLess(a, a)
  {
    if |a| > 0 {
      LexLessIrreflexive(a[1..]);
    }
  }

  lemma {:induction false} LexLessTransitive(a: string, b: string, c: string)
    requires LexLess(a, b) && LexLess(b, c)
    ensures LexLess(a, c)
  {
    if |a| > 0 && |b| > 0 && |c| > 0 && a[0] == b[0] && b[0] == c[0] {
      LexLessTransitive(a[1..], b[1..], c[1..]);
    }
  }

  /** Two different strings are ordered one way or the other. */
  lemma {:induction false} LexLessTotal(a: string, b: string)
    requires a != b
    ensures LexLess(a, b) || LexLess(b, a)
  {
    if |a| > 0 && |b| > 0 && a[0] == b[0] {
      assert a == [a[0]] + a[1..] && b == [b[0]] + b[1..];
      LexLessTotal(a[1..], b[1..]);
    }
  }

  lemma LexLessAsymmetric(a: string, b: string)
    requires LexLess(a, b)
    ensures !LexLess(b, a)
  {
    if LexLess(b, a) {
      LexLessTransitive(a, b, a);
      LexLessIrreflexive(a);
    }
  }

  /** The `config-{chip_key}-*.json` file-name pattern of a chip. */
  function Prefix(k: ChipKey): string
  {
    "config-" + KeyString(k) + "-"
  }

  /** Does `name` match the chip's pattern, the `*` standing for any text? */
  predicate Matches(name: string, k: ChipKey)
  {
    |name| >= |Prefix(k)| + 5 && name[..|Prefix(k)|] == Prefix(k) && name[|name| - 5..] == ".json"
  }

  /** The file name a chip's configuration is saved under, with `stamp` in
      place of the `*`. */
  function FileName(k: ChipKey, stamp: string): (name: string)
    ensures Matches(name, k)
  {
    var name := Prefix(k) + stamp + ".json";
    assert name[..|Prefix(k)|] == Prefix(k);
    assert name[|name| - 5..] == ".json";
    name
  }

  /** Two key strings with a dash after each, one extending the other, are
      the same key string. */
  lemma KeyDashPrefix(k: ChipKey, k': ChipKey, rest: string)
    requires NonNegativeKey(k) && NonNegativeKey(k')
    requires KeyString(k') + "-" == KeyString(k) + "-" + rest
    ensures k == k'
  {
    var f := [IntToString(k.ioGroup), IntToString(k.ioChannel), IntToString(k.chipId)];
    var f' := [IntToString(k'.ioGroup), IntToString(k'.ioChannel), IntToString(k'.chipId)];
    NoDashInDigits(f[0]);
    NoDashInDigits(f[1]);
    NoDashInDigits(f[2]);
    NoDashInDigits(f'[0]);
    NoDashInDigits(f'[1]);
    NoDashInDigits(f'[2]);
    SplitJoin(f, '-');
    SplitJoin(f', '-');
    SplitAround(KeyString(k), '-', rest);
    SplitAround(KeyString(k'), '-', "");
    assert KeyString(k') + "-" == KeyString(k') + ['-'] + "";
    assert KeyString(k) + "-" + rest == KeyString(k) + ['-'] + rest;
    var s := Split(rest, '-');
    assert f + s == f' + [""];
    assert f == (f + s)[..3] && f' == (f' + [""])[..3];
    KeyStringRoundTrip(k);
    KeyStringRoundTrip(k');
  }

  /** Two prefixes `c + a + "-"` and `c + b + "-"` of one name, the first no
      longer: the second extends the first past the common `c`. */
  lemma SharedPrefix(c: string, a: string, b: string, name: string)
    requires |c + a + "-"| <= |c + b + "-"| <= |name|
    requires name[..|c + a + "-"|] == c + a + "-" && name[..|c + b + "-"|] == c + b + "-"
    ensures b + "-" == a + "-" + (c + b + "-")[|c + a + "-"|..]
  {
    var x := c + a + "-";
    var y := c + b + "-";
    var rest := y[|x|..];
    assert y[..|x|] == name[..|x|];
    assert y == x + rest;
    assert b + "-" == y[|c|..];
    assert a + "-" + rest == (x + rest)[|c|..];
  }

  /** A chip's pattern matches only files saved for that chip: the dash
      after the key keeps `1-1-1` from picking up the files of `1-1-11`. */
  lemma MatchesOnlyOwnFiles(k: ChipKey, k': ChipKey, stamp: string)
    requires NonNegativeKey(k) && NonNegativeKey(k')
    requires Matches(FileName(k', stamp), k)
    ensures k == k'
  {
    var name := FileName(k', stamp);
    var a := KeyString(k);
    var b := KeyString(k');
    assert Prefix(k) == "config-" + a + "-" && Prefix(k') == "config-" + b + "-";
    if |a| <= |b| {
      SharedPrefix("config-", a, b, name);
      KeyDashPrefix(k, k', ("config-" + b + "-")[|"config-" + a + "-"|..]);
    } else {
      SharedPrefix("config-", b, a, name);
      KeyDashPrefix(k', k, ("config-" + a + "-")[|"config-" + b + "-"|..]);
    }
  }

  /** The greatest of the names: what `sorted(names)[-1]` picks. */
  function Greatest(names: seq<string>): (r: string)
    requires names != []
    ensures r in names
    ensures forall n :: n in names ==> n == r || LexLess(n, r)
  {
    if |names| == 1 then names[0]
    else
      var rest := Greatest(names[1..]);
      assert forall n :: n in names ==> n == names[0] || n in names[1..];
      if LexLess(names[0], rest) then
        rest
      else
        LexLessTransitiveAll(names[1..], rest, names[0]);
        names[0]
  }

  /** Everything below `top` stays below a `c` that `top` does not exceed. */
  lemma LexLessTransitiveAll(names: seq<string>, top: string, c: string)
    requires forall n :: n in names ==> n == top || LexLess(n, top)
    requires !LexLess(c, top)
    ensures forall n :: n in names ==> n == c || LexLess(n, c)
  {
    if top != c {
      LexLessTotal(c, top);
      forall n | n in names && n != c
        ensures LexLess(n, c)
      {
        if n != top {
          LexLessTransitive(n, top, c);
        }
      }
    }
  }

  /** The greatest name is the only one above all others. */
  lemma GreatestUnique(names: seq<string>, a: string, b: string)
    requires a in names && b in names
    requires forall n :: n in names ==> n == a || LexLess(n, a)
    requires forall n :: n in names ==> n == b || LexLess(n, b)
    ensures a == b
  {
    if a != b {
      LexLessAsymmetric(a, b);
    }
  }

  /** The names in `names` that match the chip's pattern, in order. */
  function Matching(names: seq<string>, k: ChipKey): (r: seq<string>)
    ensures forall n :: n in r <==> n in names && Matches(n, k)
  {
    if names == [] then []
    else
      var rest := Matching(names[1..], k);
      assert forall n :: n in names <==> n == names[0] || n in names[1..];
      if Matches(names[0], k) then [names[0]] + rest else rest
  }

  /** `config_name`: a single file every chip loads, or a directory whose
      file names are `listing`. */
  datatype ConfigSource = File(name: string) | Directory(listing: seq<string>)

  /** The file a chip loads, if any: `config_name` itself, or the last of
      the matching names in sorted order. */
  function ConfigFile(src: ConfigSource, k: ChipKey): Option<string>
  {
    match src
    case File(name) => Some(name)
    case Directory(listing) =>
      var files := Matching(listing, k);
      if files == [] then None else Some(Greatest(files))
  }

  /** A single file is loaded by every chip. From a directory a chip loads
      a matching name above every other matching name, and nothing when no
      name matches. */
  lemma ConfigFileChoice(src: ConfigSource, k: ChipKey)
    ensures src.File? ==> ConfigFile(src, k) == Some(src.name)
    ensures src.Directory? ==> (ConfigFile(src, k).None? <==> forall n :: n in src.listing ==> !Matches(n, k))
    ensures src.Directory? && ConfigFile(src, k).Some? ==>
              var f := ConfigFile(src, k).value;
              f in src.listing && Matches(f, k) &&
              forall n :: n in src.listing && Matches(n, k) ==> n == f || LexLess(n, f)
  {
    if src.Directory? {
      var files := Matching(src.listing, k);
      if files != [] {
        assert files[0] in files;
      }
    }
  }

  // ---------------------------------------------------------------------
  // The front end of each chip across the load

  /** What the load needs: the configuration source, the front end stored
      in each file, and the optional `disabled_channels` dictionary. */
  datatype Setting = Setting(src: ConfigSource, files: map<string, Regs>,
                             disabled: Option<map<ListKey, seq<int>>>)

  /** Every file the chips choose can be read. */
  predicate Readable(s: Setting, order: seq<ChipKey>)
  {
    forall k :: k in order && ConfigFile(s.src, k).Some? ==>
      ConfigFile(s.src, k).value in s.files && WellFormed(s.files[ConfigFile(s.src, k).value])
  }

  /** Python's index into the 64 flags of a chip: -64..63 is an index, and
      anything else raises `IndexError`. */
  predicate IndexOk(ch: int)
  {
    -NumChannels <= ch < NumChannels
  }

  predicate IndexesOk(chs: seq<int>)
  {
    forall i :: 0 <= i < |chs| ==> IndexOk(chs[i])
  }

  /** The flag a Python index writes: a negative index counts from the
      end. */
  function Wrap(ch: int): int
  {
    if ch < 0 then ch + NumChannels else ch
  }

  function Wrapped(chs: seq<int>): seq<int>
  {
    seq(|chs|, i requires 0 <= i < |chs| => Wrap(chs[i]))
  }

  /** A flag is written by a list of indexes iff the list holds it or the
      negative index that counts back to it; every valid index writes a
      flag. */
  lemma WrappedHits(chs: seq<int>, ch: int)
    requires 0 <= ch < NumChannels
    ensures ch in Wrapped(chs) <==> ch in chs || ch - NumChannels in chs
    ensures IndexesOk(chs) ==> forall i :: 0 <= i < |chs| ==> 0 <= Wrapped(chs)[i] < NumChannels
  {
    if ch in chs {
      var i :| 0 <= i < |chs| && chs[i] == ch;
      assert Wrapped(chs)[i] == ch;
    }
    if ch - NumChannels in chs {
      var i :| 0 <= i < |chs| && chs[i] == ch - NumChannels;
      assert Wrapped(chs)[i] == ch;
    }
  }

  /** Indexing with two lists in turn is indexing with both. */
  lemma IndexesConcat(a: seq<int>, b: seq<int>)
    ensures IndexesOk(a + b) <==> IndexesOk(a) && IndexesOk(b)
    ensures Wrapped(a + b) == Wrapped(a) + Wrapped(b)
  {
    if IndexesOk(a) && IndexesOk(b) {
      forall i | 0 <= i < |a + b|
        ensures IndexOk((a + b)[i])
      {
        if i >= |a| {
          assert (a + b)[i] == b[i - |a|];
        }
      }
    }
    if IndexesOk(a + b) {
      forall i | 0 <= i < |a|
        ensures IndexOk(a[i])
      {
        assert (a + b)[i] == a[i];
      }
      forall i | 0 <= i < |b|
        ensures IndexOk(b[i])
      {
        assert (a + b)[|a| + i] == b[i];
      }
    }
  }

  /** A chip's front end once its chosen file, if any, is loaded. */
  function Loaded(r: Regs, s: Setting, k: ChipKey): Regs
  {
    match ConfigFile(s.src, k)
    case None => r
    case Some(f) => if f in s.files then s.files[f] else r
  }

  /** All channels masked and all CSAs disabled. */
  function Silenced(r: Regs): (r': Regs)
    requires WellFormed(r)
    ensures WellFormed(r')
    ensures forall ch :: 0 <= ch < NumChannels ==> r'.channelMask[ch] == 1 && r'.csaEnable[ch] == 0
    ensures r'.pixelTrim == r.pixelTrim && r'.thresholdGlobal == r.thresholdGlobal
    ensures r'.triggerMask == r.triggerMask
  {
    r.(channelMask := seq(NumChannels, _ => 1), csaEnable := seq(NumChannels, _ => 0))
  }

  /** The channels forced off on a chip: those under 'All', then those under
      the chip's key. */
  function Overrides(disabled: Option<map<ListKey, seq<int>>>, k: ChipKey): seq<int>
  {
    match disabled
    case None => []
    case Some(d) => Get(d, All) + Get(d, Chip(k))
  }

  /** The CSA enables and channel mask saved right after loading. */
  type Replica = (seq<int>, seq<int>)

  /** The CSA enables restored from the replica, overridden channels off. */
  function CsaRestored(r: Regs, rep: Replica, s: Setting, k: ChipKey): Regs
  {
    r.(csaEnable := Overwrite(rep.1, Wrapped(Overrides(s.disabled, k)), 0))
  }

  /** The channel mask restored from the replica, overridden channels
      masked. */
  function MaskRestored(r: Regs, rep: Replica, s: Setting, k: ChipKey): Regs
  {
    r.(channelMask := Overwrite(rep.0, Wrapped(Overrides(s.disabled, k)), 1))
  }

  /** The replica of a loaded front end. */
  function ReplicaOf(r: Regs): Replica
  {
    (r.channelMask, r.csaEnable)
  }

  /** A chip's front end at the end of the load. */
  function Final(r: Regs, s: Setting, k: ChipKey): Regs
    requires WellFormed(Loaded(r, s, k))
  {
    var loaded := Loaded(r, s, k);
    MaskRestored(CsaRestored(Silenced(loaded), ReplicaOf(loaded), s, k), ReplicaOf(loaded), s, k)
  }

  /** At the end every overridden channel, listed as itself or as the
      negative index that counts back to it, is masked with its CSA off,
      every other channel is as loaded, and nothing else differs from the
      loaded configuration. */
  lemma FinalState(r: Regs, s: Setting, k: ChipKey, ch: int)
    requires WellFormed(Loaded(r, s, k)) && 0 <= ch < NumChannels
    ensures var f := Final(r, s, k);
            var loaded := Loaded(r, s, k);
            var o := Overrides(s.disabled, k);
            WellFormed(f) &&
            f.pixelTrim == loaded.pixelTrim && f.thresholdGlobal == loaded.thresholdGlobal &&
            f.triggerMask == loaded.triggerMask &&
            ((ch in o || ch - NumChannels in o) ==> f.channelMask[ch] == 1 && f.csaEnable[ch] == 0) &&
            (!(ch in o || ch - NumChannels in o) ==>
               f.channelMask[ch] == loaded.channelMask[ch] && f.csaEnable[ch] == loaded.csaEnable[ch])
  {
    WrappedHits(Overrides(s.disabled, k), ch);
  }

  /** With no disabled channels, holding the front end off and restoring
      it gives back exactly the loaded configuration. */
  lemma NothingDisabledRestoresLoaded(r: Regs, s: Setting, k: ChipKey)
    requires WellFormed(Loaded(r, s, k)) && s.disabled.None?
    ensures Final(r, s, k) == Loaded(r, s, k)
  {
    var loaded := Loaded(r, s, k);
    assert Wrapped([]) == [];
    assert Overwrite(loaded.channelMask, [], 1) == loaded.channelMask;
    assert Overwrite(loaded.csaEnable, [], 0) == loaded.csaEnable;
  }

  // ---------------------------------------------------------------------
  // The loops over `reversed(c.chips.items())`

  /** Every chip's front end stays well formed once loaded. */
  ghost predicate LoadsWellFormed(regs0: map<ChipKey, Regs>, s: Setting)
  {
    forall k :: k in regs0 ==> WellFormed(Loaded(regs0[k], s, k))
  }

  /** The chips of `done` loaded and silenced, the others untouched. */
  ghost predicate SilencedDone(regs: map<ChipKey, Regs>, regs0: map<ChipKey, Regs>, s: Setting, done: set<ChipKey>)
    requires LoadsWellFormed(regs0, s)
  {
    regs.Keys == regs0.Keys &&
    forall k :: k in regs ==> regs[k] == if k in done then Silenced(Loaded(regs0[k], s, k)) else regs0[k]
  }

  /** The replicas of the chips of `done`, taken right after loading. */
  ghost predicate ReplicaDone(replica: map<ChipKey, Replica>, regs0: map<ChipKey, Regs>, s: Setting, done: set<ChipKey>)
  {
    replica.Keys == done &&
    forall k :: k in replica ==> k in regs0 && replica[k] == ReplicaOf(Loaded(regs0[k], s, k))
  }

  /** Loading one more chip keeps `SilencedDone`. */
  lemma SilencedStep(regs: map<ChipKey, Regs>, regs0: map<ChipKey, Regs>, s: Setting, done: set<ChipKey>, chip: ChipKey)
    requires LoadsWellFormed(regs0, s) && SilencedDone(regs, regs0, s, done) && chip in regs && chip !in done
    ensures SilencedDone(regs[chip := Silenced(Loaded(regs[chip], s, chip))], regs0, s, done + {chip})
  {
    forall k | k in regs && k != chip
      ensures regs[chip := Silenced(Loaded(regs[chip], s, chip))][k] == regs[k]
    {
    }
  }

  /** Taking one more replica keeps `ReplicaDone`. */
  lemma ReplicaStep(replica: map<ChipKey, Replica>, regs0: map<ChipKey, Regs>, s: Setting, done: set<ChipKey>, chip: ChipKey)
    requires ReplicaDone(replica, regs0, s, done) && chip in regs0
    ensures ReplicaDone(replica[chip := ReplicaOf(Loaded(regs0[chip], s, chip))], regs0, s, done + {chip})
  {
  }

  /** One chip's load: its file, if any, replaces its configuration, the
      replica is taken, then every channel is masked and every CSA
      disabled. */
  method LoadChip(r: Regs, s: Setting, chip: ChipKey) returns (r': Regs, rep: Replica)
    requires WellFormed(Loaded(r, s, chip))
    ensures r' == Silenced(Loaded(r, s, chip)) && rep == ReplicaOf(Loaded(r, s, chip))
  {
    r' := r;
    var f := ConfigFile(s.src, chip);
    if f.Some? && f.value in s.files {
      r' := s.files[f.value];
    }
    rep := (r'.channelMask, r'.csaEnable);
    r' := r'.(channelMask := seq(NumChannels, _ => 1));
    r' := r'.(csaEnable := seq(NumChannels, _ => 0));
  }

  /** One chip of the loading loop: load its file, save the replica, mask
      everything and disable every CSA. */
  method LoadNext(fe: Chips, i: int, s: Setting, replica: map<ChipKey, Replica>,
                  ghost regs0: map<ChipKey, Regs>, ghost done: set<ChipKey>)
    returns (replica': map<ChipKey, Replica>, ghost done': set<ChipKey>)
    requires fe.Valid() && 0 <= i < |fe.order|
    requires LoadsWellFormed(regs0, s) && forall k :: k in done <==> k in fe.order[|fe.order| - i..]
    requires SilencedDone(fe.regs, regs0, s, done) && ReplicaDone(replica, regs0, s, done)
    modifies fe
    ensures fe.Valid() && fe.order == old(fe.order)
    ensures forall k :: k in done' <==> k in fe.order[|fe.order| - (i + 1)..]
    ensures SilencedDone(fe.regs, regs0, s, done') && ReplicaDone(replica', regs0, s, done')
  {
    var chip := fe.order[|fe.order| - 1 - i];
    ReversedStep(fe.order, i, done);
    assert fe.regs[chip] == regs0[chip];
    var loaded := Loaded(regs0[chip], s, chip);
    assert WellFormed(loaded);
    SilencedStep(fe.regs, regs0, s, done, chip);
    ReplicaStep(replica, regs0, s, done, chip);
    var r, rep := LoadChip(fe.regs[chip], s, chip);
    assert WellFormed(r);
    replica' := replica[chip := rep];
    fe.Set(chip, r);
    done' := done + {chip};
  }

  /** The loading loop. */
  method LoadPass(fe: Chips, s: Setting) returns (replica: map<ChipKey, Replica>)
    requires fe.Valid() && Readable(s, fe.order)
    modifies fe
    ensures fe.Valid() && fe.order == old(fe.order) && LoadsWellFormed(old(fe.regs), s)
    ensures SilencedDone(fe.regs, old(fe.regs), s, fe.regs.Keys) && ReplicaDone(replica, old(fe.regs), s, fe.regs.Keys)
  {
    ghost var regs0 := fe.regs;
    ghost var done: set<ChipKey> := {};
    replica := map[];
    for i := 0 to |fe.order|
      invariant fe.Valid() && fe.order == old(fe.order) && LoadsWellFormed(regs0, s)
      invariant forall k :: k in done <==> k in fe.order[|fe.order| - i..]
      invariant SilencedDone(fe.regs, regs0, s, done) && ReplicaDone(replica, regs0, s, done)
    {
      replica, done := LoadNext(fe, i, s, replica, regs0, done);
    }
    assert fe.order[0..] == fe.order;
    assert done == fe.regs.Keys;
  }

  /** `flags` with each listed channel set to `v`, one after another; a
      channel that is no index stops the loop with `IndexError` after the
      channels before it were set. */
  method ForceChannels(flags: seq<int>, channels: seq<int>, v: int) returns (flags': seq<int>, indexError: bool)
    requires |flags| == NumChannels
    ensures |flags'| == NumChannels
    ensures indexError <==> !IndexesOk(channels)
    ensures !indexError ==> flags' == Overwrite(flags, Wrapped(channels), v)
    ensures indexError ==>
              (exists j :: 0 <= j < |channels| && !IndexOk(channels[j]) &&
                           IndexesOk(channels[..j]) && flags' == Overwrite(flags, Wrapped(channels[..j]), v))
  {
    flags' := flags;
    indexError := false;
    assert Wrapped(channels[..0]) == [];
    assert Overwrite(flags, [], v) == flags;
    for j := 0 to |channels|
      invariant IndexesOk(channels[..j])
      invariant flags' == Overwrite(flags, Wrapped(channels[..j]), v)
    {
      if !IndexOk(channels[j]) {
        indexError := true;
        return;
      }
      assert channels[..j + 1] == channels[..j] + [channels[j]];
      IndexesConcat(channels[..j], [channels[j]]);
      assert Wrapped([channels[j]]) == [Wrap(channels[j])];
      OverwriteStep(flags, Wrapped(channels[..j]), Wrap(channels[j]), v);
      flags' := flags'[Wrap(channels[j]) := v];
    }
    assert channels[..|channels|] == channels;
  }

  /** The replica's flags with the chip's disabled channels forced to `v`:
      first the 'All' list, then the chip's own; an entry that is no index
      raises `IndexError`. */
  method RestoreFlags(flags: seq<int>, s: Setting, k: ChipKey, v: int) returns (flags': seq<int>, indexError: bool)
    requires |flags| == NumChannels
    ensures indexError <==> !IndexesOk(Overrides(s.disabled, k))
    ensures !indexError ==> flags' == Overwrite(flags, Wrapped(Overrides(s.disabled, k)), v)
  {
    flags' := flags;
    indexError := false;
    if s.disabled.None? {
      assert Wrapped([]) == [];
      assert Overwrite(flags, [], v) == flags;
      return;
    }
    var d := s.disabled.value;
    var all: seq<int> := [];
    if All in d {
      all := d[All];
      flags', indexError := ForceChannels(flags', all, v);
      if indexError {
        IndexesConcat(all, Get(d, Chip(k)));
        return;
      }
    } else {
      assert Wrapped([]) == [];
      assert Overwrite(flags, [], v) == flags;
    }
    var own: seq<int> := [];
    if Chip(k) in d {
      own := d[Chip(k)];
      flags', indexError := ForceChannels(flags', own, v);
    } else {
      assert Wrapped([]) == [];
      assert Overwrite(flags', [], v) == flags';
    }
    IndexesConcat(all, own);
    OverwriteTwice(flags, Wrapped(all), Wrapped(own), v);
  }

  /** Restoring the CSA enables (`csa`) or the channel masks of the chips
      of `done`. */
  ghost predicate RestoreDone(regs: map<ChipKey, Regs>, regs0: map<ChipKey, Regs>, replica: map<ChipKey, Replica>,
                              s: Setting, csa: bool, done: set<ChipKey>)
  {
    regs.Keys == regs0.Keys && regs.Keys <= replica.Keys &&
    forall k :: k in regs ==>
      regs[k] == if k !in done then regs0[k]
                 else if csa then CsaRestored(regs0[k], replica[k], s, k)
                 else MaskRestored(regs0[k], replica[k], s, k)
  }

  /** Restoring one more chip keeps `RestoreDone`. */
  lemma RestoreStep(regs: map<ChipKey, Regs>, regs0: map<ChipKey, Regs>, replica: map<ChipKey, Replica>,
                    s: Setting, csa: bool, done: set<ChipKey>, chip: ChipKey, r: Regs)
    requires RestoreDone(regs, regs0, replica, s, csa, done) && chip in regs && chip !in done
    requires r == if csa then CsaRestored(regs[chip], replica[chip], s, chip)
                  else MaskRestored(regs[chip], replica[chip], s, chip)
    ensures RestoreDone(regs[chip := r], regs0, replica, s, csa, done + {chip})
  {
    forall k | k in regs[chip := r] && k != chip
      ensures regs[chip := r][k] == regs[k]
    {
    }
  }

  /** One chip's CSA enables (`csa`) or channel mask taken from its replica
      with its disabled channels forced off. */
  method RestoreChip(r: Regs, rep: Replica, s: Setting, chip: ChipKey, csa: bool) returns (r': Regs, indexError: bool)
    requires |rep.0| == NumChannels && |rep.1| == NumChannels
    ensures indexError <==> !IndexesOk(Overrides(s.disabled, chip))
    ensures !indexError ==> r' == if csa then CsaRestored(r, rep, s, chip) else MaskRestored(r, rep, s, chip)
  {
    var flags;
    if csa {
      flags, indexError := RestoreFlags(rep.1, s, chip, 0);
      r' := r.(csaEnable := flags);
    } else {
      flags, indexError := RestoreFlags(rep.0, s, chip, 1);
      r' := r.(channelMask := flags);
    }
  }

  /** Every chip's disabled channels are indexes. */
  ghost predicate OverridesOk(s: Setting, order: seq<ChipKey>)
  {
    forall k :: k in order ==> IndexesOk(Overrides(s.disabled, k))
  }

  /** One chip of a restoring loop; on `IndexError` nothing is written. */
  method RestoreNext(fe: Chips, i: int, replica: map<ChipKey, Replica>, s: Setting, csa: bool,
                     ghost regs0: map<ChipKey, Regs>, ghost done: set<ChipKey>)
    returns (indexError: bool, ghost done': set<ChipKey>)
    requires fe.Valid() && 0 <= i < |fe.order|
    requires forall k :: k in replica ==> |replica[k].0| == NumChannels && |replica[k].1| == NumChannels
    requires (forall k :: k in done <==> k in fe.order[|fe.order| - i..]) && RestoreDone(fe.regs, regs0, replica, s, csa, done)
    requires forall k :: k in regs0 ==> WellFormed(regs0[k])
    modifies fe
    ensures fe.Valid() && fe.order == old(fe.order)
    ensures indexError <==> !IndexesOk(Overrides(s.disabled, fe.order[|fe.order| - 1 - i]))
    ensures !indexError ==> done' == done + {fe.order[|fe.order| - 1 - i]}
    ensures !indexError ==> (forall k :: k in done' <==> k in fe.order[|fe.order| - (i + 1)..]) &&
                            RestoreDone(fe.regs, regs0, replica, s, csa, done')
  {
    var chip := fe.order[|fe.order| - 1 - i];
    ReversedStep(fe.order, i, done);
    var r;
    r, indexError := RestoreChip(fe.regs[chip], replica[chip], s, chip, csa);
    done' := done;
    if indexError {
      return;
    }
    RestoreStep(fe.regs, regs0, replica, s, csa, done, chip, r);
    assert WellFormed(r);
    fe.Set(chip, r);
    done' := done + {chip};
  }

  /** A restoring loop over the chips in reverse insertion order, stopped
      by `IndexError` at the first chip with a disabled channel that is no
      index. */
  method RestorePass(fe: Chips, replica: map<ChipKey, Replica>, s: Setting, csa: bool) returns (indexError: bool)
    requires fe.Valid() && fe.regs.Keys <= replica.Keys
    requires forall k :: k in replica ==> |replica[k].0| == NumChannels && |replica[k].1| == NumChannels
    modifies fe
    ensures fe.Valid() && fe.order == old(fe.order)
    ensures indexError <==> !OverridesOk(s, fe.order)
    ensures !indexError ==> RestoreDone(fe.regs, old(fe.regs), replica, s, csa, fe.regs.Keys)
  {
    ghost var regs0 := fe.regs;
    ghost var done: set<ChipKey> := {};
    indexError := false;
    for i := 0 to |fe.order|
      invariant fe.Valid() && fe.order == old(fe.order)
      invariant (forall k :: k in done <==> k in fe.order[|fe.order| - i..]) &&
                RestoreDone(fe.regs, regs0, replica, s, csa, done)
      invariant forall k :: k in done ==> IndexesOk(Overrides(s.disabled, k))
    {
      ghost var chip := fe.order[|fe.order| - 1 - i];
      indexError, done := RestoreNext(fe, i, replica, s, csa, regs0, done);
      if indexError {
        assert chip in fe.order;
        return;
      }
    }
    assert fe.order[0..] == fe.order;
    assert done == fe.regs.Keys;
  }

  // ---------------------------------------------------------------------
  // The two enforcement checks

  /** The full-configuration check gives up when some differing register
      lies outside the CSA enables. */
  function OutsideCsa(diff: Diff): (r: bool)
    ensures r <==> exists i, j :: 0 <= i < |diff| && 0 <= j < |diff[i].1| && !IsCsaRegister(diff[i].1[j])
  {
    if diff == [] then false
    else
      var r := OutsideCsa(diff[1..]);
      assert forall i :: 1 <= i < |diff| ==> diff[1..][i - 1] == diff[i];
      (exists j :: 0 <= j < |diff[0].1| && !IsCsaRegister(diff[0].1[j])) || r
  }

  /** The CSA check of one chip gives up when it fails with some chip in its
      difference: a failure with an empty difference goes unnoticed. */
  predicate CsaCheckRaises(check: (bool, Diff))
  {
    !check.0 && |check.1| > 0
  }

  /** Some chip's CSA check gives up. */
  predicate AnyCsaCheckRaises(order: seq<ChipKey>, checks: map<ChipKey, (bool, Diff)>)
  {
    exists k :: k in order && k in checks && CsaCheckRaises(checks[k])
  }

  /** The CSA checks in reverse chip order, stopping at the first that gives
      up. */
  method CsaChecks(order: seq<ChipKey>, checks: map<ChipKey, (bool, Diff)>) returns (raised: bool)
    requires forall k :: k in order ==> k in checks
    ensures raised <==> AnyCsaCheckRaises(order, checks)
  {
    raised := false;
    for i := 0 to |order|
      invariant !raised
      invariant forall k :: k in order[|order| - i..] ==> !CsaCheckRaises(checks[k])
    {
      var chip := order[|order| - 1 - i];
      assert order[|order| - (i + 1)..] == [chip] + order[|order| - i..];
      var (ok, diff) := checks[chip];
      if !ok && |diff| > 0 {
        return true;
      }
    }
    assert order[0..] == order;
  }

  // ---------------------------------------------------------------------
  // main

  /** The whole load. `firstWrite` is the configuration written while the
      front end is held off. `ok1`/`diff1` is the full-configuration check
      and `checks` the per-chip CSA checks; `raised` stands for the
      `RuntimeError` either check raises, and `indexError` for the
      `IndexError` of a disabled channel that is no index, which stops the
      load at the CSA restore. */
  method EnforceLoadedConfig(fe: Chips, s: Setting, ok1: bool, diff1: Diff, checks: map<ChipKey, (bool, Diff)>)
    returns (firstWrite: map<ChipKey, Regs>, raised: bool, indexError: bool)
    requires fe.Valid() && Readable(s, fe.order)
    requires forall k :: k in fe.order ==> k in checks
    modifies fe
    ensures fe.Valid() && fe.order == old(fe.order) && fe.regs.Keys == old(fe.regs).Keys
    ensures forall k :: k in firstWrite <==> k in old(fe.regs)
    ensures forall k :: k in firstWrite ==>
              WellFormed(Loaded(old(fe.regs)[k], s, k)) && firstWrite[k] == Silenced(Loaded(old(fe.regs)[k], s, k))
    ensures raised <==> (!ok1 && OutsideCsa(diff1)) || (OverridesOk(s, fe.order) && AnyCsaCheckRaises(fe.order, checks))
    ensures indexError <==> !(!ok1 && OutsideCsa(diff1)) && !OverridesOk(s, fe.order)
    ensures !ok1 && OutsideCsa(diff1) ==> fe.regs == firstWrite
    ensures !raised && !indexError ==> forall k :: k in fe.regs ==> fe.regs[k] == Final(old(fe.regs)[k], s, k)
  {
    ghost var regs0 := fe.regs;
    var replica := LoadPass(fe, s);
    firstWrite := fe.regs;
    indexError := false;
    if !ok1 && OutsideCsa(diff1) {
      return firstWrite, true, false;
    }
    assert forall k :: k in fe.regs ==> WellFormed(fe.regs[k]);
    indexError := RestorePass(fe, replica, s, true);
    if indexError {
      return firstWrite, false, true;
    }
    ghost var regs1 := fe.regs;
    raised := CsaChecks(fe.order, checks);
    if raised {
      return;
    }
    indexError := RestorePass(fe, replica, s, false);
    forall k | k in fe.regs
      ensures fe.regs[k] == Final(regs0[k], s, k)
    {
      assert regs1[k] == CsaRestored(firstWrite[k], replica[k], s, k);
    }
  }
}
