/** Vocabulary shared by the LArPix 2x2 module checkout scripts: chip keys,
    the keys of disabled-channel lists, the channel constants of a
    LArPix-v2 chip, and the decimal/dash string forms the scripts use for
    file names and JSON keys. */
module Common {

  datatype Option<T> = None | Some(value: T)

  /** A larpix `Key`: one chip on one UART channel of one PACMAN io group. */
  datatype ChipKey = ChipKey(ioGroup: int, ioChannel: int, chipId: int)

  /** A key of a disabled-channel list read from JSON: either the literal
      'All' or a string naming one chip. The scripts compare such strings
      with larpix keys using the library's own equality; the model identifies
      a chip string with the key it names. */
  datatype ListKey = All | Chip(key: ChipKey)

  /** A disabled-channel list as the scripts load it: an insertion-ordered
      dictionary from list keys to channel lists. */
  type DisabledList = seq<(ListKey, seq<int>)>

  predicate DistinctKeys(d: DisabledList)
  {
    forall i, j :: 0 <= i < j < |d| ==> d[i].0 != d[j].0
  }

  /** Does the list entry `k` apply to the chip `chip` (the test
      `key == chip_key or key == 'All'`)? */
  predicate AppliesTo(k: ListKey, chip: ChipKey)
  {
    k == All || k == Chip(chip)
  }

  const NumChannels: int := 64

  /** Channels of a LArPix-v2 chip that are not routed out to pixel pads. */
  const Nonrouted: seq<int> := [6, 7, 8, 9, 22, 23, 24, 25, 38, 39, 40, 54, 55, 56, 57]

  predicate ValidChannel(ch: int)
  {
    0 <= ch < NumChannels
  }

  predicate ValidChannels(chs: seq<int>)
  {
    forall i :: 0 <= i < |chs| ==> ValidChannel(chs[i])
  }

  predicate StrictlyIncreasing(s: seq<int>)
  {
    forall i, j :: 0 <= i < j < |s| ==> s[i] < s[j]
  }

  /** Membership in `Nonrouted`, written out as ranges. */
  predicate IsNonrouted(ch: int)
  {
    6 <= ch <= 9 || 22 <= ch <= 25 || 38 <= ch <= 40 || 54 <= ch <= 57
  }

  lemma NonroutedRanges(ch: int)
    ensures ch in Nonrouted <==> IsNonrouted(ch)
  {
    if IsNonrouted(ch) {
      var i := if ch <= 9 then ch - 6 else if ch <= 25 then ch - 18 else if ch <= 40 then ch - 30 else ch - 43;
      assert Nonrouted[i] == ch;
    }
  }

  /** A channel that is routed out to a pixel pad. */
  predicate IsRouted(ch: int)
  {
    ValidChannel(ch) && !IsNonrouted(ch)
  }

  /** `[i for i in range(from, 64) if i not in nonrouted_channels]` */
  function RoutedFrom(from: int): (r: seq<int>)
    requires 0 <= from <= 64
    ensures forall i :: 0 <= i < |r| ==> from <= r[i] && IsRouted(r[i])
    decreases 64 - from
  {
    if from == 64 then []
    else
      var rest := RoutedFrom(from + 1);
      if !IsRouted(from) then rest else [from] + rest
  }

  /** Every routed channel from `from` on is listed. */
  lemma {:induction false} RoutedFromHas(from: int, ch: int)
    requires 0 <= from <= ch && IsRouted(ch)
    ensures ch in RoutedFrom(from)
    decreases 64 - from
  {
    var r := RoutedFrom(from);
    if ch == from {
      assert r[0] == ch;
    } else {
      RoutedFromHas(from + 1, ch);
      var rest := RoutedFrom(from + 1);
      assert r == if IsRouted(from) then [from] + rest else rest;
      var i :| 0 <= i < |rest| && rest[i] == ch;
      if IsRouted(from) {
        assert r[i + 1] == ch;
      }
    }
  }

  /** Putting a smaller element in front keeps a sequence increasing. */
  lemma ConsIncreasing(x: int, rest: seq<int>)
    requires StrictlyIncreasing(rest)
    requires forall i :: 0 <= i < |rest| ==> x < rest[i]
    ensures StrictlyIncreasing([x] + rest)
  {
    var r := [x] + rest;
    forall i, j | 0 <= i < j < |r| ensures r[i] < r[j] {
      assert r[j] == rest[j - 1];
      if i > 0 {
        assert r[i] == rest[i - 1];
      }
    }
  }

  /** The listed channels increase. */
  lemma {:induction false} RoutedFromIncreasing(from: int)
    requires 0 <= from <= 64
    ensures StrictlyIncreasing(RoutedFrom(from))
    decreases 64 - from
  {
    if from < 64 {
      RoutedFromIncreasing(from + 1);
      var rest := RoutedFrom(from + 1);
      ConsIncreasing(from, rest);
    }
  }

  /** The routed channels, in increasing order. */
  function Routed(): (r: seq<int>)
    ensures forall ch :: ch in r <==> IsRouted(ch)
    ensures StrictlyIncreasing(r) && ValidChannels(r)
  {
    RoutedFromIncreasing(0);
    forall ch | IsRouted(ch) ensures ch in RoutedFrom(0) {
      RoutedFromHas(0, ch);
    }
    RoutedFrom(0)
  }

  predicate Distinct<T(==)>(s: seq<T>)
  {
    forall i, j :: 0 <= i < j < |s| ==> s[i] != s[j]
  }

  /** A loop over `reversed(order)` that has visited the last `i` elements
      visits one more, not visited before. */
  lemma ReversedStep<T>(order: seq<T>, i: int, done: set<T>)
    requires Distinct(order) && 0 <= i < |order|
    requires forall k :: k in done <==> k in order[|order| - i..]
    ensures order[|order| - 1 - i] !in done
    ensures forall k :: k in order[|order| - (i + 1)..] <==> k in done || k == order[|order| - 1 - i]
  {
    var n := |order|;
    assert order[n - (i + 1)..] == [order[n - 1 - i]] + order[n - i..];
  }

  // ---------------------------------------------------------------------
  // Decimal strings (Python's str() and int() on integers)

  predicate IsDigit(c: char)
  {
    '0' <= c <= '9'
  }

  predicate AllDigits(s: string)
  {
    forall i :: 0 <= i < |s| ==> IsDigit(s[i])
  }

  function DigitChar(d: int): (c: char)
    requires 0 <= d < 10
    ensures IsDigit(c)
  {
    "0123456789"[d]
  }

  function DigitValue(c: char): (d: nat)
    requires IsDigit(c)
    ensures d < 10
  {
    c as int - '0' as int
  }

  /** `str(n)` for a natural number. */
  function NatToString(n: nat): (s: string)
    ensures |s| >= 1 && AllDigits(s)
  {
    if n < 10 then [DigitChar(n)] else NatToString(n / 10) + [DigitChar(n % 10)]
  }

  /** `str(n)` for any integer: a minus sign before the digits of |n|. */
  function IntToString(n: int): (s: string)
    ensures n >= 0 ==> s == NatToString(n)
  {
    if n >= 0 then NatToString(n) else "-" + NatToString(-n)
  }

  /** The value of a string of decimal digits, read left to right. */
  function DigitsValue(s: string): (v: nat)
    requires AllDigits(s)
  {
    if |s| == 0 then 0 else DigitsValue(s[..|s| - 1]) * 10 + DigitValue(s[|s| - 1])
  }

  /** `int(s)` restricted to an optional minus sign followed by decimal
      digits; anything else is the ValueError case. */
  function ParseInt(s: string): (r: Option<int>)
  {
    if |s| >= 1 && AllDigits(s) then Some(DigitsValue(s))
    else if |s| >= 2 && s[0] == '-' && AllDigits(s[1..]) then Some(-(DigitsValue(s[1..]) as int))
    else None
  }

  lemma {:induction false} DigitsOfNat(n: nat)
    ensures DigitsValue(NatToString(n)) == n
    decreases n
  {
    var s := NatToString(n);
    if n >= 10 {
      DigitsOfNat(n / 10);
      assert s[..|s| - 1] == NatToString(n / 10);
    }
  }

  /** Reading back what `str` wrote gives the number again. */
  lemma ParseIntOfString(n: int)
    ensures ParseInt(IntToString(n)) == Some(n)
  {
    if n >= 0 {
      DigitsOfNat(n);
    } else {
      var s := IntToString(n);
      assert s[1..] == NatToString(-n);
      DigitsOfNat(-n);
    }
  }

  // ---------------------------------------------------------------------
  // Python's str.split(sep) and sep.join(fields)

  /** `s.split(sep)`: the fields between occurrences of `sep`, always at
      least one. */
  function Split(s: string, sep: char): (fields: seq<string>)
    ensures |fields| >= 1
  {
    if |s| == 0 then [""] else Prepend(s[0], sep, Split(s[1..], sep))
  }

  /** Helper: the fields of `[c] + s` from the fields of `s`: a separator
      starts a new, empty field; any other character extends the first. */
  function Prepend(c: char, sep: char, fields: seq<string>): (r: seq<string>)
    requires |fields| >= 1
    ensures |r| >= 1
  {
    if c == sep then [""] + fields else [[c] + fields[0]] + fields[1..]
  }

  /** Prepending a character affects only the first list of fields. */
  lemma PrependAppend(c: char, sep: char, a: seq<string>, b: seq<string>)
    requires |a| >= 1
    ensures Prepend(c, sep, a + b) == Prepend(c, sep, a) + b
  {
    if c != sep {
      assert (a + b)[0] == a[0];
      assert (a + b)[1..] == a[1..] + b;
    }
  }

  /** `sep.join(fields)` for a non-empty list. */
  function Join(fields: seq<string>, sep: char): string
    requires |fields| >= 1
  {
    if |fields| == 1 then fields[0] else fields[0] + [sep] + Join(fields[1..], sep)
  }

  /** A string without the separator is a single field. */
  lemma {:induction false} SplitWhole(s: string, sep: char)
    requires sep !in s
    ensures Split(s, sep) == [s]
  {
    if |s| > 0 {
      assert sep !in s[1..] by {
        forall j | 0 <= j < |s| - 1 ensures s[1..][j] != sep {
          assert s[1..][j] == s[j + 1];
        }
      }
      SplitWhole(s[1..], sep);
      assert [s[0]] + s[1..] == s;
    }
  }

  /** Splitting at a separator placed between two strings splits each side
      on its own. */
  lemma {:induction false} SplitAround(x: string, sep: char, y: string)
    ensures Split(x + [sep] + y, sep) == Split(x, sep) + Split(y, sep)
  {
    var s := x + [sep] + y;
    if |x| == 0 {
      assert s[1..] == y;
    } else {
      assert s[0] == x[0] && s[1..] == x[1..] + [sep] + y;
      SplitAround(x[1..], sep, y);
      calc {
        Split(s, sep);
        Prepend(x[0], sep, Split(x[1..] + [sep] + y, sep));
        Prepend(x[0], sep, Split(x[1..], sep) + Split(y, sep));
        { PrependAppend(x[0], sep, Split(x[1..], sep), Split(y, sep)); }
        Prepend(x[0], sep, Split(x[1..], sep)) + Split(y, sep);
        Split(x, sep) + Split(y, sep);
      }
    }
  }

  /** Joining fields that do not contain the separator and splitting again
      gives the fields back. */
  lemma {:induction false} SplitJoin(fields: seq<string>, sep: char)
    requires |fields| >= 1
    requires forall i :: 0 <= i < |fields| ==> sep !in fields[i]
    ensures Split(Join(fields, sep), sep) == fields
    decreases |fields|
  {
    var head := fields[0];
    SplitWhole(head, sep);
    if |fields| > 1 {
      var rest := fields[1..];
      forall i | 0 <= i < |rest| ensures sep !in rest[i] {
        assert rest[i] == fields[i + 1];
      }
      SplitJoin(rest, sep);
      SplitAround(head, sep, Join(rest, sep));
      assert fields == [head] + rest;
    }
  }

  /** Joining two non-empty field lists is joining each and putting a
      separator between them. */
  lemma {:induction false} JoinConcat(a: seq<string>, b: seq<string>, sep: char)
    requires |a| >= 1 && |b| >= 1
    ensures Join(a + b, sep) == Join(a, sep) + [sep] + Join(b, sep)
    decreases |a|
  {
    if |a| > 1 {
      assert (a + b)[1..] == a[1..] + b;
      JoinConcat(a[1..], b, sep);
    } else {
      assert (a + b)[1..] == b;
    }
  }

  lemma NoDashInDigits(s: string)
    requires AllDigits(s)
    ensures '-' !in s
  {
    forall i | 0 <= i < |s| ensures s[i] != '-' {
      assert IsDigit(s[i]);
    }
  }

  /** The `io_group-io_channel-chip_id` form that the scripts build with
      `'-'.join(...)` and that larpix prints for a key. */
  function KeyString(k: ChipKey): (s: string)
    ensures s == IntToString(k.ioGroup) + "-" + IntToString(k.ioChannel) + "-" + IntToString(k.chipId)
  {
    var f := [IntToString(k.ioGroup), IntToString(k.ioChannel), IntToString(k.chipId)];
    assert Join(f[1..], '-') == f[1] + "-" + f[2] by {
      assert f[1..][1..] == [f[2]];
    }
    Join(f, '-')
  }

  predicate NonNegativeKey(k: ChipKey)
  {
    k.ioGroup >= 0 && k.ioChannel >= 0 && k.chipId >= 0
  }

  /** Reading a key string back: split at the dashes and parse three fields. */
  function ParseKeyString(s: string): (r: Option<ChipKey>)
  {
    var f := Split(s, '-');
    if |f| != 3 then None
    else match (ParseInt(f[0]), ParseInt(f[1]), ParseInt(f[2]))
      case (Some(g), Some(ch), Some(id)) => Some(ChipKey(g, ch, id))
      case _ => None
  }

  /** A key string names its key: for keys with non-negative fields, the
      dash-joined string parses back to the same key. */
  lemma KeyStringRoundTrip(k: ChipKey)
    requires NonNegativeKey(k)
    ensures ParseKeyString(KeyString(k)) == Some(k)
  {
    var f := [IntToString(k.ioGroup), IntToString(k.ioChannel), IntToString(k.chipId)];
    NoDashInDigits(f[0]);
    NoDashInDigits(f[1]);
    NoDashInDigits(f[2]);
    SplitJoin(f, '-');
    ParseIntOfString(k.ioGroup);
    ParseIntOfString(k.ioChannel);
    ParseIntOfString(k.chipId);
  }

  // ---------------------------------------------------------------------
  // Euclidean division with a positive divisor (Python's // and % agree
  // with Dafny's / and % whenever the divisor is positive)

  lemma MulMonotone(d: int, m: int)
    requires m > 0
    ensures d >= 1 ==> d * m >= m
    ensures d <= -1 ==> d * m <= -m
  {
    if d >= 1 {
      assert d * m == (d - 1) * m + m;
      assert (d - 1) * m >= 0;
    }
    if d <= -1 {
      assert d * m == (d + 1) * m - m;
      assert (d + 1) * m <= 0;
    }
  }

  /** Quotient and remainder are unique: `q * m + r` with `0 <= r < m`
      divides back into `q` and `r`. */
  lemma DivModUnique(q: int, r: int, m: int)
    requires m > 0 && 0 <= r < m
    ensures (q * m + r) / m == q && (q * m + r) % m == r
  {
    var u := q * m + r;
    var q', r' := u / m, u % m;
    assert u == q' * m + r';
    var d := q - q';
    assert d * m == r' - r by {
      assert q * m - q' * m == (q - q') * m;
    }
    MulMonotone(d, m);
  }
}
