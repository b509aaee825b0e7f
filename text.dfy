/** The string operations the modelled code relies on: `str.split` on a
    one-character separator, `str.join`, `str.strip`, decimal numerals and
    where one string occurs inside another. */
module Text {
  import opened Common

  /** `s.split(sep)`: the pieces between occurrences of `sep`. There is
      always at least one piece; `"".split(",")` is `[""]`. */
  function Split(s: string, sep: char): (parts: seq<string>)
    ensures |parts| > 0
    ensures forall i :: 0 <= i < |parts| ==> sep !in parts[i]
    decreases |s|
  {
    if s == [] then [""]
    else
      var rest := Split(s[1..], sep);
      if s[0] == sep then [""] + rest
      else [[s[0]] + rest[0]] + rest[1..]
  }

  /** `sep.join(parts)`. */
  function Join(parts: seq<string>, sep: string): string
    decreases |parts|
  {
    if parts == [] then ""
    else if |parts| == 1 then parts[0]
    else parts[0] + sep + Join(parts[1..], sep)
  }

  /** Number of occurrences of `c` in `s`. */
  function Count(s: string, c: char): nat
    decreases |s|
  {
    if s == [] then 0 else (if s[0] == c then 1 else 0) + Count(s[1..], c)
  }

  /** Splitting yields one more piece than there are separators. */
  lemma {:induction false} SplitLength(s: string, sep: char)
    ensures |Split(s, sep)| == Count(s, sep) + 1
    decreases |s|
  {
    if s != [] {
      SplitLength(s[1..], sep);
    }
  }

  /** Joining the pieces with the separator gives back the text. */
  lemma {:induction false} JoinSplit(s: string, sep: char)
    ensures Join(Split(s, sep), [sep]) == s
    decreases |s|
  {
    if s != [] {
      var rest := Split(s[1..], sep);
      JoinSplit(s[1..], sep);
      if s[0] == sep {
        assert Split(s, sep) == [""] + rest;
        assert Join([""] + rest, [sep]) == "" + [sep] + Join(rest, [sep]);
        assert [s[0]] + s[1..] == s;
      } else if |rest| == 1 {
        assert Split(s, sep) == [[s[0]] + rest[0]];
        assert [s[0]] + s[1..] == s;
      } else {
        var head := [[s[0]] + rest[0]];
        assert Split(s, sep) == head + rest[1..];
        assert (head + rest[1..])[1..] == rest[1..];
        assert Join(rest, [sep]) == rest[0] + [sep] + Join(rest[1..], [sep]);
        assert s == [s[0]] + s[1..];
      }
    }
  }

  /** A prefix free of the separator glues onto the first piece. */
  lemma {:induction false} SplitPrefix(a: string, t: string, sep: char)
    requires sep !in a
    ensures Split(a + t, sep) == [a + Split(t, sep)[0]] + Split(t, sep)[1..]
    decreases |a|
  {
    if a != [] {
      assert (a + t)[1..] == a[1..] + t;
      SplitPrefix(a[1..], t, sep);
      assert [a[0]] + (a[1..] + Split(t, sep)[0]) == a + Split(t, sep)[0];
    } else {
      var parts := Split(t, sep);
      assert a + t == t;
      assert a + parts[0] == parts[0];
      assert parts == [parts[0]] + parts[1..];
    }
  }

  /** Splitting a join of separator-free pieces gives back the pieces:
      the inverse of `JoinSplit`. */
  lemma {:induction false} SplitJoin(parts: seq<string>, sep: char)
    requires |parts| > 0
    requires forall i :: 0 <= i < |parts| ==> sep !in parts[i]
    ensures Split(Join(parts, [sep]), sep) == parts
    decreases |parts|
  {
    if |parts| == 1 {
      SplitPrefix(parts[0], "", sep);
      assert parts[0] + "" == parts[0];
    } else {
      var tail := Join(parts[1..], [sep]);
      SplitJoin(parts[1..], sep);
      assert Join(parts, [sep]) == parts[0] + ([sep] + tail);
      SplitPrefix(parts[0], [sep] + tail, sep);
      assert ([sep] + tail)[1..] == tail;
      assert Split([sep] + tail, sep) == [""] + parts[1..];
      assert parts[0] + "" == parts[0];
      assert parts == [parts[0]] + parts[1..];
    }
  }

  /** Two separator-free texts joined by the separator split into exactly
      those two pieces. */
  lemma SplitPair(a: string, b: string, sep: char)
    requires sep !in a && sep !in b
    ensures Split(a + [sep] + b, sep) == [a, b]
  {
    SplitJoin([a, b], sep);
    assert Join([a, b], [sep]) == a + [sep] + b;
  }

  /** `t` occurs in `s` starting at index `i`. */
  predicate OccursAt(t: string, s: string, i: nat) {
    i + |t| <= |s| && s[i..i + |t|] == t
  }

  lemma OccursAtShift(t: string, s: string, p: string, i: nat)
    requires OccursAt(t, s, i)
    ensures OccursAt(t, p + s, |p| + i)
  {
    assert (p + s)[|p| + i..|p| + i + |t|] == s[i..i + |t|];
  }

  /** Where the `k`th piece starts in `Join(parts, sep)`: after the pieces
      before it and one separator each. */
  function PartStart(parts: seq<string>, sep: string, k: nat): nat
    requires k <= |parts|
  {
    TotalLength(parts[..k]) + k * |sep|
  }

  lemma PartStartShift(parts: seq<string>, sep: string, k: nat)
    requires 0 < k <= |parts|
    ensures PartStart(parts, sep, k) == |parts[0]| + |sep| + PartStart(parts[1..], sep, k - 1)
  {
    assert parts[..k][1..] == parts[1..][..k - 1];
  }

  /** Each piece sits at its start, and a separator follows every piece but
      the last. */
  lemma {:induction false} JoinPartAt(parts: seq<string>, sep: string, k: nat)
    requires k < |parts|
    ensures OccursAt(parts[k], Join(parts, sep), PartStart(parts, sep, k))
    ensures k + 1 < |parts| ==> OccursAt(sep, Join(parts, sep), PartStart(parts, sep, k) + |parts[k]|)
    decreases |parts|
  {
    var s := Join(parts, sep);
    if k == 0 {
      assert parts[..0] == [];
      if |parts| > 1 {
        assert s == parts[0] + sep + Join(parts[1..], sep);
        assert s[..|parts[0]|] == parts[0];
        assert s[|parts[0]|..|parts[0]| + |sep|] == sep;
      }
    } else {
      var rest := Join(parts[1..], sep);
      var i := PartStart(parts[1..], sep, k - 1);
      JoinPartAt(parts[1..], sep, k - 1);
      PartStartShift(parts, sep, k);
      assert s == (parts[0] + sep) + rest;
      OccursAtShift(parts[k], rest, parts[0] + sep, i);
      if k + 1 < |parts| {
        OccursAtShift(sep, rest, parts[0] + sep, i + |parts[k]|);
      }
    }
  }

  /** The joined text is as long as the pieces and separators together. */
  lemma {:induction false} JoinLength(parts: seq<string>, sep: string)
    requires |parts| > 0
    ensures |Join(parts, sep)| == TotalLength(parts) + (|parts| - 1) * |sep|
    decreases |parts|
  {
    if |parts| > 1 {
      JoinLength(parts[1..], sep);
    }
  }

  function TotalLength(parts: seq<string>): nat
    decreases |parts|
  {
    if parts == [] then 0 else |parts[0]| + TotalLength(parts[1..])
  }

  // ---------------------------------------------------------------------
  // str.strip()

  /** The characters Python's unicode `strip()` removes. */
  predicate IsSpace(c: char) {
    ('\t' <= c <= '\r') || ('\U{1C}' <= c <= ' ') || c == '\U{85}' || c == '\U{A0}'
    || c == '\U{1680}' || c == '\U{180E}' || ('\U{2000}' <= c <= '\U{200A}')
    || c == '\U{2028}' || c == '\U{2029}' || c == '\U{202F}' || c == '\U{205F}'
    || c == '\U{3000}'
  }

  function TrimLeft(s: string): (r: string)
    ensures |r| <= |s| && r == s[|s| - |r|..]
    ensures r == [] || !IsSpace(r[0])
    ensures forall i :: 0 <= i < |s| - |r| ==> IsSpace(s[i])
    decreases |s|
  {
    if s != [] && IsSpace(s[0]) then TrimLeft(s[1..]) else s
  }

  function TrimRight(s: string): (r: string)
    ensures |r| <= |s| && r == s[..|r|]
    ensures r == [] || !IsSpace(r[|r| - 1])
    ensures forall i :: |r| <= i < |s| ==> IsSpace(s[i])
    decreases |s|
  {
    if s != [] && IsSpace(s[|s| - 1]) then TrimRight(s[..|s| - 1]) else s
  }

  /** A prefix of a suffix is a slice. */
  lemma SliceOfSuffix<T>(s: seq<T>, i: nat, n: nat)
    requires i + n <= |s|
    ensures s[i..][..n] == s[i..i + n]
  {
  }

  /** `s.strip()`: the text with leading and trailing whitespace removed. */
  function Strip(s: string): (r: string)
    ensures r == [] || (!IsSpace(r[0]) && !IsSpace(r[|r| - 1]))
    ensures exists i: nat :: OccursAt(r, s, i)
  {
    StripEnds(s);
    StripOccurs(s);
    TrimRight(TrimLeft(s))
  }

  lemma StripEnds(s: string)
    ensures var r := TrimRight(TrimLeft(s));
            r == [] || (!IsSpace(r[0]) && !IsSpace(r[|r| - 1]))
  {
    var left := TrimLeft(s);
    var r := TrimRight(left);
    assert r != [] ==> r[0] == left[0];
  }

  lemma StripOccurs(s: string)
    ensures OccursAt(TrimRight(TrimLeft(s)), s, |s| - |TrimLeft(s)|)
  {
    PrefixOfSuffixOccurs(s, TrimLeft(s), TrimRight(TrimLeft(s)));
  }

  /** A prefix of a suffix of `s` occurs in `s` where the suffix starts. */
  lemma PrefixOfSuffixOccurs(s: string, suffix: string, t: string)
    requires |suffix| <= |s| && suffix == s[|s| - |suffix|..]
    requires |t| <= |suffix| && t == suffix[..|t|]
    ensures OccursAt(t, s, |s| - |suffix|)
  {
    SliceOfSuffix(s, |s| - |suffix|, |t|);
  }

  // ---------------------------------------------------------------------
  // Decimal numerals (`str(n)` for integers)

  predicate IsDigit(c: char) {
    '0' <= c <= '9'
  }

  function DigitChar(d: nat): (c: char)
    requires d < 10
    ensures IsDigit(c) && c as int - '0' as int == d
  {
    ('0' as int + d) as char
  }

  /** `str(n)` for a natural number: the shortest decimal numeral. */
  function NatToString(n: nat): string
    decreases n
  {
    if n < 10 then [DigitChar(n)] else NatToString(n / 10) + [DigitChar(n % 10)]
  }

  function DigitsValue(s: string): nat
    requires forall i :: 0 <= i < |s| ==> IsDigit(s[i])
    decreases |s|
  {
    if s == [] then 0
    else
      var last := s[|s| - 1];
      assert IsDigit(last);
      DigitsValue(s[..|s| - 1]) * 10 + (last as int - '0' as int)
  }

  /** Reads a non-empty string of decimal digits. */
  function ParseNat(s: string): Option<nat> {
    if s != [] && forall i :: 0 <= i < |s| ==> IsDigit(s[i]) then Some(DigitsValue(s))
    else None
  }

  /** `str(i)` for an integer: a minus sign before negative values. */
  function IntToString(i: int): string {
    if i < 0 then "-" + NatToString(-i) else NatToString(i)
  }

  function ParseInt(s: string): Option<int> {
    if s != [] && s[0] == '-' then
      match ParseNat(s[1..])
      case Some(n) => Some(-(n as int))
      case None => None
    else
      match ParseNat(s)
      case Some(n) => Some(n)
      case None => None
  }

  /** A numeral is a non-empty run of digits and reads back as its value. */
  lemma {:induction false} NatToStringRoundTrip(n: nat)
    ensures |NatToString(n)| > 0
    ensures forall i :: 0 <= i < |NatToString(n)| ==> IsDigit(NatToString(n)[i])
    ensures ParseNat(NatToString(n)) == Some(n)
    decreases n
  {
    var s := NatToString(n);
    if n < 10 {
      assert s[..|s| - 1] == [];
      assert DigitsValue(s) == DigitsValue([]) * 10 + n;
    } else {
      NatToStringRoundTrip(n / 10);
      var prefix := NatToString(n / 10);
      assert s == prefix + [DigitChar(n % 10)];
      assert s[..|s| - 1] == prefix;
      assert DigitsValue(s) == DigitsValue(prefix) * 10 + n % 10;
    }
  }

  /** Integer numerals read back as their value. */
  lemma IntToStringRoundTrip(i: int)
    ensures ParseInt(IntToString(i)) == Some(i)
  {
    if i < 0 {
      NatToStringRoundTrip(-i);
      assert IntToString(i)[1..] == NatToString(-i);
    } else {
      NatToStringRoundTrip(i);
    }
  }
}
