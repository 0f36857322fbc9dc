/** The few Python `str` operations the integration relies on: `isspace`,
    `strip`, `startswith`, `split` on one separator character, decimal
    `str(int)`, and `int(str)` in base 10. */
module PyText {
  import opened Base

  /** The characters for which Python's `str.isspace()` holds. */
  predicate IsSpace(c: char) {
    || c == ' ' || c == '\t' || c == '\n' || c == '\r' || c == '\U{0B}' || c == '\U{0C}'
    || ('\U{1C}' <= c <= '\U{1F}') || c == '\U{85}' || c == '\U{A0}' || c == '\U{1680}'
    || ('\U{2000}' <= c <= '\U{200A}') || c == '\U{2028}' || c == '\U{2029}'
    || c == '\U{202F}' || c == '\U{205F}' || c == '\U{3000}'
  }

  /** `s.lstrip()`: the longest suffix of `s` that does not start with whitespace. */
  function TrimStart(s: string): (r: string)
    ensures |r| <= |s| && r == s[|s| - |r|..]
    ensures r == [] || !IsSpace(r[0])
    ensures forall i :: 0 <= i < |s| - |r| ==> IsSpace(s[i])
  {
    if s != [] && IsSpace(s[0]) then TrimStart(s[1..]) else s
  }

  /** `s.rstrip()`: the longest prefix of `s` that does not end with whitespace. */
  function TrimEnd(s: string): (r: string)
    ensures |r| <= |s| && r == s[..|r|]
    ensures r == [] || !IsSpace(r[|r| - 1])
    ensures forall i :: |r| <= i < |s| ==> IsSpace(s[i])
  {
    if s != [] && IsSpace(s[|s| - 1]) then TrimEnd(s[..|s| - 1]) else s
  }

  /** `s.strip()`: `s` without its leading and trailing whitespace. */
  function Strip(s: string): (r: string)
    ensures |r| <= |s|
    ensures r == [] || (!IsSpace(r[0]) && !IsSpace(r[|r| - 1]))
  {
    TrimEnd(TrimStart(s))
  }

  /** A slice of a suffix of `s` is a slice of `s`, and what follows it in
      the suffix follows it in `s`. */
  lemma SliceOfSuffix(s: string, t: string, r: string)
    requires |t| <= |s| && t == s[|s| - |t|..]
    requires |r| <= |t| && r == t[..|r|]
    requires forall j :: |r| <= j < |t| ==> IsSpace(t[j])
    ensures r == s[|s| - |t|..|s| - |t| + |r|]
    ensures forall j :: |s| - |t| + |r| <= j < |s| ==> IsSpace(s[j])
  {
    var i := |s| - |t|;
    forall j | i + |r| <= j < |s| ensures IsSpace(s[j]) {
      assert s[j] == t[j - i];
    }
  }

  /** `strip()` removes whitespace and nothing else: what it keeps is the
      slice of `s` that starts after the leading whitespace, and only
      whitespace follows that slice. */
  lemma StripKeepsTheMiddle(s: string)
    ensures var r := Strip(s); var i := |s| - |TrimStart(s)|;
      && 0 <= i <= |s| - |r| && r == s[i..i + |r|]
      && (forall j :: 0 <= j < i ==> IsSpace(s[j]))
      && (forall j :: i + |r| <= j < |s| ==> IsSpace(s[j]))
  {
    var t := TrimStart(s);
    var r := TrimEnd(t);
    assert Strip(s) == r;
    SliceOfSuffix(s, t, r);
  }

  /** A string that neither starts nor ends with whitespace is its own `strip()`. */
  lemma StripUntrimmed(s: string)
    requires s == [] || (!IsSpace(s[0]) && !IsSpace(s[|s| - 1]))
    ensures Strip(s) == s
  {
  }

  /** `s.startswith(prefix)`. */
  predicate StartsWith(s: string, prefix: string) {
    |prefix| <= |s| && s[..|prefix|] == prefix
  }

  /** The index of the first occurrence of `c` in `s`. */
  function FirstIndex(s: string, c: char): (i: nat)
    requires c in s
    ensures i < |s| && s[i] == c && c !in s[..i]
  {
    if s[0] == c then 0
    else
      var j := FirstIndex(s[1..], c);
      assert s[..j + 1] == [s[0]] + s[1..][..j];
      j + 1
  }

  /** `s.split(sep)` for a one-character separator: always at least one part
      (`"".split("\n") == [""]`), and no part contains the separator. */
  function Split(s: string, sep: char): (parts: seq<string>)
    ensures |parts| >= 1
    ensures forall k :: 0 <= k < |parts| ==> sep !in parts[k]
    decreases |s|
  {
    if sep !in s then [s]
    else
      var i := FirstIndex(s, sep);
      [s[..i]] + Split(s[i + 1..], sep)
  }

  /** `sep.join(parts)`. */
  function Join(parts: seq<string>, sep: char): string
    requires |parts| >= 1
  {
    if |parts| == 1 then parts[0] else parts[0] + [sep] + Join(parts[1..], sep)
  }

  /** Splitting loses nothing: joining the parts back gives the original text. */
  lemma {:induction false} JoinSplit(s: string, sep: char)
    ensures Join(Split(s, sep), sep) == s
    decreases |s|
  {
    if sep in s {
      var i := FirstIndex(s, sep);
      var rest := Split(s[i + 1..], sep);
      JoinSplit(s[i + 1..], sep);
      assert Split(s, sep) == [s[..i]] + rest;
      assert Join([s[..i]] + rest, sep) == s[..i] + [sep] + Join(rest, sep) by {
        assert ([s[..i]] + rest)[1..] == rest;
      }
      assert s == s[..i] + [sep] + s[i + 1..];
    }
  }

  lemma {:induction false} FirstIndexOfJoin(a: string, c: char, b: string)
    requires c !in a
    ensures FirstIndex(a + [c] + b, c) == |a|
  {
    if a != [] {
      assert (a + [c] + b)[1..] == a[1..] + [c] + b;
      FirstIndexOfJoin(a[1..], c, b);
    }
  }

  /** Splitting at the first separator: the text before it, then the rest. */
  lemma SplitAtFirst(a: string, c: char, b: string)
    requires c !in a
    ensures Split(a + [c] + b, c) == [a] + Split(b, c)
  {
    var s := a + [c] + b;
    FirstIndexOfJoin(a, c, b);
    assert s[|a|] == c;
    assert s[..|a|] == a;
    assert s[|a| + 1..] == b;
  }

  /** Splitting recovers the parts of a join whose parts hold no separator. */
  lemma {:induction false} SplitJoin(parts: seq<string>, sep: char)
    requires |parts| >= 1
    requires forall k :: 0 <= k < |parts| ==> sep !in parts[k]
    ensures Split(Join(parts, sep), sep) == parts
    decreases |parts|
  {
    if |parts| > 1 {
      var rest := Join(parts[1..], sep);
      SplitJoin(parts[1..], sep);
      assert Join(parts, sep) == parts[0] + [sep] + rest;
      SplitAtFirst(parts[0], sep, rest);
      assert parts == [parts[0]] + parts[1..];
    }
  }

  predicate IsDigit(c: char) {
    '0' <= c <= '9'
  }

  predicate AllDigits(s: string) {
    forall i :: 0 <= i < |s| ==> IsDigit(s[i])
  }

  function DigitValue(c: char): nat
    requires IsDigit(c)
  {
    (c as int) - ('0' as int)
  }

  function DigitChar(d: nat): (c: char)
    requires d < 10
    ensures IsDigit(c) && DigitValue(c) == d
  {
    (('0' as int) + d) as char
  }

  /** The value of a run of decimal digits, most significant first. */
  function DigitsValue(s: string): nat
    requires AllDigits(s)
  {
    if s == [] then 0 else 10 * DigitsValue(s[..|s| - 1]) + DigitValue(s[|s| - 1])
  }

  /** `str(n)` for a natural number: a non-empty run of digits. */
  function NatToString(n: nat): (r: string)
    ensures r != [] && AllDigits(r)
    decreases n
  {
    if n < 10 then [DigitChar(n)] else NatToString(n / 10) + [DigitChar(n % 10)]
  }

  /** `str(n)` for any integer. */
  function IntToString(n: int): string {
    if n < 0 then "-" + NatToString(-n) else NatToString(n)
  }

  lemma {:induction false} DigitsValueOfNatToString(n: nat)
    ensures DigitsValue(NatToString(n)) == n
    decreases n
  {
    if n >= 10 {
      DigitsValueOfNatToString(n / 10);
      var s := NatToString(n);
      assert s[..|s| - 1] == NatToString(n / 10);
    }
  }

  predicate DigitOrSeparator(c: char) {
    IsDigit(c) || c == '_'
  }

  /** A separator at position `k` is followed by a digit. */
  predicate SeparatorFollowed(s: string, k: nat)
    requires k < |s|
  {
    s[k] == '_' ==> k + 1 < |s| && IsDigit(s[k + 1])
  }

  /** The digits of an integer literal as `int()` reads them: ASCII digits,
      where a single `_` may separate two digits. */
  predicate GroupedDigits(s: string) {
    && s != [] && IsDigit(s[0])
    && (forall k :: 0 <= k < |s| ==> DigitOrSeparator(s[k]))
    && (forall k :: 0 <= k < |s| ==> SeparatorFollowed(s, k))
  }

  /** `s` with its separators removed. */
  function Ungrouped(s: string): (r: string)
    requires forall k :: 0 <= k < |s| ==> DigitOrSeparator(s[k])
    ensures |r| <= |s| && AllDigits(r)
  {
    if s == [] then []
    else
      var head := if s[0] == '_' then [] else [s[0]];
      var rest := Ungrouped(s[1..]);
      assert DigitOrSeparator(s[0]);
      ConcatDigits(head, rest);
      head + rest
  }

  /** The value of a well-grouped run of digits, or `None`. */
  function GroupedValue(t: string): (v: Option<nat>)
    ensures v.Some? <==> GroupedDigits(t)
  {
    if GroupedDigits(t) then Some(DigitsValue(Ungrouped(t))) else None
  }

  /** A sign, if any, and grouped digits: what `int()` reads once the
      surrounding whitespace is gone. */
  function ParseSigned(t: string): Option<int> {
    if t != [] && (t[0] == '-' || t[0] == '+') then
      match GroupedValue(t[1..])
      case Some(v) => var n: int := v; Some(if t[0] == '-' then -n else n)
      case None => None
    else
      match GroupedValue(t)
      case Some(v) => Some(v)
      case None => None
  }

  /** `int(s)` for a `str` argument: surrounding whitespace is ignored, then an
      optional sign and ASCII digits, possibly grouped by single underscores;
      anything else raises `ValueError`, which is `None` here. */
  function ParseInt(s: string): Option<int> {
    ParseSigned(Strip(s))
  }

  /** A text with no whitespace at either end is read as it stands. */
  lemma ParseUntrimmed(s: string)
    requires s != [] && !IsSpace(s[0]) && !IsSpace(s[|s| - 1])
    ensures ParseInt(s) == ParseSigned(s)
  {
    StripUntrimmed(s);
  }

  lemma DigitIsNotSpace(c: char)
    requires DigitOrSeparator(c)
    ensures !IsSpace(c)
  {
  }

  lemma {:induction false} UngroupedAppend(a: string, b: string)
    requires forall k :: 0 <= k < |a| ==> DigitOrSeparator(a[k])
    requires forall k :: 0 <= k < |b| ==> DigitOrSeparator(b[k])
    ensures forall k :: 0 <= k < |a + b| ==> DigitOrSeparator((a + b)[k])
    ensures Ungrouped(a + b) == Ungrouped(a) + Ungrouped(b)
  {
    assert forall k :: 0 <= k < |a + b| ==> DigitOrSeparator((a + b)[k]) by {
      forall k | 0 <= k < |a + b| ensures DigitOrSeparator((a + b)[k]) {
        if k < |a| { assert (a + b)[k] == a[k]; } else { assert (a + b)[k] == b[k - |a|]; }
      }
    }
    if a != [] {
      var head := if a[0] == '_' then [] else [a[0]];
      assert (a + b)[1..] == a[1..] + b;
      UngroupedAppend(a[1..], b);
      assert head + (Ungrouped(a[1..]) + Ungrouped(b)) == (head + Ungrouped(a[1..])) + Ungrouped(b);
    } else {
      assert a + b == b;
    }
  }

  lemma {:induction false} UngroupedOfDigits(s: string)
    requires AllDigits(s)
    ensures Ungrouped(s) == s
  {
    if s != [] {
      UngroupedOfDigits(s[1..]);
    }
  }

  lemma DigitsAreGrouped(s: string)
    requires s != [] && AllDigits(s)
    ensures GroupedDigits(s) && Ungrouped(s) == s
  {
    UngroupedOfDigits(s);
  }

  lemma GroupedValueOfDigits(s: string)
    requires s != [] && AllDigits(s)
    ensures GroupedValue(s) == Some(DigitsValue(s))
  {
    DigitsAreGrouped(s);
  }

  lemma ConcatDigits(a: string, b: string)
    requires AllDigits(a) && AllDigits(b)
    ensures AllDigits(a + b)
  {
    forall k | 0 <= k < |a + b| ensures IsDigit((a + b)[k]) {
      if k < |a| { assert (a + b)[k] == a[k]; } else { assert (a + b)[k] == b[k - |a|]; }
    }
  }

  lemma SeparatedIsGrouped(a: string, b: string)
    requires a != [] && AllDigits(a) && b != [] && AllDigits(b)
    ensures GroupedDigits(a + "_" + b)
  {
    var s := a + "_" + b;
    forall k | 0 <= k < |s|
      ensures DigitOrSeparator(s[k]) && SeparatorFollowed(s, k)
    {
      if k < |a| {
        assert s[k] == a[k];
      } else if k > |a| {
        assert s[k] == b[k - |a| - 1];
      } else {
        assert s[k + 1] == b[0];
      }
    }
  }

  lemma SeparatedDigits(a: string, b: string)
    requires a != [] && AllDigits(a) && b != [] && AllDigits(b)
    ensures GroupedDigits(a + "_" + b) && Ungrouped(a + "_" + b) == a + b
  {
    SeparatedIsGrouped(a, b);
    UngroupedOfDigits(a);
    UngroupedOfDigits(b);
    UngroupedAppend(a, "_");
    assert Ungrouped("_") == [];
    assert Ungrouped(a + "_") == a;
    UngroupedAppend(a + "_", b);
    assert Ungrouped(a + "_" + b) == a + b;
  }

  /** A text that starts with a digit and ends with a digit or `_` is read
      without a sign and without trimming. */
  lemma ParseUnsigned(s: string)
    requires s != [] && IsDigit(s[0]) && DigitOrSeparator(s[|s| - 1])
    ensures GroupedDigits(s) ==> ParseInt(s) == Some(DigitsValue(Ungrouped(s)))
    ensures !GroupedDigits(s) ==> ParseInt(s) == None
  {
    DigitIsNotSpace(s[0]);
    DigitIsNotSpace(s[|s| - 1]);
    ParseUntrimmed(s);
    assert !(s[0] == '-' || s[0] == '+');
  }

  /** A single `_` between two runs of digits is ignored; a doubled or a
      trailing one makes `int()` raise. */
  lemma UnderscoreGrouping(a: string, b: string)
    requires a != [] && AllDigits(a) && b != [] && AllDigits(b)
    ensures ParseInt(a + "_" + b) == ParseInt(a + b) == Some(DigitsValue(a + b))
    ensures ParseInt(a + "__" + b) == None
    ensures ParseInt(a + "_") == None
  {
    var s := a + "_" + b;
    SeparatedDigits(a, b);
    ConcatDigits(a, b);
    assert s[0] == a[0] && s[|s| - 1] == b[|b| - 1];
    ParseUnsigned(s);
    ParseDigits(a + b);
    var d := a + "__" + b;
    assert d[0] == a[0] && d[|d| - 1] == b[|b| - 1];
    ParseUnsigned(d);
    assert d[|a|] == '_' && d[|a| + 1] == '_' && !SeparatorFollowed(d, |a|);
    var e := a + "_";
    assert e[0] == a[0];
    ParseUnsigned(e);
    assert e[|a|] == '_' && !SeparatorFollowed(e, |a|);
  }

  /** A run of digits, with or without a minus sign, is read as its value. */
  lemma ParseDigits(t: string)
    requires t != [] && AllDigits(t)
    ensures ParseInt(t) == Some(DigitsValue(t))
  {
    ParseUnsigned(t);
    GroupedValueOfDigits(t);
  }

  lemma ParseNegativeDigits(t: string)
    requires t != [] && AllDigits(t)
    ensures ParseInt("-" + t) == Some(-(DigitsValue(t) as int))
  {
    var s := ['-'] + t;
    assert s[1..] == t;
    assert s[|s| - 1] == t[|t| - 1];
    DigitIsNotSpace(t[|t| - 1]);
    assert !IsSpace(s[0]);
    ParseUntrimmed(s);
    GroupedValueOfDigits(t);
    assert s != [] && s[0] == '-';
    assert GroupedValue(s[1..]) == Some(DigitsValue(t));
    assert ParseSigned(s) == Some(-(DigitsValue(t) as int));
  }

  /** `int(str(n)) == n`. */
  lemma ParseIntRoundTrip(n: int)
    ensures ParseInt(IntToString(n)) == Some(n)
  {
    var t := NatToString(if n < 0 then -n else n);
    DigitsValueOfNatToString(if n < 0 then -n else n);
    var s := IntToString(n);
    if n < 0 {
      ParseNegativeDigits(t);
      assert s == "-" + t;
      assert ParseInt(s) == Some(n);
    } else {
      ParseDigits(t);
      assert s == t;
    }
  }
}
