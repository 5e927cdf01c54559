/** The fragment of Python's `str` behaviour the monitor relies on: `strip()`,
    `split(sep)`, `', '.join(...)`, single-character `replace`, ASCII `lower()`,
    and `int()`/`str()` of whole numbers. Every parser in the monitor is a chain
    of these, and a Python `IndexError` on `split(...)[k]` is a `None` here. */
module Text {
  import opened Wrappers

  // ---------------------------------------------------------------------------
  // Whitespace and strip()
  // ---------------------------------------------------------------------------

  /** The characters for which Python's `str.isspace()` holds, which are the ones
      `str.strip()` with no argument removes. */
  predicate IsSpace(c: char) {
    || c == ' '
    || ('\t' <= c <= '\r')
    || ('\U{1c}' <= c <= '\U{1f}')
    || c == '\U{85}' || c == '\U{a0}' || c == '\U{1680}'
    || ('\U{2000}' <= c <= '\U{200a}')
    || c == '\U{2028}' || c == '\U{2029}' || c == '\U{202f}' || c == '\U{205f}' || c == '\U{3000}'
  }

  /** The index of the first non-whitespace character of `s` at or after `i`,
      or `|s|` when there is none: where `s.lstrip()` starts. */
  function Lead(s: string, i: nat): (r: nat)
    requires i <= |s|
    ensures i <= r <= |s|
    ensures forall k :: i <= k < r ==> IsSpace(s[k])
    ensures r < |s| ==> !IsSpace(s[r])
    decreases |s| - i
  {
    if i < |s| && IsSpace(s[i]) then Lead(s, i + 1) else i
  }

  /** The index just past the last non-whitespace character of `s[lo..j]`, or
      `lo` when there is none: where `s[lo..j].rstrip()` ends. */
  function Trail(s: string, lo: nat, j: nat): (r: nat)
    requires lo <= j <= |s|
    ensures lo <= r <= j
    ensures forall k :: r <= k < j ==> IsSpace(s[k])
    ensures r > lo ==> !IsSpace(s[r - 1])
    decreases j
  {
    if j > lo && IsSpace(s[j - 1]) then Trail(s, lo, j - 1) else j
  }

  /** `s.strip()`: the result is a slice of `s` that neither starts nor ends with
      whitespace, and everything cut away on either side is whitespace. */
  function Strip(s: string): (r: string)
    ensures Lead(s, 0) + |r| <= |s| && r == s[Lead(s, 0)..Lead(s, 0) + |r|]
    ensures forall i :: 0 <= i < Lead(s, 0) ==> IsSpace(s[i])
    ensures forall i :: Lead(s, 0) + |r| <= i < |s| ==> IsSpace(s[i])
    ensures r != [] ==> !IsSpace(r[0]) && !IsSpace(r[|r| - 1])
  {
    var lo := Lead(s, 0);
    s[lo..Trail(s, lo, |s|)]
  }

  predicate AllSpace(s: string) {
    forall i :: 0 <= i < |s| ==> IsSpace(s[i])
  }

  /** Whitespace up to `n`, and no whitespace at `n`, pins down where the
      leading whitespace ends. */
  lemma {:induction false} LeadAt(s: string, n: nat)
    requires n <= |s|
    requires forall k :: 0 <= k < n ==> IsSpace(s[k])
    requires n < |s| ==> !IsSpace(s[n])
    ensures Lead(s, 0) == n
  {
  }

  /** Whitespace from `m` on, and no whitespace just before `m`, pins down
      where the trailing whitespace starts. */
  lemma {:induction false} TrailAt(s: string, lo: nat, m: nat)
    requires lo <= m <= |s|
    requires forall k :: m <= k < |s| ==> IsSpace(s[k])
    requires m > lo ==> !IsSpace(s[m - 1])
    ensures Trail(s, lo, |s|) == m
  {
  }

  /** `strip()` removes exactly the surrounding whitespace: padding a text that
      neither starts nor ends with whitespace and stripping it gives it back. */
  lemma {:induction false} StripPadded(before: string, t: string, after: string)
    requires AllSpace(before) && AllSpace(after)
    requires t != [] ==> !IsSpace(t[0]) && !IsSpace(t[|t| - 1])
    ensures Strip(before + t + after) == t
  {
    var s := before + t + after;
    var lo := |before|;
    forall k | 0 <= k < lo ensures IsSpace(s[k]) {
      assert s[k] == before[k];
    }
    forall k | lo + |t| <= k < |s| ensures IsSpace(s[k]) {
      assert s[k] == after[k - lo - |t|];
    }
    if t == [] {
      LeadAt(s, |s|);
      TrailAt(s, |s|, |s|);
    } else {
      assert s[lo] == t[0] && s[lo + |t| - 1] == t[|t| - 1];
      LeadAt(s, lo);
      TrailAt(s, lo, lo + |t|);
    }
    assert s[lo..lo + |t|] == t;
  }

  // ---------------------------------------------------------------------------
  // Substring search, split and join
  // ---------------------------------------------------------------------------

  /** `sub` occurs in `s` starting at index `i`. */
  predicate OccursAt(s: string, sub: string, i: nat) {
    i + |sub| <= |s| && s[i..i + |sub|] == sub
  }

  /** Python's `sub in s`. */
  predicate Contains(s: string, sub: string) {
    exists i: nat :: i <= |s| && OccursAt(s, sub, i)
  }

  /** The first index at or after `from` where `sep` occurs (`s.find(sep, from)`). */
  function FindFrom(s: string, sep: string, from: nat): (r: Option<nat>)
    requires from <= |s|
    ensures r.Some? ==> from <= r.value && OccursAt(s, sep, r.value)
    ensures r.Some? ==> forall j: nat :: from <= j < r.value ==> !OccursAt(s, sep, j)
    ensures r.None? ==> forall j: nat :: from <= j ==> !OccursAt(s, sep, j)
    decreases |s| - from
  {
    if from + |sep| > |s| then None
    else if s[from..from + |sep|] == sep then Some(from)
    else FindFrom(s, sep, from + 1)
  }

  function Find(s: string, sep: string): (r: Option<nat>)
    ensures r.Some? ==> OccursAt(s, sep, r.value)
    ensures r.Some? ==> forall j: nat :: j < r.value ==> !OccursAt(s, sep, j)
    ensures r.None? <==> !Contains(s, sep)
  {
    FindFrom(s, sep, 0)
  }

  /** An occurrence inside a prefix that ends before the first match cannot exist. */
  lemma {:induction false} NoMatchBefore(s: string, sep: string, i: nat)
    requires |sep| > 0 && i <= |s|
    requires forall j: nat :: j < i ==> !OccursAt(s, sep, j)
    ensures !Contains(s[..i], sep)
  {
    forall j: nat | j <= i && OccursAt(s[..i], sep, j)
      ensures false
    {
      assert s[..i][j..j + |sep|] == s[j..j + |sep|];
      assert OccursAt(s, sep, j);
    }
  }

  /** Python's `s.split(sep)` for a non-empty separator: the pieces between
      successive non-overlapping occurrences of `sep`, scanning from the left.
      There is always at least one piece and no piece contains `sep`. */
  function Split(s: string, sep: string): (r: seq<string>)
    requires |sep| > 0
    ensures |r| >= 1
    ensures forall k :: 0 <= k < |r| ==> !Contains(r[k], sep)
    decreases |s|
  {
    match Find(s, sep)
    case None => [s]
    case Some(i) =>
      NoMatchBefore(s, sep, i);
      [s[..i]] + Split(s[i + |sep|..], sep)
  }

  /** Python's `sep.join(fs)`. */
  function Join(fs: seq<string>, sep: string): string
  {
    if |fs| == 0 then ""
    else if |fs| == 1 then fs[0]
    else fs[0] + sep + Join(fs[1..], sep)
  }

  /** `sep.join(s.split(sep)) == s`: splitting loses nothing. */
  lemma {:induction false} JoinSplit(s: string, sep: string)
    requires |sep| > 0
    ensures Join(Split(s, sep), sep) == s
    decreases |s|
  {
    var parts := Split(s, sep);
    if Find(s, sep).Some? {
      var i := Find(s, sep).value;
      var rest := s[i + |sep|..];
      assert parts == [s[..i]] + Split(rest, sep);
      assert parts[1..] == Split(rest, sep);
      JoinSplit(rest, sep);
      assert Join(parts, sep) == s[..i] + sep + rest;
      assert s == s[..i] + sep + rest;
    }
  }

  /** `sep` is found right after `a` in `a + sep`, and not earlier. */
  predicate FirstAfter(a: string, sep: string) {
    forall j: nat :: j < |a| ==> !OccursAt(a + sep, sep, j)
  }

  /** A text that does not contain the separator's first character has no
      occurrence of the separator starting inside it. */
  lemma {:induction false} FirstAfterWithoutLead(a: string, sep: string)
    requires |sep| > 0 && sep[0] !in a
    ensures FirstAfter(a, sep)
  {
    forall j: nat | j < |a|
      ensures !OccursAt(a + sep, sep, j)
    {
      assert (a + sep)[j] == a[j];
    }
  }

  /** Splitting `a + sep + b` peels off `a` as the first piece. */
  lemma {:induction false} SplitCons(a: string, sep: string, b: string)
    requires |sep| > 0 && FirstAfter(a, sep)
    ensures Split(a + sep + b, sep) == [a] + Split(b, sep)
  {
    var s := a + sep + b;
    assert OccursAt(s, sep, |a|) by { assert s[|a|..|a| + |sep|] == sep; }
    forall j: nat | j < |a|
      ensures !OccursAt(s, sep, j)
    {
      if OccursAt(s, sep, j) {
        assert s[j..j + |sep|] == (a + sep)[j..j + |sep|];
        assert OccursAt(a + sep, sep, j);
      }
    }
    assert Find(s, sep) == Some(|a|);
    assert s[..|a|] == a;
    assert s[|a| + |sep|..] == b;
  }

  /** A text without the separator's first character splits into itself. */
  lemma {:induction false} SplitWhole(a: string, sep: string)
    requires |sep| > 0 && sep[0] !in a
    ensures Split(a, sep) == [a]
  {
    forall j: nat | j <= |a|
      ensures !OccursAt(a, sep, j)
    {
      if j < |a| {
        assert a[j] in a;
      }
    }
  }

  /** `s.split(sep)[k]`, with `None` for Python's `IndexError`. */
  function Field(s: string, sep: string, k: nat): (r: Option<string>)
    requires |sep| > 0
    ensures r.Some? <==> k < |Split(s, sep)|
    ensures r.Some? ==> !Contains(r.value, sep)
  {
    var parts := Split(s, sep);
    if k < |parts| then Some(parts[k]) else None
  }

  /** `s.split(sep)[0]` never fails, and is `s` up to the first `sep`. */
  lemma {:induction false} FirstFieldIsPrefix(s: string, sep: string)
    requires |sep| > 0
    ensures Field(s, sep, 0).Some?
    ensures var f := Field(s, sep, 0).value;
            f == s[..|f|] && (|f| < |s| ==> OccursAt(s, sep, |f|))
  {
    match Find(s, sep)
    case None =>
    case Some(i) =>
      assert Split(s, sep)[0] == s[..i];
  }

  /** A text that does not contain the one-character string `[c]` has no `c`. */
  lemma {:induction false} NoCharFromContains(s: string, c: char)
    requires !Contains(s, [c])
    ensures c !in s
  {
    forall i | 0 <= i < |s| ensures s[i] != c {
      assert s[i..i + 1] == [s[i]];
      assert !OccursAt(s, [c], i);
    }
  }

  /** When `a` does not contain the separator's first character, the first
      piece of `(a + b).split(sep)` starts with all of `a`. */
  lemma {:induction false} FirstFieldStartsWith(a: string, b: string, sep: string)
    requires |sep| > 0 && sep[0] !in a
    ensures var f := Field(a + b, sep, 0).value; |a| <= |f| && f == a + f[|a|..]
  {
    var s := a + b;
    FirstFieldIsPrefix(s, sep);
    var f := Field(s, sep, 0).value;
    forall j: nat | j < |a|
      ensures !OccursAt(s, sep, j)
    {
      assert s[j] == a[j];
    }
    assert |a| <= |f|;
    assert f[..|a|] == s[..|a|] == a;
  }

  /** The first occurrence of a separator whose second character is absent
      from `a` (past its first position) is the one placed right after `a`. */
  lemma {:induction false} FirstAfterWithoutSecond(a: string, sep: string)
    requires |sep| >= 2 && sep[0] != sep[1]
    requires forall i :: 1 <= i < |a| ==> a[i] != sep[1]
    ensures FirstAfter(a, sep)
  {
    forall j: nat | j < |a|
      ensures !OccursAt(a + sep, sep, j)
    {
      var s := a + sep;
      if j + 1 < |a| {
        assert s[j + 1] == a[j + 1];
      } else {
        assert s[j + 1] == sep[0];
      }
      assert s[j..j + |sep|][1] == s[j + 1];
    }
  }

  /** Joining fields that do not contain the separator's first character and
      splitting again gives back exactly those fields. */
  lemma {:induction false} SplitJoin(fs: seq<string>, sep: string)
    requires |fs| >= 1 && |sep| > 0
    requires forall k :: 0 <= k < |fs| ==> sep[0] !in fs[k]
    ensures Split(Join(fs, sep), sep) == fs
    decreases |fs|
  {
    if |fs| == 1 {
      SplitWhole(fs[0], sep);
    } else {
      FirstAfterWithoutLead(fs[0], sep);
      SplitCons(fs[0], sep, Join(fs[1..], sep));
      SplitJoin(fs[1..], sep);
      assert fs == [fs[0]] + fs[1..];
    }
  }

  /** A character found neither in the fields nor in the separator is not in
      their join. */
  lemma {:induction false} NotInJoin(fs: seq<string>, sep: string, c: char)
    requires c !in sep && forall k :: 0 <= k < |fs| ==> c !in fs[k]
    ensures c !in Join(fs, sep)
    decreases |fs|
  {
    if |fs| > 1 {
      NotInJoin(fs[1..], sep, c);
    }
  }

  /** `s.split(sep)[1]` exists exactly when `sep` occurs in `s`. */
  lemma {:induction false} FieldOneExists(s: string, sep: string)
    requires |sep| > 0
    ensures Field(s, sep, 1).Some? <==> Contains(s, sep)
  {
    match Find(s, sep)
    case None =>
    case Some(i) =>
      assert |Split(s, sep)| >= 2;
  }

  // ---------------------------------------------------------------------------
  // replace() and lower()
  // ---------------------------------------------------------------------------

  /** Python's `s.replace(c, t)` for a one-character `c`. */
  function ReplaceChar(s: string, c: char, t: string): (r: string)
    ensures c !in t ==> c !in r
    ensures forall d :: d in r ==> d in s || d in t
    ensures c !in s ==> r == s
    ensures s == [c] ==> r == t
    ensures |s| == 1 && s[0] != c ==> r == s
    decreases |s|
  {
    if s == [] then []
    else (if s[0] == c then t else [s[0]]) + ReplaceChar(s[1..], c, t)
  }

  /** Replacing a character works piece by piece. */
  lemma {:induction false} ReplaceCharAppend(a: string, b: string, c: char, t: string)
    ensures ReplaceChar(a + b, c, t) == ReplaceChar(a, c, t) + ReplaceChar(b, c, t)
    decreases |a|
  {
    if a != [] {
      var head := if a[0] == c then t else [a[0]];
      assert (a + b)[0] == a[0] && (a + b)[1..] == a[1..] + b;
      ReplaceCharAppend(a[1..], b, c, t);
      assert ReplaceChar(a + b, c, t) == head + (ReplaceChar(a[1..], c, t) + ReplaceChar(b, c, t));
      assert ReplaceChar(a, c, t) == head + ReplaceChar(a[1..], c, t);
      AppendAssoc(head, ReplaceChar(a[1..], c, t), ReplaceChar(b, c, t));
    } else {
      assert a + b == b;
    }
  }

  lemma {:induction false} AppendAssoc<T>(x: seq<T>, y: seq<T>, z: seq<T>)
    ensures x + (y + z) == (x + y) + z
  {
  }

  /** Python's `s.lower()` on ASCII letters. */
  function LowerChar(c: char): char {
    if 'A' <= c <= 'Z' then (c as int - 'A' as int + 'a' as int) as char else c
  }

  function Lower(s: string): (r: string)
    ensures |r| == |s| && forall i :: 0 <= i < |s| ==> r[i] == LowerChar(s[i])
  {
    seq(|s|, i requires 0 <= i < |s| => LowerChar(s[i]))
  }

  predicate StartsWith(s: string, prefix: string) {
    |prefix| <= |s| && s[..|prefix|] == prefix
  }

  // ---------------------------------------------------------------------------
  // Whole numbers: str(n) and int(s)
  // ---------------------------------------------------------------------------

  predicate IsDigit(c: char) {
    '0' <= c <= '9'
  }

  predicate AllDigits(s: string) {
    forall i :: 0 <= i < |s| ==> IsDigit(s[i])
  }

  function DigitChar(d: nat): (c: char)
    requires d < 10
    ensures IsDigit(c) && c as int - '0' as int == d
  {
    ('0' as int + d) as char
  }

  /** The value of a string of decimal digits. */
  function DigitsValue(s: string): nat
    requires AllDigits(s)
  {
    if s == [] then 0 else DigitsValue(s[..|s| - 1]) * 10 + (s[|s| - 1] as int - '0' as int)
  }

  /** `str(n)` for a natural number: decimal digits, no leading zero. */
  function NatToString(n: nat): (r: string)
    ensures |r| >= 1 && AllDigits(r)
    ensures |r| > 1 ==> r[0] != '0'
  {
    if n < 10 then [DigitChar(n)] else NatToString(n / 10) + [DigitChar(n % 10)]
  }

  /** `str(i)` for a Python `int`. */
  function IntToString(i: int): (r: string)
    ensures |r| >= 1
  {
    if i < 0 then "-" + NatToString(-i) else NatToString(i)
  }

  /** The text forms Python's `int()` accepts here: an optional sign followed by
      one or more ASCII digits. */
  predicate IsIntLiteral(t: string) {
    || (|t| > 1 && (t[0] == '-' || t[0] == '+') && AllDigits(t[1..]))
    || (|t| > 0 && AllDigits(t))
  }

  /** Python's `int(s)` on the forms the monitor meets: surrounding whitespace,
      an optional sign, then one or more ASCII digits. `None` is the
      `ValueError` it raises on anything else. */
  function ParseInt(s: string): (r: Option<int>)
    ensures r.Some? <==> IsIntLiteral(Strip(s))
    ensures r.Some? && r.value < 0 ==> Strip(s)[0] == '-'
  {
    var t := Strip(s);
    if |t| > 1 && (t[0] == '-' || t[0] == '+') && AllDigits(t[1..]) then
      var magnitude: int := DigitsValue(t[1..]);
      Some(if t[0] == '-' then -magnitude else magnitude)
    else if |t| > 0 && AllDigits(t) then
      Some(DigitsValue(t))
    else None
  }

  lemma {:induction false} DigitsValueOfNat(n: nat)
    ensures DigitsValue(NatToString(n)) == n
  {
    if n >= 10 {
      var r := NatToString(n);
      assert r[..|r| - 1] == NatToString(n / 10);
      DigitsValueOfNat(n / 10);
    }
  }

  /** A text whose ends are not whitespace is left alone by `strip()`. */
  lemma {:induction false} StripUnpadded(t: string)
    requires t != [] && !IsSpace(t[0]) && !IsSpace(t[|t| - 1])
    ensures Strip(t) == t
  {
    StripPadded([], t, []);
    assert [] + t + [] == t;
  }

  /** A whole number written on its own line strips back to its digits. */
  lemma {:induction false} StripIntLine(i: int)
    ensures Strip(IntToString(i) + "\n") == IntToString(i)
  {
    var s := IntToString(i);
    assert IsDigit(s[|s| - 1]);
    if i < 0 {
      assert s[0] == '-';
    } else {
      assert IsDigit(s[0]);
    }
    assert AllSpace("\n") && AllSpace([]);
    StripPadded([], s, "\n");
    assert [] + s + "\n" == s + "\n";
  }

  /** `int(str(i)) == i`: the decimal rendering of a whole number reads back as
      that number. */
  lemma {:induction false} ParseIntToString(i: int)
    ensures ParseInt(IntToString(i)) == Some(i)
  {
    var s := IntToString(i);
    var magnitude: nat := if i < 0 then -i else i;
    var digits := NatToString(magnitude);
    DigitsValueOfNat(magnitude);
    assert IsDigit(s[|s| - 1]) && !IsSpace(s[|s| - 1]);
    if i < 0 {
      assert s == "-" + digits;
      assert !IsSpace(s[0]);
      StripUnpadded(s);
      assert s[1..] == digits;
    } else {
      assert s == digits;
      assert IsDigit(s[0]) && !IsSpace(s[0]);
      StripUnpadded(s);
    }
  }
}
