/**
  The few Python `str` builtins the hiring assistant relies on: `strip()`,
  `strip(chars)`, `lower()`, `split(sep)`, the substring test `needle in hay`,
  and the decimal rendering of a non-negative `int`.

  The alphabet is restricted to ASCII: Python applies `isspace`, `lower` and
  the regex classes `\w`, `\d` to all of Unicode, this model only to ASCII.
*/
module PyStr {

  /** The ASCII characters for which Python's `str.isspace()` holds. */
  const Whitespace: set<char> :=
    {' ', '\t', '\n', '\U{000B}', '\U{000C}', '\r', '\U{001C}', '\U{001D}', '\U{001E}', '\U{001F}'}

  predicate IsDigit(c: char) { '0' <= c <= '9' }

  predicate IsUpper(c: char) { 'A' <= c <= 'Z' }

  /** The regex class `[a-zA-Z]`. */
  predicate IsLetter(c: char) { 'a' <= c <= 'z' || IsUpper(c) }

  /** The regex class `\w`, restricted to ASCII. */
  predicate IsWordChar(c: char) { IsLetter(c) || IsDigit(c) || c == '_' }

  predicate AllIn(s: string, cs: set<char>) {
    forall k :: 0 <= k < |s| ==> s[k] in cs
  }

  predicate AllDigits(s: string) {
    forall k :: 0 <= k < |s| ==> IsDigit(s[k])
  }

  // ---------------------------------------------------------------------------
  // strip

  function TrimStart(s: string, cs: set<char>): (r: string)
    ensures |r| <= |s| && r == s[|s| - |r|..]
    ensures forall k :: 0 <= k < |s| - |r| ==> s[k] in cs
    ensures r == [] || r[0] !in cs
  {
    if |s| > 0 && s[0] in cs then TrimStart(s[1..], cs) else s
  }

  function TrimEnd(s: string, cs: set<char>): (r: string)
    ensures |r| <= |s| && r == s[..|r|]
    ensures forall k :: |r| <= k < |s| ==> s[k] in cs
    ensures r == [] || r[|r| - 1] !in cs
  {
    if |s| > 0 && s[|s| - 1] in cs then TrimEnd(s[..|s| - 1], cs) else s
  }

  /**
    `s[i..j]` is what is left of `s` once every character of `cs` is removed
    from both ends: everything outside is in `cs`, and the kept part neither
    starts nor ends with a character of `cs`.
  */
  ghost predicate StrippedAt(s: string, cs: set<char>, i: int, j: int) {
    && 0 <= i <= j <= |s|
    && (forall k :: 0 <= k < i ==> s[k] in cs)
    && (forall k :: j <= k < |s| ==> s[k] in cs)
    && (i < j ==> s[i] !in cs && s[j - 1] !in cs)
  }

  /** Python's `s.strip(chars)`, with `chars` given as a set. */
  function StripChars(s: string, cs: set<char>): (r: string)
    ensures exists i, j :: StrippedAt(s, cs, i, j) && r == s[i..j]
  {
    var a := TrimStart(s, cs);
    var b := TrimEnd(a, cs);
    assert StrippedAt(s, cs, |s| - |a|, |s| - |a| + |b|) && b == s[|s| - |a|..|s| - |a| + |b|];
    b
  }

  /** Python's `s.strip()`. */
  function Strip(s: string): string {
    StripChars(s, Whitespace)
  }

  /** Names the bounds of the kept part of a stripped string. */
  lemma StripCharsBounds(s: string, cs: set<char>) returns (i: int, j: int)
    ensures StrippedAt(s, cs, i, j) && StripChars(s, cs) == s[i..j]
  {
    var r := StripChars(s, cs);
    i, j :| StrippedAt(s, cs, i, j) && r == s[i..j];
  }

  /** The stripped part of a string is unique: any maximal trim gives the result. */
  lemma StrippedAtUnique(s: string, cs: set<char>, i: int, j: int)
    requires StrippedAt(s, cs, i, j)
    ensures StripChars(s, cs) == s[i..j]
  {
    var r := StripChars(s, cs);
    var i', j' :| StrippedAt(s, cs, i', j') && r == s[i'..j'];
    if i < j || i' < j' {
      assert i == i' && j == j';
    }
  }

  /** Strings whose characters agree on membership in `cs` are stripped at the same place. */
  lemma StripCharsSameShape(x: string, y: string, cs: set<char>) returns (i: int, j: int)
    requires |x| == |y|
    requires forall k :: 0 <= k < |x| ==> (x[k] in cs <==> y[k] in cs)
    ensures 0 <= i <= j <= |x|
    ensures StripChars(x, cs) == x[i..j] && StripChars(y, cs) == y[i..j]
  {
    i, j := StripCharsBounds(x, cs);
    assert StrippedAt(y, cs, i, j);
    StrippedAtUnique(y, cs, i, j);
  }

  /** A character absent from a string is absent from what stripping leaves of it. */
  lemma StripCharsKeepsAbsent(s: string, cs: set<char>, c: char)
    requires c !in s
    ensures c !in StripChars(s, cs)
  {
    var i, j := StripCharsBounds(s, cs);
    forall k | 0 <= k < j - i ensures s[i..j][k] != c {
      assert s[i..j][k] == s[i + k];
    }
  }

  lemma {:induction false} TrimStartPadded(p: string, x: string, cs: set<char>)
    requires AllIn(p, cs)
    ensures TrimStart(p + x, cs) == TrimStart(x, cs)
  {
    if p == [] {
      assert p + x == x;
    } else {
      assert (p + x)[0] == p[0] && (p + x)[1..] == p[1..] + x;
      TrimStartPadded(p[1..], x, cs);
    }
  }

  lemma {:induction false} TrimEndPadded(x: string, q: string, cs: set<char>)
    requires AllIn(q, cs)
    ensures TrimEnd(x + q, cs) == TrimEnd(x, cs)
  {
    if q == [] {
      assert x + q == x;
    } else {
      var q' := q[..|q| - 1];
      assert (x + q)[|x + q| - 1] == q[|q| - 1] && (x + q)[..|x + q| - 1] == x + q';
      TrimEndPadded(x, q', cs);
    }
  }

  lemma {:induction false} TrimStartAppend(x: string, q: string, cs: set<char>)
    requires TrimStart(x, cs) != []
    ensures TrimStart(x + q, cs) == TrimStart(x, cs) + q
  {
    if x[0] in cs {
      assert (x + q)[1..] == x[1..] + q;
      TrimStartAppend(x[1..], q, cs);
    }
  }

  /** Padding made of stripped characters around a string does not change its strip. */
  lemma StripCharsPadding(p: string, s: string, q: string, cs: set<char>)
    requires AllIn(p, cs) && AllIn(q, cs)
    ensures StripChars(p + s + q, cs) == StripChars(s, cs)
  {
    assert p + s + q == p + (s + q);
    TrimStartPadded(p, s + q, cs);
    if TrimStart(s, cs) != [] {
      TrimStartAppend(s, q, cs);
      TrimEndPadded(TrimStart(s, cs), q, cs);
    } else {
      assert AllIn(s + q, cs);
      TrimStartPadded(s + q, [], cs);
      assert s + q + [] == s + q;
    }
  }

  /** A stripped string has no surrounding characters of the stripped set. */
  predicate IsStripped(s: string, cs: set<char>) {
    s == [] || (s[0] !in cs && s[|s| - 1] !in cs)
  }

  lemma StripCharsIsStripped(s: string, cs: set<char>)
    ensures IsStripped(StripChars(s, cs), cs)
  {
    var r := StripChars(s, cs);
    var i, j :| StrippedAt(s, cs, i, j) && r == s[i..j];
  }

  /** Stripping a string that is already stripped leaves it unchanged. */
  lemma StripCharsOfStripped(s: string, cs: set<char>)
    requires IsStripped(s, cs)
    ensures StripChars(s, cs) == s
  {
    assert StrippedAt(s, cs, 0, |s|);
    StrippedAtUnique(s, cs, 0, |s|);
  }

  // ---------------------------------------------------------------------------
  // lower

  function LowerChar(c: char): char {
    if IsUpper(c) then (c as int - 'A' as int + 'a' as int) as char else c
  }

  /** Python's `s.lower()` on ASCII. */
  function Lower(s: string): (r: string)
    ensures |r| == |s|
  {
    seq(|s|, k requires 0 <= k < |s| => LowerChar(s[k]))
  }

  /** Lower-casing commutes with slicing. */
  lemma LowerSlice(s: string, i: int, j: int)
    requires 0 <= i <= j <= |s|
    ensures Lower(s)[i..j] == Lower(s[i..j])
  {
  }

  /** Lower-casing twice is lower-casing once. */
  lemma LowerTwice(s: string)
    ensures Lower(Lower(s)) == Lower(s)
  {
  }

  // ---------------------------------------------------------------------------
  // split and join

  /** Python's `s.split(sep)` for a one-character separator. */
  function Split(s: string, sep: char): (r: seq<string>)
    ensures |r| >= 1
    ensures forall k :: 0 <= k < |r| ==> sep !in r[k]
    ensures Join(r, sep) == s
  {
    if |s| == 0 then [""]
    else
      var rest := Split(s[1..], sep);
      if s[0] == sep then
        assert Join([""] + rest, sep) == [sep] + Join(rest, sep) by {
          assert ([""] + rest)[1..] == rest;
        }
        [""] + rest
      else
        var r := [[s[0]] + rest[0]] + rest[1..];
        assert Join(r, sep) == [s[0]] + Join(rest, sep) by {
          assert r[1..] == rest[1..];
          if |rest| > 1 {
            assert Join(rest, sep) == rest[0] + [sep] + Join(rest[1..], sep);
          }
        }
        r
  }

  /** Python's `sep.join(parts)` for a one-character separator. */
  function Join(parts: seq<string>, sep: char): string
    requires |parts| >= 1
  {
    if |parts| == 1 then parts[0] else parts[0] + [sep] + Join(parts[1..], sep)
  }

  /** Splitting at a separator that occurs first after `a` splits `a` and the rest apart. */
  lemma {:induction false} SplitAppend(a: string, b: string, sep: char)
    requires sep !in a
    ensures Split(a + [sep] + b, sep) == Split(a, sep) + Split(b, sep)
  {
    if |a| == 0 {
      assert a + [sep] + b == [sep] + b;
      assert ([sep] + b)[1..] == b;
    } else {
      assert (a + [sep] + b)[1..] == a[1..] + [sep] + b;
      SplitAppend(a[1..], b, sep);
    }
  }

  /** A string without the separator splits into itself alone. */
  lemma {:induction false} SplitNoSeparator(s: string, sep: char)
    requires sep !in s
    ensures Split(s, sep) == [s]
  {
    if |s| > 0 {
      SplitNoSeparator(s[1..], sep);
      assert [s[0]] + s[1..] == s;
    }
  }

  /** Regrouping a two-element separator: `a + [x, y] + r` is `a + [x]` then `[y] + r`. */
  lemma RegroupSeparator<T>(a: seq<T>, x: T, y: T, r: seq<T>)
    ensures a + [x, y] + r == a + [x] + ([y] + r)
  {
  }

  /** Concatenation is associative. */
  lemma ConcatAssoc<T>(a: seq<T>, b: seq<T>, c: seq<T>)
    ensures a + (b + c) == (a + b) + c
  {
  }

  /** The head and tail of a concatenation whose left part is not empty. */
  lemma ConcatTail<T>(x: seq<T>, y: seq<T>)
    requires x != []
    ensures (x + y)[0] == x[0] && (x + y)[1..] == x[1..] + y
  {
  }

  /** Moving a leading element inside a three-part concatenation. */
  lemma RegroupLeading<T>(y: T, b: seq<T>, m: seq<T>, c: seq<T>)
    ensures [y] + (b + m + c) == ([y] + b) + m + c
  {
  }

  /** Splitting a join of separator-free parts gives the parts back. */
  lemma {:induction false} SplitJoin(parts: seq<string>, sep: char)
    requires |parts| >= 1
    requires forall k :: 0 <= k < |parts| ==> sep !in parts[k]
    ensures Split(Join(parts, sep), sep) == parts
  {
    SplitNoSeparator(parts[0], sep);
    if |parts| > 1 {
      SplitJoin(parts[1..], sep);
      SplitAppend(parts[0], Join(parts[1..], sep), sep);
      assert [parts[0]] + parts[1..] == parts;
    }
  }

  // ---------------------------------------------------------------------------
  // find

  /**
    The first index of `c` in `s`, or -1 when `c` is absent. It locates the
    `@` that splits an email address and the decimal point of a numeral.
  */
  function Find(s: string, c: char): (r: int)
    ensures -1 <= r < |s|
    ensures r == -1 <==> c !in s
    ensures r >= 0 ==> s[r] == c && forall k :: 0 <= k < r ==> s[k] != c
  {
    if s == [] then -1
    else if s[0] == c then 0
    else
      var r := Find(s[1..], c);
      if r == -1 then -1 else r + 1
  }

  /**
    The last index of `c` in `s`, or -1 when `c` is absent. It locates the
    final `.` before the top-level domain of an email address.
  */
  function RFind(s: string, c: char): (r: int)
    ensures -1 <= r < |s|
    ensures r == -1 <==> c !in s
    ensures r >= 0 ==> s[r] == c && forall k :: r < k < |s| ==> s[k] != c
  {
    if s == [] then -1
    else if s[|s| - 1] == c then |s| - 1
    else
      var r := RFind(s[..|s| - 1], c);
      assert s == s[..|s| - 1] + [s[|s| - 1]];
      r
  }

  // ---------------------------------------------------------------------------
  // substring

  ghost predicate OccursAt(needle: string, hay: string, i: int) {
    0 <= i && i + |needle| <= |hay| && hay[i..i + |needle|] == needle
  }

  /** Python's `needle in hay` on strings. */
  function IsSubstring(needle: string, hay: string): (r: bool)
    ensures r <==> exists i :: OccursAt(needle, hay, i)
  {
    if |hay| < |needle| then
      assert forall i :: !OccursAt(needle, hay, i);
      false
    else if hay[..|needle|] == needle then
      assert OccursAt(needle, hay, 0);
      true
    else
      var r := IsSubstring(needle, hay[1..]);
      assert r ==> exists i :: OccursAt(needle, hay, i) by {
        if r {
          var i :| OccursAt(needle, hay[1..], i);
          assert hay[1..][i..i + |needle|] == hay[i + 1..i + 1 + |needle|];
          assert OccursAt(needle, hay, i + 1);
        }
      }
      assert (exists i :: OccursAt(needle, hay, i)) ==> r by {
        if exists i :: OccursAt(needle, hay, i) {
          var i :| OccursAt(needle, hay, i);
          assert i != 0;
          assert hay[1..][i - 1..i - 1 + |needle|] == hay[i..i + |needle|];
          assert OccursAt(needle, hay[1..], i - 1);
        }
      }
      r
  }

  /** A needle with a character the haystack lacks does not occur in it. */
  lemma MissingChar(needle: string, hay: string, k: int)
    requires 0 <= k < |needle| && needle[k] !in hay
    ensures !IsSubstring(needle, hay)
  {
    forall i ensures !OccursAt(needle, hay, i) {
      if 0 <= i && i + |needle| <= |hay| {
        assert hay[i..i + |needle|][k] == hay[i + k];
      }
    }
  }

  // ---------------------------------------------------------------------------
  // decimal digits

  function DigitValue(c: char): nat
    requires IsDigit(c)
  {
    c as int - '0' as int
  }

  function DigitChar(d: nat): (c: char)
    requires d < 10
    ensures IsDigit(c) && DigitValue(c) == d
  {
    ('0' as int + d) as char
  }

  /** Python's `int(s)` on a string of decimal digits (0 for the empty string). */
  function DigitsValue(s: string): nat
    requires AllDigits(s)
  {
    if s == [] then 0 else DigitsValue(s[..|s| - 1]) * 10 + DigitValue(s[|s| - 1])
  }

  /** Python's `str(n)` for a non-negative integer. */
  function NatToString(n: nat): (r: string)
    ensures |r| >= 1 && AllDigits(r)
    ensures r[0] == '0' ==> n == 0
  {
    if n < 10 then [DigitChar(n)] else NatToString(n / 10) + [DigitChar(n % 10)]
  }

  /** `int(str(n)) == n`: the decimal rendering reads back as the same number. */
  lemma {:induction false} NatToStringRoundTrip(n: nat)
    ensures DigitsValue(NatToString(n)) == n
  {
    var r := NatToString(n);
    if n >= 10 {
      NatToStringRoundTrip(n / 10);
      assert r[..|r| - 1] == NatToString(n / 10);
    }
  }

  /** Distinct numbers are rendered differently. */
  lemma NatToStringInjective(m: nat, n: nat)
    requires NatToString(m) == NatToString(n)
    ensures m == n
  {
    NatToStringRoundTrip(m);
    NatToStringRoundTrip(n);
  }
}
