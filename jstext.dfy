/** The JavaScript string built-ins the application uses: whitespace as `\s`
    and `trim` see it, substring search, `Number.prototype.toString` on
    naturals and `Number.parseInt` without a radix. */
module JsText {
  import opened Wrappers

  /** JavaScript's WhiteSpace and LineTerminator characters: the class `\s`
      and the characters `trim`, `trimStart` and `parseInt` skip. */
  predicate IsSpace(c: char) {
    || c == ' ' || c == '\t' || c == '\n' || c == '\r'
    || c == '\U{000B}' || c == '\U{000C}' || c == '\U{00A0}' || c == '\U{1680}'
    || ('\U{2000}' <= c <= '\U{200A}')
    || c == '\U{2028}' || c == '\U{2029}' || c == '\U{202F}' || c == '\U{205F}'
    || c == '\U{3000}' || c == '\U{FEFF}'
  }

  predicate AllSpace(s: string) {
    forall i :: 0 <= i < |s| ==> IsSpace(s[i])
  }

  /** How many whitespace characters open `s`. */
  function LeadingSpaces(s: string): (n: nat)
    ensures n <= |s| && AllSpace(s[..n]) && (n < |s| ==> !IsSpace(s[n]))
  {
    if s != [] && IsSpace(s[0]) then
      var m := LeadingSpaces(s[1..]);
      assert s[..1 + m] == [s[0]] + s[1..][..m];
      1 + m
    else 0
  }

  /** Where the text of `s` ends once its trailing whitespace is dropped. */
  function ContentEnd(s: string): (n: nat)
    ensures n <= |s| && AllSpace(s[n..]) && (n > 0 ==> !IsSpace(s[n - 1]))
  {
    if s != [] && IsSpace(s[|s| - 1]) then
      var m := ContentEnd(s[..|s| - 1]);
      assert s[m..] == s[..|s| - 1][m..] + [s[|s| - 1]];
      m
    else |s|
  }

  /** `s.trimStart()`: the longest suffix of `s` that does not start with
      whitespace, all of whose dropped characters are whitespace. */
  function TrimStart(s: string): (r: string)
    ensures |r| <= |s| && r == s[|s| - |r|..]
    ensures AllSpace(s[..|s| - |r|])
    ensures r != [] ==> !IsSpace(r[0])
  {
    s[LeadingSpaces(s)..]
  }

  /** `s.trimEnd()`: the longest prefix of `s` that does not end with
      whitespace, all of whose dropped characters are whitespace. */
  function TrimEnd(s: string): (r: string)
    ensures |r| <= |s| && r == s[..|r|]
    ensures AllSpace(s[|r|..])
    ensures r != [] ==> !IsSpace(r[|r| - 1])
  {
    s[..ContentEnd(s)]
  }

  /** `s.trim()`: the slice of `s` left once the leading whitespace (up to
      `LeadingSpaces(s)`) and the trailing whitespace are dropped; the
      result neither starts nor ends with whitespace. */
  function Trim(s: string): (r: string)
    ensures r != [] ==> !IsSpace(r[0]) && !IsSpace(r[|r| - 1])
    ensures |r| <= |s|
    ensures LeadingSpaces(s) + |r| <= |s| && r == s[LeadingSpaces(s)..LeadingSpaces(s) + |r|]
    ensures AllSpace(s[..LeadingSpaces(s)]) && AllSpace(s[LeadingSpaces(s) + |r|..])
  {
    var a := LeadingSpaces(s);
    var t := s[a..];
    var r := TrimEnd(t);
    assert t[|r|..] == s[a + |r|..];
    r
  }

  /** A one-character pattern occurs exactly where that character stands. */
  lemma CharOccurs(s: string, c: char, i: int)
    requires 0 <= i < |s|
    ensures s[i] == c <==> OccursAt(s, [c], i)
  {
    assert s[i..i + 1][0] == s[i];
  }

  /** A leading whitespace character is dropped by `trimStart`. */
  lemma TrimStartSkipsSpace(c: char, a: string)
    requires IsSpace(c)
    ensures TrimStart([c] + a) == TrimStart(a)
  {
    assert ([c] + a)[1..] == a;
    assert LeadingSpaces([c] + a) == 1 + LeadingSpaces(a);
    assert ([c] + a)[1 + LeadingSpaces(a)..] == a[LeadingSpaces(a)..];
  }

  /** A string that does not start with whitespace is kept by `trimStart`. */
  lemma TrimStartKeeps(a: string)
    requires a != [] && !IsSpace(a[0])
    ensures TrimStart(a) == a
  {
  }

  /** A trailing whitespace character is dropped by `trimEnd`. */
  lemma TrimEndSkipsSpace(a: string, c: char)
    requires IsSpace(c)
    ensures TrimEnd(a + [c]) == TrimEnd(a)
  {
    assert (a + [c])[..|a|] == a;
    assert ContentEnd(a + [c]) == ContentEnd(a);
    assert (a + [c])[..ContentEnd(a)] == a[..ContentEnd(a)];
  }

  /** A string that does not end with whitespace is kept by `trimEnd`. */
  lemma TrimEndKeeps(a: string)
    requires a != [] && !IsSpace(a[|a| - 1])
    ensures TrimEnd(a) == a
  {
  }

  /** `Trim` is the only slice with those properties: any slice of `s`
      that has only whitespace around it, and neither starts nor ends with
      whitespace, is `Trim(s)`. */
  lemma TrimUnique(s: string, a: int, r: string)
    requires 0 <= a && a + |r| <= |s| && r == s[a..a + |r|]
    requires AllSpace(s[..a]) && AllSpace(s[a + |r|..])
    requires r != [] ==> !IsSpace(r[0]) && !IsSpace(r[|r| - 1])
    ensures Trim(s) == r
  {
  }

  /** Trimming removes exactly the leading and trailing whitespace: it keeps a
      string that has none. */
  lemma TrimOfTrimmed(s: string)
    requires s != [] ==> !IsSpace(s[0]) && !IsSpace(s[|s| - 1])
    ensures Trim(s) == s
  {
  }

  predicate OccursAt(s: string, pat: string, i: int) {
    0 <= i && i + |pat| <= |s| && s[i..i + |pat|] == pat
  }

  /** `s.includes(pat)`. */
  ghost predicate Contains(s: string, pat: string) {
    exists i :: OccursAt(s, pat, i)
  }

  /** A slice of a slice is a slice. */
  lemma SliceOfSlice(s: string, a: int, b: int, c: int, d: int)
    requires 0 <= a <= b <= |s| && 0 <= c <= d <= b - a
    ensures s[a..b][c..d] == s[a + c..a + d]
  {
    assert forall t :: 0 <= t < d - c ==> s[a..b][c..d][t] == s[a + c..a + d][t];
  }

  /** The two halves of a concatenation are its slices. */
  lemma ConcatSlices(x: string, y: string)
    ensures (x + y)[..|x|] == x && (x + y)[|x|..] == y
  {
  }

  /** A pattern that opens `y` occurs in `x + y` right after `x`. */
  lemma OccursAfterPrefix(x: string, y: string, pat: string)
    requires |pat| <= |y| && y[..|pat|] == pat
    ensures OccursAt(x + y, pat, |x|)
  {
    SliceOfSlice(x + y, |x|, |x + y|, 0, |pat|);
    ConcatSlices(x, y);
  }

  /** A pattern occurs at the front of any text that starts with it. */
  lemma OccursAtFront(pat: string, rest: string)
    ensures OccursAt(pat + rest, pat, 0)
  {
    ConcatSlices(pat, rest);
  }

  /** A pattern occurs in `x + y` wherever it occurs in `x`. */
  lemma OccursInPrefix(x: string, y: string, pat: string, i: int)
    requires OccursAt(x, pat, i)
    ensures OccursAt(x + y, pat, i)
  {
    SliceOfSlice(x + y, 0, |x|, i, i + |pat|);
    ConcatSlices(x, y);
  }

  /** An occurrence in `y` is one in `x + y`, shifted by `|x|`. */
  lemma OccursInSuffix(x: string, y: string, pat: string, i: int)
    requires OccursAt(y, pat, i)
    ensures OccursAt(x + y, pat, |x| + i)
  {
    SliceOfSlice(x + y, |x|, |x + y|, i, i + |pat|);
    ConcatSlices(x, y);
  }

  /** An occurrence inside a slice is an occurrence in the whole string. */
  lemma OccursInSlice(s: string, a: int, b: int, pat: string, k: int)
    requires 0 <= a <= b <= |s| && OccursAt(s[a..b], pat, k)
    ensures OccursAt(s, pat, a + k)
  {
    SliceOfSlice(s, a, b, k, k + |pat|);
  }

  /** `trim` keeps a contiguous part of the string, starting where
      `trimStart` starts it. */
  lemma TrimIsSlice(s: string) returns (a: int)
    ensures a == |s| - |TrimStart(s)|
    ensures 0 <= a && a + |Trim(s)| <= |s| && Trim(s) == s[a..a + |Trim(s)|]
  {
    var t := TrimStart(s);
    a := |s| - |t|;
    PrefixOfSuffix(s, a, t, TrimEnd(t));
  }

  /** The last character `trimEnd` keeps is not whitespace. */
  lemma TrimEndLastKept(u: string)
    requires |TrimEnd(u)| > 0
    ensures !IsSpace(u[|TrimEnd(u)| - 1])
  {
    var r := TrimEnd(u);
    assert r[|r| - 1] == u[|r| - 1];
  }

  /** A prefix of a prefix is a prefix. */
  lemma PrefixOfPrefix(s: string, t: string, r: string)
    requires |t| <= |s| && t == s[..|t|] && |r| <= |t| && r == t[..|r|]
    ensures r == s[..|r|]
  {
  }

  /** A prefix of a suffix is a slice. */
  lemma PrefixOfSuffix(s: string, a: int, t: string, r: string)
    requires 0 <= a <= |s| && t == s[a..] && |r| <= |t| && r == t[..|r|]
    ensures a + |r| <= |s| && r == s[a..a + |r|]
  {
    SliceOfSlice(s, a, |s|, 0, |r|);
  }

  /** A pattern absent from a string is absent from every slice of it. */
  lemma NoOccurrenceInSlice(s: string, a: int, b: int, pat: string)
    requires 0 <= a <= b <= |s| && forall k :: !OccursAt(s, pat, k)
    ensures forall k :: !OccursAt(s[a..b], pat, k)
  {
    forall k ensures !OccursAt(s[a..b], pat, k) {
      if OccursAt(s[a..b], pat, k) {
        OccursInSlice(s, a, b, pat, k);
      }
    }
  }

  /** A pattern absent from a string is absent from its trimmed form. */
  lemma NoOccurrenceInTrim(s: string, pat: string)
    requires forall k :: !OccursAt(s, pat, k)
    ensures forall k :: !OccursAt(Trim(s), pat, k)
  {
    var a := TrimIsSlice(s);
    var r := Trim(s);
    NoOccurrenceInSlice(s, a, a + |r|, pat);
  }

  /** `s.indexOf(pat, from)`: the first occurrence of `pat` at or after
      `from`, if any. */
  function IndexOf(s: string, pat: string, from: nat): (r: Option<nat>)
    ensures r.Some? ==> from <= r.value && OccursAt(s, pat, r.value)
    ensures r.Some? ==> forall j :: from <= j < r.value ==> !OccursAt(s, pat, j)
    ensures r.None? ==> forall j :: from <= j ==> !OccursAt(s, pat, j)
    decreases |s| - from
  {
    if from + |pat| > |s| then None
    else if s[from..from + |pat|] == pat then Some(from)
    else IndexOf(s, pat, from + 1)
  }

  /** `s.lastIndexOf(c)` for a single character. */
  function LastIndexOfChar(s: string, c: char): (r: Option<nat>)
    ensures r.Some? ==> r.value < |s| && s[r.value] == c
    ensures r.Some? ==> forall j :: r.value < j < |s| ==> s[j] != c
    ensures r.None? ==> forall j :: 0 <= j < |s| ==> s[j] != c
  {
    if s == [] then None
    else if s[|s| - 1] == c then Some(|s| - 1)
    else LastIndexOfChar(s[..|s| - 1], c)
  }

  /** The value of a digit character as `parseInt` reads it: `0`-`9`, then
      `a`-`z` (either case) for 10 to 35. */
  function DigitValue(c: char): (v: nat)
    ensures v < 36
  {
    if '0' <= c <= '9' then (c as int - '0' as int) as nat
    else if 'a' <= c <= 'z' then (c as int - 'a' as int + 10) as nat
    else if 'A' <= c <= 'Z' then (c as int - 'A' as int + 10) as nat
    else 35
  }

  predicate IsDigit(c: char, radix: nat) {
    ('0' <= c <= '9' || 'a' <= c <= 'z' || 'A' <= c <= 'Z') && DigitValue(c) < radix
  }

  /** The longest prefix of `s` made of radix-`radix` digits. */
  function DigitPrefix(s: string, radix: nat): (r: string)
    ensures |r| <= |s| && r == s[..|r|]
    ensures forall i :: 0 <= i < |r| ==> IsDigit(r[i], radix)
    ensures |r| < |s| ==> !IsDigit(s[|r|], radix)
  {
    if s != [] && IsDigit(s[0], radix) then [s[0]] + DigitPrefix(s[1..], radix) else []
  }

  /** The number a digit string denotes, most significant digit first. */
  function DigitsValue(ds: string, radix: nat): nat {
    if ds == [] then 0 else DigitsValue(ds[..|ds| - 1], radix) * radix + DigitValue(ds[|ds| - 1])
  }

  /** The digits after the sign, as far as they go: radix 16 after a
      `0x`/`0X` prefix, radix 10 otherwise. */
  function ParseMagnitude(u: string): (r: Option<nat>)
    ensures r.Some? <==> DigitPrefix(if |u| >= 2 && u[0] == '0' && (u[1] == 'x' || u[1] == 'X') then u[2..] else u,
                                     if |u| >= 2 && u[0] == '0' && (u[1] == 'x' || u[1] == 'X') then 16 else 10) != []
  {
    if |u| >= 2 && u[0] == '0' && (u[1] == 'x' || u[1] == 'X') then
      var digits := DigitPrefix(u[2..], 16);
      if digits == [] then None else Some(DigitsValue(digits, 16))
    else
      var digits := DigitPrefix(u, 10);
      if digits == [] then None else Some(DigitsValue(digits, 10))
  }

  /** `Number.parseInt(s)` with no radix argument: skip leading whitespace,
      read an optional sign, read a `0x`/`0X` prefix as radix 16 and otherwise
      radix 10, then the longest run of digits. `None` stands for `NaN`. */
  function ParseInt(s: string): Option<int> {
    var t := TrimStart(s);
    if |t| > 0 && t[0] == '-' then
      match ParseMagnitude(t[1..])
      case None => None
      case Some(m) => Some(-(m as int))
    else if |t| > 0 && t[0] == '+' then
      match ParseMagnitude(t[1..])
      case None => None
      case Some(m) => Some(m)
    else
      match ParseMagnitude(t)
      case None => None
      case Some(m) => Some(m)
  }

  function DigitChar(d: nat): (c: char)
    requires d < 10
    ensures IsDigit(c, 10) && DigitValue(c) == d
  {
    ('0' as int + d) as char
  }

  /** `n.toString()` for a natural number: its decimal digits, most
      significant first. */
  function NatToString(n: nat): (r: string)
    ensures |r| >= 1
    ensures forall i :: 0 <= i < |r| ==> IsDigit(r[i], 10)
  {
    if n < 10 then [DigitChar(n)] else NatToString(n / 10) + [DigitChar(n % 10)]
  }

  /** Reading back the decimal digits of `n` gives `n`. */
  lemma {:induction false} DigitsValueOfNatToString(n: nat)
    ensures DigitsValue(NatToString(n), 10) == n
  {
    var r := NatToString(n);
    if n >= 10 {
      assert r[..|r| - 1] == NatToString(n / 10);
      DigitsValueOfNatToString(n / 10);
    }
  }

  /** A run of decimal digits has no leading space, no sign and no `0x`. */
  lemma PlainDigits(s: string)
    requires |s| >= 1 && forall i :: 0 <= i < |s| ==> IsDigit(s[i], 10)
    ensures TrimStart(s) == s && s[0] != '-' && s[0] != '+'
    ensures !(|s| >= 2 && s[0] == '0' && (s[1] == 'x' || s[1] == 'X'))
  {
    assert IsDigit(s[0], 10);
    TrimStartKeeps(s);
    if |s| >= 2 {
      assert IsDigit(s[1], 10);
    }
  }

  /** `parseInt` of a non-empty run of decimal digits is their value. */
  lemma ParseIntOfDigits(s: string)
    requires |s| >= 1 && forall i :: 0 <= i < |s| ==> IsDigit(s[i], 10)
    ensures ParseInt(s) == Some(DigitsValue(s, 10))
  {
    PlainDigits(s);
    DigitPrefixOfDigits(s, 10);
  }

  /** `Number.parseInt(String(n)) === n` for every natural `n`. */
  lemma ParseIntOfNatToString(n: nat)
    ensures ParseInt(NatToString(n)) == Some(n)
  {
    ParseIntOfDigits(NatToString(n));
    DigitsValueOfNatToString(n);
  }

  /** A string made only of digits is its own longest digit prefix. */
  lemma {:induction false} DigitPrefixOfDigits(s: string, radix: nat)
    requires forall i :: 0 <= i < |s| ==> IsDigit(s[i], radix)
    ensures DigitPrefix(s, radix) == s
  {
    if s != [] {
      DigitPrefixOfDigits(s[1..], radix);
    }
  }
}
