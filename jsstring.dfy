/**
 * The JavaScript string built-ins the scraper relies on, over `seq<char>`:
 * `trim`, `replace` with a string pattern, `includes`, `split` on one
 * character, `parseInt` without a radix, and number-to-string of an integer.
 */
module JsString {
  import opened Wrappers

  /** ECMAScript WhiteSpace and LineTerminator code points: what `trim` removes and what `\s` matches. */
  predicate IsSpace(c: char) {
    c == '\t' || c == '\n' || c == '\U{000B}' || c == '\U{000C}' || c == '\r' || c == ' '
    || c == '\U{00A0}' || c == '\U{1680}' || ('\U{2000}' <= c <= '\U{200A}')
    || c == '\U{2028}' || c == '\U{2029}' || c == '\U{202F}' || c == '\U{205F}'
    || c == '\U{3000}' || c == '\U{FEFF}'
  }

  /** The code points that the regular-expression `.` does not match. */
  predicate IsLineTerminator(c: char) {
    c == '\n' || c == '\r' || c == '\U{2028}' || c == '\U{2029}'
  }

  predicate IsDigit(c: char) {
    '0' <= c <= '9'
  }

  predicate AllSpace(s: string) {
    forall i :: 0 <= i < |s| ==> IsSpace(s[i])
  }

  predicate AllDigits(s: string) {
    forall i :: 0 <= i < |s| ==> IsDigit(s[i])
  }

  /** JavaScript truthiness of a value that is a string or `undefined`. */
  predicate Truthy(o: Option<string>) {
    o.Some? && o.value != ""
  }

  /** `x || undefined` for a string-or-undefined `x`. */
  function Defined(o: Option<string>): (r: Option<string>)
    ensures r.Some? <==> Truthy(o)
    ensures r.Some? ==> r == o
  {
    if Truthy(o) then o else None
  }

  // ---------------------------------------------------------------- trim

  function TrimStart(s: string): (r: string)
    ensures |r| <= |s| && r == s[|s| - |r|..]
    ensures r == [] || !IsSpace(r[0])
    ensures AllSpace(s[..|s| - |r|])
  {
    if s != [] && IsSpace(s[0]) then
      var r := TrimStart(s[1..]);
      assert s[1..][..|s[1..]| - |r|] == s[1..|s| - |r|];
      r
    else s
  }

  function TrimEnd(s: string): (r: string)
    ensures |r| <= |s| && r == s[..|r|]
    ensures r == [] || !IsSpace(r[|r| - 1])
    ensures AllSpace(s[|r|..])
  {
    if s != [] && IsSpace(s[|s| - 1]) then
      var r := TrimEnd(s[..|s| - 1]);
      assert s[..|s| - 1][|r|..] + [s[|s| - 1]] == s[|r|..];
      r
    else s
  }

  /** `String.prototype.trim`: drops leading and trailing white space, and nothing else. */
  function Trim(s: string): (r: string)
    ensures |r| <= |s|
    ensures r == [] || (!IsSpace(r[0]) && !IsSpace(r[|r| - 1]))
    ensures r == [] <==> AllSpace(s)
    ensures (s == [] || (!IsSpace(s[0]) && !IsSpace(s[|s| - 1]))) ==> r == s
  {
    TrimParts(s);
    TrimEnd(TrimStart(s))
  }

  lemma TrimParts(s: string)
    ensures var t := TrimStart(s); var r := TrimEnd(t);
      (r == [] <==> AllSpace(s)) && (r != [] ==> !IsSpace(s[|s| - |t|]))
  {
    var t := TrimStart(s);
    var k := |s| - |t|;
    if t == [] {
      assert s[..k] == s;
      assert AllSpace(s);
    } else {
      assert s[k..] == t;
      assert s[k] == t[0];
      assert !IsSpace(t[0]);
      TrimEndKeepsFirst(t);
      assert !AllSpace(s) by {
        assert !IsSpace(s[k]);
      }
    }
  }

  /** `TrimEnd` cannot empty a string whose first character is not white space. */
  lemma {:induction false} TrimEndKeepsFirst(t: string)
    requires t != [] && !IsSpace(t[0])
    ensures TrimEnd(t) != []
    decreases |t|
  {
    if IsSpace(t[|t| - 1]) {
      var u := t[..|t| - 1];
      assert u[0] == t[0];
      TrimEndKeepsFirst(u);
    }
  }

  /** A digit string has no white space to trim. */
  lemma TrimDigits(n: string)
    requires |n| >= 1 && AllDigits(n)
    ensures Trim(n) == n
  {
    DigitNotSpace(n[0]);
    DigitNotSpace(n[|n| - 1]);
  }

  /** One trailing blank after a digit string is trimmed away. */
  lemma TrimDigitsSpace(n: string)
    requires |n| >= 1 && AllDigits(n)
    ensures Trim(n + " ") == n
  {
    var s := n + " ";
    DigitNotSpace(n[0]);
    DigitNotSpace(n[|n| - 1]);
    assert TrimStart(s) == s by {
      assert s[0] == n[0];
    }
    assert s[..|s| - 1] == n;
    assert TrimEnd(s) == TrimEnd(n);
  }

  lemma {:induction false} TrimIdempotent(s: string)
    ensures Trim(Trim(s)) == Trim(s)
  {
  }

  // ------------------------------------------------------- search, replace

  predicate OccursAt(s: string, pat: string, i: nat) {
    i + |pat| <= |s| && s[i..i + |pat|] == pat
  }

  function IndexOfFrom(s: string, pat: string, i: nat): (r: Option<nat>)
    decreases |s| - i
    ensures r.Some? ==> i <= r.value && OccursAt(s, pat, r.value)
    ensures r.Some? ==> forall j :: i <= j < r.value ==> !OccursAt(s, pat, j)
    ensures r.None? ==> forall j :: i <= j ==> !OccursAt(s, pat, j)
  {
    if i + |pat| > |s| then None
    else if s[i..i + |pat|] == pat then Some(i)
    else IndexOfFrom(s, pat, i + 1)
  }

  /** `s.indexOf(pat)`: the leftmost position where `pat` occurs. */
  function IndexOf(s: string, pat: string): Option<nat> {
    IndexOfFrom(s, pat, 0)
  }

  /** `s.includes(pat)`. */
  predicate Contains(s: string, pat: string) {
    IndexOf(s, pat).Some?
  }

  /** `s.replace(pat, rep)` with a string pattern: only the FIRST occurrence is replaced. */
  function ReplaceFirst(s: string, pat: string, rep: string): string {
    match IndexOf(s, pat)
    case None => s
    case Some(i) => s[..i] + rep + s[i + |pat|..]
  }

  /** Replacing the first occurrence trades `|pat|` characters for `|rep|`; without an occurrence nothing changes. */
  lemma ReplaceFirstShorter(s: string, pat: string, rep: string)
    ensures !Contains(s, pat) ==> ReplaceFirst(s, pat, rep) == s
    ensures Contains(s, pat) ==> |ReplaceFirst(s, pat, rep)| + |pat| == |s| + |rep|
  {
    match IndexOf(s, pat)
    case None =>
    case Some(i) =>
      assert OccursAt(s, pat, i);
  }

  lemma ContainsIff(s: string, pat: string)
    ensures Contains(s, pat) <==> exists i: nat :: OccursAt(s, pat, i)
  {
  }

  /** A string without the pattern is left unchanged. */
  lemma ReplaceFirstAbsent(s: string, pat: string, rep: string)
    requires |s| < |pat|
    ensures ReplaceFirst(s, pat, rep) == s
  {
  }

  /** A pattern whose first character does not occur in `s` is not found from `i` on. */
  lemma {:induction false} IndexOfFromMissing(s: string, pat: string, i: nat)
    requires |pat| >= 1 && pat[0] !in s
    ensures IndexOfFrom(s, pat, i).None?
    decreases |s| - i
  {
    if i + |pat| <= |s| {
      assert s[i..i + |pat|][0] == s[i];
      IndexOfFromMissing(s, pat, i + 1);
    }
  }

  /** Nothing is replaced when the pattern's first character does not occur. */
  lemma ReplaceFirstMissing(s: string, pat: string, rep: string)
    requires |pat| >= 1 && pat[0] !in s
    ensures ReplaceFirst(s, pat, rep) == s
  {
    IndexOfFromMissing(s, pat, 0);
  }

  /** In a digit string, a pattern that starts with a non-digit is not found. */
  lemma ReplaceFirstInDigits(n: string, pat: string, rep: string)
    requires AllDigits(n) && |pat| >= 1 && !IsDigit(pat[0])
    ensures ReplaceFirst(n, pat, rep) == n
  {
    assert pat[0] !in n by {
      forall j | 0 <= j < |n| ensures n[j] != pat[0] {
        assert IsDigit(n[j]);
      }
    }
    ReplaceFirstMissing(n, pat, rep);
  }

  /** Nothing is replaced when the pattern does not occur. */
  lemma ReplaceFirstNotContained(s: string, pat: string, rep: string)
    requires !Contains(s, pat)
    ensures ReplaceFirst(s, pat, rep) == s
  {
  }

  lemma EmptyPrefix(s: string)
    ensures "" + s == s
  {
  }

  /** A leading occurrence is the one replaced, whatever follows it. */
  lemma ReplaceFirstAtStart(pat: string, t: string, rep: string)
    ensures ReplaceFirst(pat + t, pat, rep) == rep + t
  {
    var s := pat + t;
    assert s[0..|pat|] == pat;
    assert s[|pat|..] == t;
  }

  // ------------------------------------------------------------------ split

  /** Inverse of `Split`: the parts glued together with the separator. */
  function Join(parts: seq<string>, sep: char): string
    requires |parts| >= 1
  {
    if |parts| == 1 then parts[0] else parts[0] + [sep] + Join(parts[1..], sep)
  }

  /** `s.split(sep)` for a one-character separator: never empty. */
  function Split(s: string, sep: char): (parts: seq<string>)
    decreases |s|
    ensures |parts| >= 1
  {
    if s == [] then [""]
    else
      var rest := Split(s[1..], sep);
      if s[0] == sep then [""] + rest
      else [[s[0]] + rest[0]] + rest[1..]
  }

  /** No part holds the separator. */
  lemma {:induction false} SplitSound(s: string, sep: char)
    ensures forall i :: 0 <= i < |Split(s, sep)| ==> sep !in Split(s, sep)[i]
    decreases |s|
  {
    if s != [] {
      var rest := Split(s[1..], sep);
      SplitSound(s[1..], sep);
      var parts := Split(s, sep);
      if s[0] == sep {
        assert forall i :: 1 <= i < |parts| ==> parts[i] == rest[i - 1];
      } else {
        assert forall i :: 1 <= i < |parts| ==> parts[i] == rest[i];
        assert sep !in rest[0];
      }
    }
  }

  /** Joining the parts with the separator gives `s` back. */
  lemma {:induction false} SplitJoinBack(s: string, sep: char)
    ensures Join(Split(s, sep), sep) == s
    decreases |s|
  {
    if s != [] {
      var rest := Split(s[1..], sep);
      SplitJoinBack(s[1..], sep);
      if s[0] == sep {
        JoinEmptyFirst(rest, sep);
      } else {
        JoinConsFirst(s[0], rest, sep);
      }
      assert [s[0]] + s[1..] == s;
    }
  }

  lemma JoinEmptyFirst(parts: seq<string>, sep: char)
    requires |parts| >= 1
    ensures Join([""] + parts, sep) == [sep] + Join(parts, sep)
  {
    assert ([""] + parts)[1..] == parts;
  }

  lemma JoinConsFirst(c: char, parts: seq<string>, sep: char)
    requires |parts| >= 1
    ensures Join([[c] + parts[0]] + parts[1..], sep) == [c] + Join(parts, sep)
  {
    var q := [[c] + parts[0]] + parts[1..];
    assert q[1..] == parts[1..];
  }

  /** A string without the separator splits into itself. */
  lemma {:induction false} SplitNoSep(s: string, sep: char)
    requires sep !in s
    ensures Split(s, sep) == [s]
  {
    if s != [] {
      SplitNoSep(s[1..], sep);
      assert [s[0]] + s[1..] == s;
    }
  }

  /** Splitting distributes over a separator occurrence. */
  lemma {:induction false} SplitConcat(a: string, sep: char, b: string)
    ensures Split(a + [sep] + b, sep) == Split(a, sep) + Split(b, sep)
  {
    var s := a + [sep] + b;
    if a == [] {
      assert s[1..] == b;
    } else {
      assert s[1..] == a[1..] + [sep] + b;
      SplitConcat(a[1..], sep, b);
    }
  }

  /** A separator-free first field followed by the separator splits off as one part. */
  lemma {:induction false} SplitFirst(a: string, sep: char, b: string)
    requires sep !in a
    ensures Split(a + [sep] + b, sep) == [a] + Split(b, sep)
  {
    var s := a + [sep] + b;
    if a == [] {
      assert s[1..] == b;
    } else {
      assert s[1..] == a[1..] + [sep] + b;
      SplitFirst(a[1..], sep, b);
      assert [a[0]] + a[1..] == a;
    }
  }

  /** Round trip: splitting the join of separator-free parts gives the parts back. */
  lemma {:induction false} SplitJoin(parts: seq<string>, sep: char)
    requires |parts| >= 1
    requires forall i :: 0 <= i < |parts| ==> sep !in parts[i]
    ensures Split(Join(parts, sep), sep) == parts
  {
    if |parts| == 1 {
      SplitNoSep(parts[0], sep);
    } else {
      SplitJoin(parts[1..], sep);
      SplitFirst(parts[0], sep, Join(parts[1..], sep));
      assert [parts[0]] + parts[1..] == parts;
    }
  }

  /** `parts.pop()`: the last element. */
  function Last(parts: seq<string>): string
    requires |parts| >= 1
  {
    parts[|parts| - 1]
  }

  /** `parts[i]`, or `undefined` past the end. */
  function Part(parts: seq<string>, i: nat): Option<string> {
    if i < |parts| then Some(parts[i]) else None
  }

  /** `link.split('/').pop()`: what follows the last `/`. */
  function LastSegment(s: string): string {
    Last(Split(s, '/'))
  }

  lemma LastSegmentOf(prefix: string, seg: string)
    requires '/' !in seg
    ensures LastSegment(prefix + "/" + seg) == seg
  {
    SplitConcat(prefix, '/', seg);
    SplitNoSep(seg, '/');
  }

  // --------------------------------------------------------------- parseInt

  /** The value of `c` as a digit of the radix (10 or 16). */
  function DigitValue(c: char, radix: nat): Option<nat> {
    if '0' <= c <= '9' && (c as int - '0' as int) < radix then Some(c as int - '0' as int)
    else if radix == 16 && 'a' <= c <= 'f' then Some(c as int - 'a' as int + 10)
    else if radix == 16 && 'A' <= c <= 'F' then Some(c as int - 'A' as int + 10)
    else None
  }

  /** Length of the longest prefix of `s` made of digits of the radix. */
  function DigitPrefix(s: string, radix: nat): (n: nat)
    ensures n <= |s|
    ensures forall i :: 0 <= i < n ==> DigitValue(s[i], radix).Some?
    ensures n < |s| ==> DigitValue(s[n], radix).None?
  {
    if s == [] || DigitValue(s[0], radix).None? then 0 else 1 + DigitPrefix(s[1..], radix)
  }

  /** The number a digit string denotes, most significant digit first. */
  function DigitsValue(s: string, radix: nat): nat
    requires forall i :: 0 <= i < |s| ==> DigitValue(s[i], radix).Some?
  {
    if s == [] then 0 else DigitsValue(s[..|s| - 1], radix) * radix + DigitValue(s[|s| - 1], radix).value
  }

  /**
   * `parseInt(s)` with no radix: leading white space and one sign are skipped, a `0x`/`0X` prefix
   * selects radix 16, and the longest run of digits that follows is read; `None` is `NaN`.
   */
  function ParseInt(s: string): Option<int> {
    ParseSigned(TrimStart(s))
  }

  /** `parseInt` once the white space is gone: an optional sign, then the unsigned number. */
  function ParseSigned(t: string): Option<int> {
    if t != [] && t[0] == '-' then
      match ParseUnsigned(t[1..])
      case None => None
      case Some(n) => Some(-(n as int))
    else if t != [] && t[0] == '+' then ParseUnsigned(t[1..])
    else ParseUnsigned(t)
  }

  /** The unsigned part: hexadecimal after `0x` or `0X`, decimal otherwise. */
  function ParseUnsigned(u: string): Option<nat> {
    if |u| >= 2 && u[0] == '0' && (u[1] == 'x' || u[1] == 'X') then DigitRunValue(u[2..], 16)
    else DigitRunValue(u, 10)
  }

  /** The value of the longest run of digits of the radix at the start of `v`; `None` when there is none. */
  function DigitRunValue(v: string, radix: nat): Option<nat> {
    var n := DigitPrefix(v, radix);
    if n == 0 then None
    else
      assert forall i :: 0 <= i < n ==> v[..n][i] == v[i];
      Some(DigitsValue(v[..n], radix))
  }

  /** A string made only of digits of the radix is read whole. */
  lemma DigitRunValueAll(v: string, radix: nat)
    requires |v| >= 1 && forall i :: 0 <= i < |v| ==> DigitValue(v[i], radix).Some?
    ensures DigitRunValue(v, radix) == Some(DigitsValue(v, radix))
  {
    DigitPrefixAll(v, radix);
    assert v[..|v|] == v;
  }

  /** The character of a decimal digit. */
  function DigitChar(d: nat): char
    requires d < 10
  {
    ('0' as int + d) as char
  }

  /** Decimal notation of a natural number, without leading zeros. */
  function NatToString(n: nat): (s: string)
    ensures |s| >= 1 && AllDigits(s)
    ensures forall i :: 0 <= i < |s| ==> DigitValue(s[i], 10).Some?
    ensures DigitsValue(s, 10) == n
    ensures s[0] != '0' || n == 0
  {
    if n < 10 then [DigitChar(n)]
    else
      var s := NatToString(n / 10) + [DigitChar(n % 10)];
      assert s[..|s| - 1] == NatToString(n / 10);
      s
  }

  /** Number-to-string of an integer, as in a template literal: a `-` sign, then the digits. */
  function IntToString(i: int): string {
    if i < 0 then "-" + NatToString(-i) else NatToString(i)
  }

  /** `parseInt` of a non-empty run of decimal digits is the number the digits denote. */
  lemma ParseDigits(d: string)
    requires |d| >= 1 && AllDigits(d)
    ensures forall i :: 0 <= i < |d| ==> DigitValue(d[i], 10).Some?
    ensures ParseInt(d) == Some(DigitsValue(d, 10))
  {
    DigitValues(d);
    DigitsUnsigned(d);
    DigitRunValueAll(d, 10);
  }

  lemma DigitValues(d: string)
    requires AllDigits(d)
    ensures forall i :: 0 <= i < |d| ==> DigitValue(d[i], 10).Some?
  {
    forall i | 0 <= i < |d| ensures DigitValue(d[i], 10).Some? {
      assert IsDigit(d[i]);
    }
  }

  /** A digit string has no white space, sign or hexadecimal prefix to skip. */
  lemma DigitsUnsigned(d: string)
    requires |d| >= 1 && AllDigits(d)
    ensures ParseInt(d) == DigitRunValue(d, 10)
  {
    DigitNotSpace(d[0]);
    assert TrimStart(d) == d;
    assert ParseSigned(d) == ParseUnsigned(d);
    if |d| >= 2 {
      assert IsDigit(d[1]);
    }
  }

  lemma DigitNotSpace(c: char)
    requires IsDigit(c)
    ensures !IsSpace(c)
  {
  }

  lemma {:induction false} DigitPrefixAll(s: string, radix: nat)
    requires forall i :: 0 <= i < |s| ==> DigitValue(s[i], radix).Some?
    ensures DigitPrefix(s, radix) == |s|
  {
    if s != [] {
      DigitPrefixAll(s[1..], radix);
    }
  }

  /** Round trip: `parseInt` reads back what number-to-string wrote. */
  lemma ParseIntToString(i: int)
    ensures ParseInt(IntToString(i)) == Some(i)
  {
    var s := IntToString(i);
    var d := NatToString(if i < 0 then -i else i);
    assert !IsSpace(s[0]);
    assert TrimStart(s) == s;
    assert |d| >= 2 ==> d[0] != '0';
    assert ParseUnsigned(d) == DigitRunValue(d, 10);
    DigitRunValueAll(d, 10);
    if i < 0 {
      assert s[1..] == d;
      assert ParseSigned(s) == Some(i);
    } else {
      assert ParseSigned(s) == ParseUnsigned(d);
    }
  }
}
