/**
 * The two episode-label regular expressions, searched leftmost-first as `String.prototype.match`
 * does without the `g` flag:
 *   `Eps (\d+):`       (stream selection), capturing the digits;
 *   `Eps (\d+): (.+)`  (episode listing), capturing the digits and the name.
 * `\d+` is greedy and must be followed by `:`, which is not a digit, so it always takes the whole
 * digit run; `(.+)` is greedy and ends the match, so it takes every character up to the first
 * line terminator or the end.
 */
module EpisodeLabel {
  import opened Wrappers
  import opened JsString

  const PREFIX: string := "Eps "

  /** The longest prefix of `t` made of ASCII digits. */
  function DigitRun(t: string): (d: string)
    ensures |d| <= |t| && d == t[..|d|] && AllDigits(d)
    ensures |d| == |t| || !IsDigit(t[|d|])
  {
    if t != [] && IsDigit(t[0]) then
      var d := [t[0]] + DigitRun(t[1..]);
      assert t == [t[0]] + t[1..];
      d
    else []
  }

  /** The longest prefix of `t` without a line terminator. */
  function LineRun(t: string): (n: string)
    ensures |n| <= |t| && n == t[..|n|]
    ensures forall i :: 0 <= i < |n| ==> !IsLineTerminator(n[i])
    ensures |n| == |t| || IsLineTerminator(t[|n|])
  {
    if t != [] && !IsLineTerminator(t[0]) then
      var n := [t[0]] + LineRun(t[1..]);
      assert t == [t[0]] + t[1..];
      n
    else []
  }

  /** `Eps (\d+):` anchored at the start of `t`: the captured digits. */
  function NumberAt(t: string): (r: Option<string>)
    ensures r.Some? ==> |r.value| >= 1 && AllDigits(r.value)
  {
    if |t| >= 4 && t[..4] == PREFIX then
      var d := DigitRun(t[4..]);
      if |d| >= 1 && 4 + |d| < |t| && t[4 + |d|] == ':' then
        Some(d)
      else None
    else None
  }

  /** What `Eps (\d+):` matched is the text `Eps <digits>:` at the start of `t`. */
  lemma NumberAtText(t: string)
    requires NumberAt(t).Some?
    ensures var d := NumberAt(t).value; |d| + 5 <= |t| && t[..|d| + 5] == PREFIX + d + ":"
  {
    var d := DigitRun(t[4..]);
    assert t[4..][..|d|] == t[4..4 + |d|];
    assert t[..|d| + 5] == t[..4] + t[4..4 + |d|] + [t[4 + |d|]];
  }

  /** `Eps (\d+): (.+)` anchored at the start of `t`: the captured digits and name. */
  function TitleAt(t: string): (r: Option<(string, string)>)
    ensures r.Some? ==> |r.value.0| >= 1 && AllDigits(r.value.0)
    ensures r.Some? ==> |r.value.1| >= 1 && forall i :: 0 <= i < |r.value.1| ==> !IsLineTerminator(r.value.1[i])
    ensures r.Some? ==> OccursAt(t, PREFIX + r.value.0 + ": " + r.value.1, 0)
  {
    if |t| >= 4 && t[..4] == PREFIX then
      var d := DigitRun(t[4..]);
      var k := 4 + |d|;
      if |d| >= 1 && k + 2 <= |t| && t[k..k + 2] == ": " then
        var n := LineRun(t[k + 2..]);
        if |n| >= 1 then
          assert t[..k + 2 + |n|] == PREFIX + d + ": " + n;
          Some((d, n))
        else None
      else None
    else None
  }

  /** The leftmost position at or after `i` where the anchored pattern `at` matches. */
  function Search(t: string, i: nat, at: string -> bool): (r: Option<nat>)
    requires i <= |t|
    decreases |t| - i
    ensures r.Some? ==> i <= r.value <= |t| && at(t[r.value..])
    ensures r.Some? ==> forall j :: i <= j < r.value ==> !at(t[j..])
    ensures r.None? ==> forall j :: i <= j <= |t| ==> !at(t[j..])
  {
    if at(t[i..]) then Some(i)
    else if i == |t| then None
    else Search(t, i + 1, at)
  }

  predicate NumberMatches(t: string) {
    NumberAt(t).Some?
  }

  predicate TitleMatches(t: string) {
    TitleAt(t).Some?
  }

  /** The leftmost position at or after `i` where `Eps (\d+):` matches. */
  function NumberSearch(t: string, i: nat): (r: Option<nat>)
    requires i <= |t|
    ensures r.Some? ==> i <= r.value <= |t| && NumberAt(t[r.value..]).Some?
    ensures r.Some? ==> forall j :: i <= j < r.value ==> NumberAt(t[j..]).None?
    ensures r.None? ==> forall j :: i <= j <= |t| ==> NumberAt(t[j..]).None?
  {
    Search(t, i, NumberMatches)
  }

  /** The leftmost position at or after `i` where `Eps (\d+): (.+)` matches. */
  function TitleSearch(t: string, i: nat): (r: Option<nat>)
    requires i <= |t|
    ensures r.Some? ==> i <= r.value <= |t| && TitleAt(t[r.value..]).Some?
    ensures r.Some? ==> forall j :: i <= j < r.value ==> TitleAt(t[j..]).None?
    ensures r.None? ==> forall j :: i <= j <= |t| ==> TitleAt(t[j..]).None?
  {
    Search(t, i, TitleMatches)
  }

  /** `t.match(/Eps (\d+):/)[1]`: the digits of the leftmost match, or `None` for `null`. */
  function MatchNumber(t: string): Option<string> {
    match NumberSearch(t, 0)
    case None => None
    case Some(p) => NumberAt(t[p..])
  }

  /** `t.match(/Eps (\d+): (.+)/)`: both captures of the leftmost match, or `None` for `null`. */
  function MatchTitle(t: string): Option<(string, string)> {
    match TitleSearch(t, 0)
    case None => None
    case Some(p) => TitleAt(t[p..])
  }

  /** A label of the form `Eps <digits>:<anything>` yields exactly its digits. */
  lemma MatchNumberOf(d: string, rest: string)
    requires |d| >= 1 && AllDigits(d)
    ensures MatchNumber(PREFIX + d + ":" + rest) == Some(d)
  {
    var t := PREFIX + d + ":" + rest;
    assert t[..4] == PREFIX;
    assert t[4..] == d + (":" + rest);
    DigitRunOf(d, ":" + rest);
    assert DigitRun(t[4..]) == d;
    assert t[4 + |d|] == ':';
    assert NumberAt(t) == Some(d);
    assert t[0..] == t;
  }

  /** A label `Eps <digits>: <name>` with a single-line name yields the digits and the name verbatim. */
  lemma MatchTitleOf(d: string, name: string)
    requires |d| >= 1 && AllDigits(d)
    requires |name| >= 1 && forall i :: 0 <= i < |name| ==> !IsLineTerminator(name[i])
    ensures MatchTitle(PREFIX + d + ": " + name) == Some((d, name))
  {
    var tail := ": " + name;
    var t := PREFIX + d + ": " + name;
    assert t == PREFIX + (d + tail);
    assert t[..4] == PREFIX;
    assert t[4..] == d + tail;
    DigitRunOf(d, tail);
    assert DigitRun(t[4..]) == d;
    var k := 4 + |d|;
    assert t[k..] == tail;
    assert t[k..k + 2] == tail[..2] == ": ";
    assert t[k + 2..] == tail[2..] == name;
    LineRunAll(name);
    assert TitleAt(t) == Some((d, name));
    assert t[0..] == t;
  }

  /** Whenever the listing pattern matches, the selection pattern matches too (possibly earlier in the text). */
  lemma TitleImpliesNumber(t: string)
    requires MatchTitle(t).Some?
    ensures MatchNumber(t).Some?
  {
    var p := TitleSearch(t, 0).value;
    TitleAtNumberAt(t[p..]);
    assert NumberSearch(t, 0).Some?;
  }

  /** Where the listing pattern matches, the selection pattern matches at the same place. */
  lemma TitleAtNumberAt(u: string)
    requires TitleAt(u).Some?
    ensures NumberAt(u).Some?
  {
    var d := DigitRun(u[4..]);
    var k := 4 + |d|;
    assert u[k..k + 2] == ": ";
    assert u[k] == ':';
  }

  lemma {:induction false} DigitRunOf(d: string, rest: string)
    requires AllDigits(d)
    requires rest == [] || !IsDigit(rest[0])
    ensures DigitRun(d + rest) == d
  {
    if d != [] {
      assert (d + rest)[1..] == d[1..] + rest;
      DigitRunOf(d[1..], rest);
    } else {
      assert d + rest == rest;
    }
  }

  lemma {:induction false} LineRunAll(n: string)
    requires forall i :: 0 <= i < |n| ==> !IsLineTerminator(n[i])
    ensures LineRun(n) == n
  {
    if n != [] {
      LineRunAll(n[1..]);
    }
  }
}
