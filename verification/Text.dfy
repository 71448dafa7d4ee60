// String operations of Go's standard library, on strings of Unicode code points.
//
// Letter case is exact for every string compared with an ASCII string. Only three code points
// outside ASCII have an ASCII partner: U+212A (Kelvin sign) lower-cases and folds to 'k',
// U+0130 (dotted capital I) lower-cases to 'i' but does not fold, and U+017F (long s) folds to
// 's' but lower-cases to itself. Every other code point outside ASCII stays outside ASCII, which
// the identity stands for.
module Text {

  const KELVIN: char := '\U{212A}'
  const DOTTED_I: char := '\U{0130}'
  const LONG_S: char := '\U{017F}'

  predicate IsAscii(s: string) {
    forall i :: 0 <= i < |s| ==> s[i] < '\U{0080}'
  }

  function LowerChar(c: char): char {
    if 'A' <= c <= 'Z' then (c as int + 32) as char
    else if c == KELVIN then 'k'
    else if c == DOTTED_I then 'i'
    else c
  }

  function FoldChar(c: char): char {
    if 'A' <= c <= 'Z' then (c as int + 32) as char
    else if c == KELVIN then 'k'
    else if c == LONG_S then 's'
    else c
  }

  function ToLower(s: string): (r: string)
    ensures |r| == |s|
    ensures forall i :: 0 <= i < |s| ==> r[i] == LowerChar(s[i])
  {
    seq(|s|, i requires 0 <= i < |s| => LowerChar(s[i]))
  }

  predicate EqualFold(s: string, t: string) {
    |s| == |t| && forall i :: 0 <= i < |s| ==> FoldChar(s[i]) == FoldChar(t[i])
  }

  predicate HasPrefix(s: string, prefix: string) {
    |prefix| <= |s| && s[..|prefix|] == prefix
  }

  predicate OccursAt(s: string, part: string, i: nat) {
    i + |part| <= |s| && s[i..i + |part|] == part
  }

  predicate Contains(s: string, part: string) {
    exists i :: 0 <= i <= |s| && OccursAt(s, part, i)
  }

  /** The code points `unicode.IsSpace` accepts. */
  predicate IsSpace(c: char) {
    '\t' <= c <= '\r' || c == ' ' || c == '\U{0085}' || c == '\U{00A0}' || c == '\U{1680}'
    || '\U{2000}' <= c <= '\U{200A}' || c == '\U{2028}' || c == '\U{2029}' || c == '\U{202F}'
    || c == '\U{205F}' || c == '\U{3000}'
  }

  lemma SpaceTable(c: char)
    ensures IsSpace(c) <==>
      c in "\U{0009}\U{000A}\U{000B}\U{000C}\U{000D} \U{0085}\U{00A0}\U{1680}\U{2000}\U{2001}\U{2002}\U{2003}"
        + "\U{2004}\U{2005}\U{2006}\U{2007}\U{2008}\U{2009}\U{200A}\U{2028}\U{2029}\U{202F}\U{205F}\U{3000}"
  {
  }

  function TrimLeft(s: string): string {
    if s != "" && IsSpace(s[0]) then TrimLeft(s[1..]) else s
  }

  function TrimRight(s: string): string {
    if s != "" && IsSpace(s[|s| - 1]) then TrimRight(s[..|s| - 1]) else s
  }

  function TrimSpace(s: string): string {
    TrimRight(TrimLeft(s))
  }

  function TrimPrefix(s: string, prefix: string): string {
    if HasPrefix(s, prefix) then s[|prefix|..] else s
  }

  /**
   * Against an ASCII string, lower-casing and folding agree exactly when the other string holds
   * neither a long s nor a dotted capital I.
   */
  lemma FoldVersusLower(r: string, t: string)
    requires IsAscii(t)
    ensures EqualFold(r, t) && LONG_S !in r ==> ToLower(r) == ToLower(t)
    ensures ToLower(r) == ToLower(t) && DOTTED_I !in r ==> EqualFold(r, t)
    ensures ToLower(r) == ToLower(t) ==> LONG_S !in r
    ensures EqualFold(r, t) ==> DOTTED_I !in r
  {
  }

  lemma EqualFoldEquivalence(r: string, s: string, t: string)
    requires EqualFold(r, s)
    ensures EqualFold(s, r)
    ensures EqualFold(s, t) ==> EqualFold(r, t)
  {
  }

  /** The two letter-case tables: the ASCII capitals, and the few code points that reach into ASCII. */
  lemma CaseTables(c: char)
    ensures var capitals, letters := "ABCDEFGHIJKLMNOPQRSTUVWXYZ", "abcdefghijklmnopqrstuvwxyz";
      && (forall i :: 0 <= i < 26 && c == capitals[i] ==> LowerChar(c) == FoldChar(c) == letters[i])
      && (c !in capitals ==>
            && LowerChar(c) == (if c == '\U{212A}' then 'k' else if c == '\U{0130}' then 'i' else c)
            && FoldChar(c) == (if c == '\U{212A}' then 'k' else if c == '\U{017F}' then 's' else c))
  {
    Alphabet();
    assert 'A' <= c <= 'Z' ==> "ABCDEFGHIJKLMNOPQRSTUVWXYZ"[c as int - 65] == c;
  }

  lemma Alphabet()
    ensures var capitals, letters := "ABCDEFGHIJKLMNOPQRSTUVWXYZ", "abcdefghijklmnopqrstuvwxyz";
      |capitals| == |letters| == 26
      && forall i :: 0 <= i < 26 ==> capitals[i] as int == 65 + i && letters[i] as int == 97 + i
  {
  }

  /** Prefix and substring in terms of what stands around them. */
  lemma OccurrenceMeaning(s: string, part: string)
    ensures HasPrefix(s, part) <==> exists rest :: s == part + rest
    ensures Contains(s, part) <==> exists before, after :: s == before + part + after
  {
    if HasPrefix(s, part) {
      assert s == part + s[|part|..];
    }
    if i :| 0 <= i <= |s| && OccursAt(s, part, i) {
      assert s == s[..i] + part + s[i + |part|..];
    }
    if before, after :| s == before + part + after {
      assert OccursAt(s, part, |before|);
    }
  }

  predicate AllSpace(s: string) {
    forall i :: 0 <= i < |s| ==> IsSpace(s[i])
  }

  lemma {:induction false} TrimLeftMeaning(s: string)
    ensures |TrimLeft(s)| <= |s| && TrimLeft(s) == s[|s| - |TrimLeft(s)|..]
    ensures AllSpace(s[..|s| - |TrimLeft(s)|])
    ensures TrimLeft(s) != "" ==> !IsSpace(TrimLeft(s)[0])
  {
    if s != "" && IsSpace(s[0]) {
      TrimLeftMeaning(s[1..]);
    }
  }

  lemma {:induction false} TrimRightMeaning(s: string)
    ensures |TrimRight(s)| <= |s| && TrimRight(s) == s[..|TrimRight(s)|]
    ensures AllSpace(s[|TrimRight(s)|..])
    ensures TrimRight(s) != "" ==> !IsSpace(TrimRight(s)[|TrimRight(s)| - 1])
  {
    if s != "" && IsSpace(s[|s| - 1]) {
      var front := s[..|s| - 1];
      TrimRightMeaning(front);
      assert forall i :: |TrimRight(s)| <= i < |front| ==> front[|TrimRight(front)|..][i - |TrimRight(s)|] == s[i];
    }
  }

  /** Trimming takes away space on both sides, and all of it. */
  lemma TrimMeaning(s: string) returns (before: string, after: string)
    ensures s == before + TrimSpace(s) + after && AllSpace(before) && AllSpace(after)
    ensures var t := TrimSpace(s); t != "" ==> !IsSpace(t[0]) && !IsSpace(t[|t| - 1])
  {
    var left := TrimLeft(s);
    TrimLeftMeaning(s);
    TrimRightMeaning(left);
    before, after := s[..|s| - |left|], left[|TrimRight(left)|..];
    assert s == before + left && left == TrimRight(left) + after;
  }
}
