/** Trimming and lower-casing of short identifiers, ASCII only. */
module Strings {
  import Trimming

  predicate IsBlank(c: char) {
    c == ' ' || '\t' <= c <= '\r'
  }

  const BLANKS := " \t\n\r\U{0B}\U{0C}"

  lemma BlanksAre(c: char)
    ensures IsBlank(c) <==> c in BLANKS
  {
    assert BLANKS[0] == ' ' && BLANKS[1] == '\t' && BLANKS[2] == '\n' && BLANKS[3] == '\r';
    assert BLANKS[4] == 11 as char && BLANKS[5] == 12 as char;
  }

  function Trim(s: string): string {
    Trimming.TrimBoth(IsBlank, s)
  }

  lemma TrimTwice(s: string)
    ensures Trim(Trim(s)) == Trim(s)
  {
    Trimming.TrimTwice(IsBlank, s);
  }

  function LowerChar(c: char): char {
    if 'A' <= c <= 'Z' then c - 'A' + 'a' else c
  }

  function Lower(s: string): string {
    seq(|s|, i requires 0 <= i < |s| => LowerChar(s[i]))
  }

  /** The same character, or the two cases of one letter. */
  predicate SameButCase(a: char, b: char) {
    a == b || ('A' <= a <= 'Z' && b as int == a as int + 32) || ('A' <= b <= 'Z' && a as int == b as int + 32)
  }

  /** Two casings of one name. */
  predicate Recased(s: string, t: string) {
    |s| == |t| && forall i :: 0 <= i < |s| ==> SameButCase(s[i], t[i])
  }

  predicate Lowercase(s: string) {
    forall i :: 0 <= i < |s| ==> !('A' <= s[i] <= 'Z')
  }

  /** Lower-casing yields the one casing without an upper-case letter. */
  lemma LowerIs(s: string, r: string)
    ensures r == Lower(s) <==> Recased(s, r) && Lowercase(r)
  {
    if Recased(s, r) && Lowercase(r) {
      forall i | 0 <= i < |s|
        ensures r[i] == Lower(s)[i]
      {
        assert SameButCase(s[i], r[i]);
      }
    }
  }

  /** Two names lower-case to the same exactly when they are casings of one name. */
  lemma LowerTells(s: string, t: string)
    ensures Lower(s) == Lower(t) <==> Recased(s, t)
  {
    if Lower(s) == Lower(t) {
      forall i | 0 <= i < |s|
        ensures SameButCase(s[i], t[i])
      {
        assert Lower(s)[i] == Lower(t)[i];
      }
    }
  }

  /** How the guard compares names: trimmed, case ignored. */
  function Normal(s: string): string {
    Lower(Trim(s))
  }

  /** Any casing of a lower-case name, between any blanks, is that name. */
  lemma NormalFinds(a: string, s: string, b: string, name: string)
    requires Trimming.AllBlank(IsBlank, a) && Trimming.AllBlank(IsBlank, b)
    requires Trimming.Solid(IsBlank, s) && Recased(s, name) && Lowercase(name)
    ensures Normal(a + s + b) == name
  {
    Trimming.TrimFinds(IsBlank, a, s, b);
    LowerIs(s, name);
  }

  /** A name is that of some casing of it between blanks. */
  lemma NormalIs(s: string) returns (a: string, core: string, b: string)
    ensures s == a + core + b && Trimming.AllBlank(IsBlank, a) && Trimming.AllBlank(IsBlank, b)
    ensures Trimming.Solid(IsBlank, core) && Recased(core, Normal(s)) && Lowercase(Normal(s))
  {
    a, b := Trimming.TrimSplits(IsBlank, s);
    core := Trim(s);
    LowerIs(core, Normal(s));
  }

  // ---------------------------------------------------------------- keys put together with colons

  lemma LastColon(v: string, a: string)
    requires ':' !in a
    ensures var key := v + ":" + a; key[|v|] == ':' && forall i :: |v| < i < |key| ==> key[i] != ':'
  {
    var key := v + ":" + a;
    forall i | |v| < i < |key|
      ensures key[i] != ':'
    {
      assert key[i] == a[i - |v| - 1];
    }
  }

  /** The last colon splits a key back into its parts. */
  lemma KeySplits(v: string, a: string, w: string, b: string)
    requires v + ":" + a == w + ":" + b && ':' !in a && ':' !in b
    ensures v == w && a == b
  {
    var key := v + ":" + a;
    LastColon(v, a);
    LastColon(w, b);
    assert key[|w|] == ':' && key[|v|] == ':';
    assert |v| == |w|;
    assert v == key[..|v|] == (w + ":" + b)[..|w|] == w;
    assert a == key[|v| + 1..] == (w + ":" + b)[|w| + 1..] == b;
  }

  lemma FirstColon(v: string, a: string)
    requires ':' !in v
    ensures var key := v + ":" + a; key[|v|] == ':' && forall i :: 0 <= i < |v| ==> key[i] != ':'
  {
    var key := v + ":" + a;
    forall i | 0 <= i < |v|
      ensures key[i] != ':'
    {
      assert key[i] == v[i];
    }
  }

  /** The first colon splits a key into its parts, if what stands before it holds none. */
  lemma FirstColonSplits(v: string, a: string, w: string, b: string)
    requires v + ":" + a == w + ":" + b && ':' !in v && ':' !in w
    ensures v == w && a == b
  {
    var key := v + ":" + a;
    FirstColon(v, a);
    FirstColon(w, b);
    assert key[|w|] == ':' && key[|v|] == ':';
    assert |v| == |w|;
    assert v == key[..|v|] == (w + ":" + b)[..|w|] == w;
    assert a == key[|v| + 1..] == (w + ":" + b)[|w| + 1..] == b;
  }

  lemma SuffixCancels(a: string, b: string, suffix: string)
    requires a + suffix == b + suffix
    ensures a == b
  {
    assert |a| == |b|;
    assert a == (a + suffix)[..|a|] == (b + suffix)[..|b|] == b;
  }
}
