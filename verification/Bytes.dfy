/** Byte strings, ASCII lower-casing and the occurrence relations the guard's pre-filters rest on. */
module Bytes {

  newtype Byte = b: int | 0 <= b < 256

  type Text = seq<Byte>

  predicate IsDigit(b: Byte) {
    48 <= b <= 57
  }

  /** A letter, digit or underscore. */
  predicate IsWord(b: Byte) {
    IsDigit(b) || 65 <= b <= 90 || 97 <= b <= 122 || b == 95
  }

  const DIGITS := "0123456789"
  const LETTERS := "abcdefghijklmnopqrstuvwxyz"

  lemma DigitsAre(b: Byte)
    ensures IsDigit(b) <==> b as char in DIGITS
  {
    if IsDigit(b) {
      assert DIGITS[b as int - 48] == b as char;
    }
  }

  function LowerByte(b: Byte): Byte {
    if 65 <= b <= 90 then b + 32 else b
  }

  lemma WordBytesAre(b: Byte)
    ensures IsWord(b) <==> b as char in DIGITS || b as char == '_' || LowerByte(b) as char in LETTERS
  {
    DigitsAre(b);
    if 97 <= LowerByte(b) <= 122 {
      assert LETTERS[LowerByte(b) as int - 97] == LowerByte(b) as char;
    }
  }

  function Lower(t: Text): (r: Text)
    ensures |r| == |t|
    ensures forall i :: 0 <= i < |t| ==> r[i] == LowerByte(t[i])
  {
    seq(|t|, i requires 0 <= i < |t| => LowerByte(t[i]))
  }

  // ---------------------------------------------------------------- what lower-casing means

  /** The same byte, or the two cases of one letter. */
  predicate SameButCase(a: Byte, b: Byte) {
    a == b || (65 <= a <= 90 && b == a + 32) || (65 <= b <= 90 && a == b + 32)
  }

  /** Two casings of one text. */
  predicate Recased(p: Text, q: Text) {
    |p| == |q| && forall i :: 0 <= i < |p| ==> SameButCase(p[i], q[i])
  }

  predicate Lowercase(t: Text) {
    forall i :: 0 <= i < |t| ==> !(65 <= t[i] <= 90)
  }

  /** Lower-casing yields the one casing without an upper-case letter. */
  lemma LowerIs(t: Text, r: Text)
    ensures r == Lower(t) <==> Recased(t, r) && Lowercase(r)
  {
    if Recased(t, r) && Lowercase(r) {
      forall i | 0 <= i < |t|
        ensures r[i] == Lower(t)[i]
      {
        assert SameButCase(t[i], r[i]);
      }
    }
  }

  /** Two texts lower-case to the same exactly when they are casings of one text. */
  lemma LowerTells(p: Text, q: Text)
    ensures Lower(p) == Lower(q) <==> Recased(p, q)
  {
    if Lower(p) == Lower(q) {
      forall i | 0 <= i < |p|
        ensures SameButCase(p[i], q[i])
      {
        assert Lower(p)[i] == Lower(q)[i];
      }
    }
  }

  ghost predicate OccursAt(w: Text, t: Text, k: nat) {
    k + |w| <= |t| && t[k..k + |w|] == w
  }

  /** `w` is a contiguous part of `t`. */
  ghost predicate Occurs(w: Text, t: Text) {
    exists k: nat :: OccursAt(w, t, k)
  }

  predicate SuffixOf(w: Text, t: Text) {
    |w| <= |t| && t[|t| - |w|..] == w
  }

  /** Of two suffixes of one text, the shorter is a suffix of the longer. */
  lemma SuffixChain(u: Text, v: Text, t: Text)
    requires SuffixOf(u, t) && SuffixOf(v, t) && |u| <= |v|
    ensures SuffixOf(u, v)
  {
    assert v[|v| - |u|..] == t[|t| - |v|..][|v| - |u|..];
  }

  lemma SuffixTrans(u: Text, v: Text, t: Text)
    requires SuffixOf(u, v) && SuffixOf(v, t)
    ensures SuffixOf(u, t)
  {
    assert v[|v| - |u|..] == t[|t| - |v|..][|v| - |u|..];
  }

  /** Dropping the last byte of a suffix and of the text keeps the relation. */
  lemma SuffixSnoc(u: Text, t: Text, b: Byte)
    ensures SuffixOf(u + [b], t + [b]) <==> SuffixOf(u, t)
  {
    if |u| <= |t| {
      assert (t + [b])[|t| - |u|..] == t[|t| - |u|..] + [b];
      if SuffixOf(u + [b], t + [b]) {
        assert (t[|t| - |u|..] + [b])[..|u|] == (u + [b])[..|u|];
      }
    }
  }

  /** A word occurs in a text exactly when it ends some prefix of it. */
  lemma OccursIffEndsPrefix(w: Text, t: Text)
    ensures Occurs(w, t) <==> exists i :: 0 <= i <= |t| && SuffixOf(w, t[..i])
  {
    if Occurs(w, t) {
      var k: nat :| OccursAt(w, t, k);
      assert t[..k + |w|][k..] == t[k..k + |w|];
      assert SuffixOf(w, t[..k + |w|]);
    }
    if i :| 0 <= i <= |t| && SuffixOf(w, t[..i]) {
      assert t[i - |w|..i] == t[..i][i - |w|..];
      assert OccursAt(w, t, i - |w|);
    }
  }

  lemma OccursInPart(w: Text, t: Text, i: nat, j: nat)
    requires i <= j <= |t| && Occurs(w, t[i..j])
    ensures Occurs(w, t)
  {
    var k: nat :| OccursAt(w, t[i..j], k);
    var part := t[i..j];
    var here := t[i + k..i + k + |w|];
    assert forall m :: 0 <= m < |w| ==> here[m] == part[k + m];
    assert part[k..k + |w|] == here;
    assert OccursAt(w, t, i + k);
  }

  /** Lower-casing both sides searches for any casing of the word. */
  lemma OccursRecased(w: Text, t: Text)
    ensures Occurs(Lower(w), Lower(t)) <==> exists v :: Recased(w, v) && Occurs(v, t)
  {
    if k: nat :| OccursAt(Lower(w), Lower(t), k) {
      var v := t[k..k + |w|];
      assert Lower(v) == Lower(t)[k..k + |w|];
      LowerTells(w, v);
      assert OccursAt(v, t, k);
    }
    if v :| Recased(w, v) && Occurs(v, t) {
      var k: nat :| OccursAt(v, t, k);
      LowerTells(w, v);
      assert Lower(t)[k..k + |v|] == Lower(t[k..k + |v|]);
      assert OccursAt(Lower(w), Lower(t), k);
    }
  }

  lemma OccursTrans(u: Text, v: Text, t: Text)
    requires Occurs(u, v) && Occurs(v, t)
    ensures Occurs(u, t)
  {
    var k: nat :| OccursAt(v, t, k);
    OccursInPart(u, t, k, k + |v|);
  }
}
