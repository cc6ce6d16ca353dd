/** The Luhn checksum of the card scanner, against the right-to-left definition of ISO/IEC 7812-1 Annex B. */
module Luhn {

  type Digit = d: int | 0 <= d <= 9

  /** A doubled digit, with its two digits added when it exceeds nine. */
  function Weigh(d: Digit, double: bool): Digit {
    if !double then d else if 2 * d > 9 then 2 * d - 9 else 2 * d
  }

  /** Right to left, starting with the check digit, every second digit is doubled. */
  function Total(digits: seq<Digit>, double: bool): nat {
    if digits == [] then 0
    else Weigh(digits[|digits| - 1], double) + Total(digits[..|digits| - 1], !double)
  }

  predicate Valid(digits: seq<Digit>) {
    Total(digits, false) % 10 == 0
  }

  predicate Flip(double: bool, n: nat) {
    if n % 2 == 0 then double else !double
  }

  lemma {:induction false} TotalSplit(a: seq<Digit>, b: seq<Digit>, double: bool)
    ensures Total(a + b, double) == Total(a, Flip(double, |b|)) + Total(b, double)
  {
    if b == [] {
      assert a + b == a;
    } else {
      var n := |b| - 1;
      assert (a + b)[..|a + b| - 1] == a + b[..n];
      TotalSplit(a, b[..n], !double);
    }
  }

  /** The left-to-right loop with its length parity computes the right-to-left checksum. */
  method LuhnValid(digits: seq<Digit>) returns (ok: bool)
    ensures ok <==> Valid(digits)
  {
    var sum := 0;
    var parity := |digits| % 2;
    for i := 0 to |digits|
      invariant sum == Total(digits[..i], Flip(false, |digits| - i))
    {
      var v: int := digits[i];
      if i % 2 == parity {
        v := v * 2;
        if v > 9 {
          v := v - 9;
        }
      }
      assert digits[..i + 1][..i] == digits[..i];
      sum := sum + v;
    }
    assert digits[..|digits|] == digits;
    ok := sum % 10 == 0;
  }

  lemma WeighInjective(x: Digit, y: Digit, double: bool)
    ensures Weigh(x, double) == Weigh(y, double) <==> x == y
  {
  }

  lemma Cut(digits: seq<Digit>, i: nat)
    requires i < |digits|
    ensures digits == digits[..i] + ([digits[i]] + digits[i + 1..])
  {
  }

  lemma TotalOne(x: Digit, double: bool)
    ensures Total([x], double) == Weigh(x, double)
  {
    assert [x][..0] == [];
  }

  /** Changing one digit moves the checksum by the change of its weight alone. */
  lemma ChangeMoves(digits: seq<Digit>, i: nat, x: Digit)
    requires i < |digits|
    ensures var double := Flip(false, |digits| - i - 1);
            Total(digits[i := x], false) - Total(digits, false) == Weigh(x, double) - Weigh(digits[i], double)
  {
    var a, b := digits[..i], digits[i + 1..];
    Cut(digits, i);
    assert digits[i := x] == a + ([x] + b);
    TotalSplit(a, [digits[i]] + b, false);
    TotalSplit(a, [x] + b, false);
    TotalSplit([digits[i]], b, false);
    TotalSplit([x], b, false);
    TotalOne(x, Flip(false, |b|));
    TotalOne(digits[i], Flip(false, |b|));
  }

  lemma NearMultiples(a: nat, b: nat)
    requires a % 10 == 0 && a != b && a - 10 < b < a + 10
    ensures b % 10 != 0
  {
    var q := a / 10;
    assert a == 10 * q;
    if a < b {
      assert b - a == b - 10 * q && b / 10 == q;
    } else {
      assert b / 10 == q - 1;
    }
  }

  lemma SameResidue(a: int, b: int)
    requires a % 10 == 0
    ensures b % 10 == 0 <==> (b - a) % 10 == 0
  {
    var q := a / 10;
    assert a == 10 * q;
    if b % 10 == 0 {
      assert b - a == 10 * (b / 10 - q);
    }
    if (b - a) % 10 == 0 {
      assert b == 10 * ((b - a) / 10 + q);
    }
  }

  /** Every single-digit error in a valid number is caught. */
  lemma SingleErrorCaught(digits: seq<Digit>, i: nat, x: Digit)
    requires i < |digits| && Valid(digits) && x != digits[i]
    ensures !Valid(digits[i := x])
  {
    ChangeMoves(digits, i, x);
    WeighInjective(x, digits[i], Flip(false, |digits| - i - 1));
    NearMultiples(Total(digits, false), Total(digits[i := x], false));
  }

  /** What doubling adds to a digit's weight: distinct for any two digits but 0 and 9. */
  function Gain(x: Digit): int {
    Weigh(x, true) - Weigh(x, false)
  }

  lemma GainIs(x: Digit)
    ensures Gain(x) == if x < 5 then x else x - 9
  {
  }

  lemma GainTells(x: Digit, y: Digit)
    ensures (Gain(x) - Gain(y)) % 10 == 0 <==> x == y || (x == 0 && y == 9) || (x == 9 && y == 0)
  {
    GainIs(x);
    GainIs(y);
  }

  lemma PairIs(x: Digit, y: Digit)
    ensures {x, y} == {0, 9} <==> (x == 0 && y == 9) || (x == 9 && y == 0)
  {
    if {x, y} == {0, 9} {
      assert 0 in {x, y} && 9 in {x, y};
    }
  }

  lemma TransposeWeighs(x: Digit, y: Digit, double: bool)
    ensures (Weigh(y, !double) + Weigh(x, double) - Weigh(x, !double) - Weigh(y, double)) % 10 == 0 <==>
            x == y || {x, y} == {0, 9}
  {
    PairIs(x, y);
    if double {
      GainTells(x, y);
    } else {
      GainTells(y, x);
    }
  }

  /** Swapping two adjacent digits of a valid number goes unnoticed exactly for equal digits and for 0 with 9. */
  lemma TranspositionCaught(digits: seq<Digit>, i: nat)
    requires i + 1 < |digits| && Valid(digits)
    ensures Valid(digits[i := digits[i + 1]][i + 1 := digits[i]]) <==>
            digits[i] == digits[i + 1] || {digits[i], digits[i + 1]} == {0, 9}
  {
    var x, y := digits[i], digits[i + 1];
    var once := digits[i := y];
    ChangeMoves(digits, i, y);
    ChangeMoves(once, i + 1, x);
    var double := Flip(false, |digits| - i - 2);
    assert Flip(false, |digits| - i - 1) == !double;
    TransposeWeighs(x, y, double);
    SameResidue(Total(digits, false), Total(once[i + 1 := x], false));
  }
}
