/** Removing blanks from both ends of a sequence, whatever its elements and whatever counts as blank. */
module Trimming {

  function TrimLeft<T>(blank: T -> bool, t: seq<T>): seq<T> {
    if t != [] && blank(t[0]) then TrimLeft(blank, t[1..]) else t
  }

  function TrimRight<T>(blank: T -> bool, t: seq<T>): seq<T> {
    if t != [] && blank(t[|t| - 1]) then TrimRight(blank, t[..|t| - 1]) else t
  }

  function TrimBoth<T>(blank: T -> bool, t: seq<T>): seq<T> {
    TrimRight(blank, TrimLeft(blank, t))
  }

  predicate Solid<T>(blank: T -> bool, t: seq<T>) {
    t == [] || (!blank(t[0]) && !blank(t[|t| - 1]))
  }

  lemma {:induction false} TrimLeftHead<T>(blank: T -> bool, t: seq<T>)
    ensures TrimLeft(blank, t) == [] || !blank(TrimLeft(blank, t)[0])
  {
    if t != [] && blank(t[0]) {
      TrimLeftHead(blank, t[1..]);
    }
  }

  lemma {:induction false} TrimRightEnds<T>(blank: T -> bool, t: seq<T>)
    ensures TrimRight(blank, t) <= t
    ensures TrimRight(blank, t) == [] || !blank(TrimRight(blank, t)[|TrimRight(blank, t)| - 1])
  {
    if t != [] && blank(t[|t| - 1]) {
      TrimRightEnds(blank, t[..|t| - 1]);
    }
  }

  /** Neither end of a trimmed sequence is blank. */
  lemma TrimEnds<T>(blank: T -> bool, t: seq<T>)
    ensures Solid(blank, TrimBoth(blank, t))
  {
    TrimLeftHead(blank, t);
    TrimRightEnds(blank, TrimLeft(blank, t));
  }

  /** A sequence without blank ends is left alone. */
  lemma TrimFixed<T>(blank: T -> bool, t: seq<T>)
    requires Solid(blank, t)
    ensures TrimBoth(blank, t) == t
  {
  }

  predicate AllBlank<T>(blank: T -> bool, t: seq<T>) {
    forall i :: 0 <= i < |t| ==> blank(t[i])
  }

  lemma {:induction false} TrimLeftSplits<T>(blank: T -> bool, t: seq<T>) returns (a: seq<T>)
    ensures t == a + TrimLeft(blank, t) && AllBlank(blank, a)
  {
    a := [];
    if t != [] && blank(t[0]) {
      var rest := TrimLeftSplits(blank, t[1..]);
      a := [t[0]] + rest;
      assert t == [t[0]] + t[1..];
    }
  }

  lemma {:induction false} TrimRightSplits<T>(blank: T -> bool, t: seq<T>) returns (b: seq<T>)
    ensures t == TrimRight(blank, t) + b && AllBlank(blank, b)
  {
    b := [];
    if t != [] && blank(t[|t| - 1]) {
      var rest := TrimRightSplits(blank, t[..|t| - 1]);
      b := rest + [t[|t| - 1]];
      assert t == t[..|t| - 1] + [t[|t| - 1]];
    }
  }

  /** What is left lies between blanks and has no blank end. */
  lemma TrimSplits<T>(blank: T -> bool, t: seq<T>) returns (a: seq<T>, b: seq<T>)
    ensures t == a + TrimBoth(blank, t) + b && AllBlank(blank, a) && AllBlank(blank, b)
    ensures Solid(blank, TrimBoth(blank, t))
  {
    a := TrimLeftSplits(blank, t);
    b := TrimRightSplits(blank, TrimLeft(blank, t));
    TrimEnds(blank, t);
  }

  lemma {:induction false} TrimLeftSkips<T>(blank: T -> bool, a: seq<T>, t: seq<T>)
    requires AllBlank(blank, a)
    ensures TrimLeft(blank, a + t) == TrimLeft(blank, t)
  {
    if a == [] {
      assert a + t == t;
    } else {
      assert (a + t)[0] == a[0] && (a + t)[1..] == a[1..] + t;
      TrimLeftSkips(blank, a[1..], t);
    }
  }

  lemma {:induction false} TrimRightSkips<T>(blank: T -> bool, t: seq<T>, b: seq<T>)
    requires AllBlank(blank, b)
    ensures TrimRight(blank, t + b) == TrimRight(blank, t)
  {
    if b == [] {
      assert t + b == t;
    } else {
      assert (t + b)[|t + b| - 1] == b[|b| - 1] && (t + b)[..|t + b| - 1] == t + b[..|b| - 1];
      TrimRightSkips(blank, t, b[..|b| - 1]);
    }
  }

  /** Whatever lies between blanks without a blank end is what trimming leaves. */
  lemma TrimFinds<T>(blank: T -> bool, a: seq<T>, t: seq<T>, b: seq<T>)
    requires AllBlank(blank, a) && Solid(blank, t) && AllBlank(blank, b)
    ensures TrimBoth(blank, a + t + b) == t
  {
    assert a + t + b == a + (t + b);
    TrimLeftSkips(blank, a, t + b);
    if t == [] {
      assert t + b == b && b + [] == b;
      TrimLeftSkips(blank, b, []);
    } else {
      assert (t + b)[0] == t[0];
      TrimRightSkips(blank, t, b);
    }
  }

  /** Trimming leaves nothing exactly of what is blank throughout. */
  lemma TrimsAway<T>(blank: T -> bool, t: seq<T>)
    ensures TrimBoth(blank, t) == [] <==> AllBlank(blank, t)
  {
    if TrimBoth(blank, t) == [] {
      var a, b := TrimSplits(blank, t);
      assert t == a + b;
    } else if AllBlank(blank, t) {
      assert t == t + [] + [];
      TrimFinds(blank, t, [], []);
    }
  }

  lemma TrimTwice<T>(blank: T -> bool, t: seq<T>)
    ensures TrimBoth(blank, TrimBoth(blank, t)) == TrimBoth(blank, t)
  {
    TrimEnds(blank, t);
    TrimFixed(blank, TrimBoth(blank, t));
  }
}
