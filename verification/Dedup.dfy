/** Removing duplicates by a key and keeping what satisfies a test, both in order. */
module Dedup {

  function Keys<T>(f: T -> string, cs: seq<T>): set<string> {
    if cs == [] then {} else Keys(f, cs[..|cs| - 1]) + {f(cs[|cs| - 1])}
  }

  /** The elements whose key is neither in `seen` nor that of an earlier element, in order. */
  function Fresh<T>(f: T -> string, seen: set<string>, cs: seq<T>): seq<T> {
    if cs == [] then []
    else if f(cs[|cs| - 1]) in seen + Keys(f, cs[..|cs| - 1]) then Fresh(f, seen, cs[..|cs| - 1])
    else Fresh(f, seen, cs[..|cs| - 1]) + [cs[|cs| - 1]]
  }

  function First<T>(f: T -> string, cs: seq<T>): seq<T> {
    Fresh(f, {}, cs)
  }

  function Keep<T>(h: T -> bool, cs: seq<T>): seq<T> {
    if cs == [] then []
    else if h(cs[|cs| - 1]) then Keep(h, cs[..|cs| - 1]) + [cs[|cs| - 1]]
    else Keep(h, cs[..|cs| - 1])
  }

  lemma {:induction false} KeysMeaning<T>(f: T -> string, cs: seq<T>, key: string)
    ensures key in Keys(f, cs) <==> exists i :: 0 <= i < |cs| && f(cs[i]) == key
  {
    if cs != [] {
      var before := cs[..|cs| - 1];
      KeysMeaning(f, before, key);
      if i :| 0 <= i < |cs| && f(cs[i]) == key {
        if i < |before| {
          assert before[i] == cs[i];
        }
      }
    }
  }

  lemma Associate<T>(a: seq<T>, b: seq<T>, c: seq<T>)
    ensures a + b + c == a + (b + c)
  {
  }

  lemma {:induction false} FreshAppend<T>(f: T -> string, seen: set<string>, a: seq<T>, b: seq<T>)
    ensures Fresh(f, seen, a + b) == Fresh(f, seen, a) + Fresh(f, seen + Keys(f, a), b)
    ensures Keys(f, a + b) == Keys(f, a) + Keys(f, b)
    decreases |b|
  {
    if b == [] {
      assert a + b == a;
    } else {
      FreshAppend(f, seen, a, b[..|b| - 1]);
      assert (a + b)[..|a + b| - 1] == a + b[..|b| - 1];
    }
  }

  lemma {:induction false} KeepAppend<T>(h: T -> bool, a: seq<T>, b: seq<T>)
    ensures Keep(h, a + b) == Keep(h, a) + Keep(h, b)
    decreases |b|
  {
    if b == [] {
      assert a + b == a;
    } else {
      KeepAppend(h, a, b[..|b| - 1]);
      assert (a + b)[..|a + b| - 1] == a + b[..|b| - 1];
    }
  }

  /** Nothing is lost: each key is seen or keeps an element. */
  lemma {:induction false} FreshKeys<T>(f: T -> string, seen: set<string>, cs: seq<T>)
    ensures seen + Keys(f, Fresh(f, seen, cs)) == seen + Keys(f, cs)
  {
    if cs != [] {
      var before, last := cs[..|cs| - 1], cs[|cs| - 1];
      FreshKeys(f, seen, before);
      FreshAppend(f, seen, Fresh(f, seen, before), [last]);
      assert Keys(f, [last]) == {f(last)};
    }
  }

  /** Nothing is fresh exactly when every key has been seen. */
  lemma {:induction false} FreshNothing<T>(f: T -> string, seen: set<string>, cs: seq<T>)
    ensures Fresh(f, seen, cs) == [] <==> Keys(f, cs) <= seen
  {
    if cs != [] {
      FreshNothing(f, seen, cs[..|cs| - 1]);
    }
  }

  /** No two elements share a key. */
  predicate Apart<T>(f: T -> string, cs: seq<T>) {
    forall i, j :: 0 <= i < j < |cs| ==> f(cs[i]) != f(cs[j])
  }

  /** Nothing is doubled. */
  lemma {:induction false} FirstApart<T>(f: T -> string, cs: seq<T>)
    ensures Apart(f, First(f, cs))
  {
    if cs != [] {
      var before := cs[..|cs| - 1];
      FirstApart(f, before);
      FreshKeys(f, {}, before);
      forall i | 0 <= i < |First(f, before)|
        ensures f(First(f, before)[i]) in Keys(f, before)
      {
        KeysMeaning(f, First(f, before), f(First(f, before)[i]));
      }
    }
  }

  lemma {:induction false} FreshFrom<T>(f: T -> string, seen: set<string>, cs: seq<T>, c: T)
    requires c in Fresh(f, seen, cs)
    ensures c in cs
  {
    if c in Fresh(f, seen, cs[..|cs| - 1]) {
      FreshFrom(f, seen, cs[..|cs| - 1], c);
    }
  }

  lemma {:induction false} KeepHas<T>(h: T -> bool, cs: seq<T>, c: T)
    ensures c in Keep(h, cs) <==> c in cs && h(c)
  {
    if cs != [] {
      var before, last := cs[..|cs| - 1], cs[|cs| - 1];
      KeepHas(h, before, c);
      assert cs == before + [last];
    }
  }

  /** Each element has one of its key among the first occurrences. */
  lemma FirstStands<T>(f: T -> string, cs: seq<T>, c: T) returns (first: T)
    requires c in cs
    ensures first in First(f, cs) && f(first) == f(c)
  {
    var i :| 0 <= i < |cs| && cs[i] == c;
    KeysMeaning(f, cs, f(c));
    FreshKeys(f, {}, cs);
    KeysMeaning(f, First(f, cs), f(c));
    var j :| 0 <= j < |First(f, cs)| && f(First(f, cs)[j]) == f(c);
    first := First(f, cs)[j];
  }

  /** A first occurrence keeps its place among the first occurrences. */
  lemma {:induction false} FirstInOrder<T>(f: T -> string, cs: seq<T>, i: nat)
    requires i < |cs| && f(cs[i]) !in Keys(f, cs[..i])
    ensures First(f, cs[..i]) + [cs[i]] <= First(f, cs)
  {
    var before := cs[..|cs| - 1];
    if i < |cs| - 1 {
      assert before[..i] == cs[..i];
      FirstInOrder(f, before, i);
    }
  }

  lemma {:induction false} FirstTwice<T>(f: T -> string, cs: seq<T>)
    ensures First(f, First(f, cs)) == First(f, cs)
  {
    if cs != [] {
      var before, last := cs[..|cs| - 1], cs[|cs| - 1];
      FirstTwice(f, before);
      FreshKeys(f, {}, before);
      FreshAppend(f, {}, First(f, before), [last]);
    }
  }

  /** Removing duplicates early changes nothing. */
  lemma FirstAbsorbs<T>(f: T -> string, a: seq<T>, b: seq<T>)
    ensures First(f, First(f, a) + b) == First(f, a + b)
  {
    FirstTwice(f, a);
    FreshKeys(f, {}, a);
    FreshAppend(f, {}, First(f, a), b);
    FreshAppend(f, {}, a, b);
  }

  ghost predicate All<T>(h: T -> bool, cs: seq<T>) {
    forall i :: 0 <= i < |cs| ==> h(cs[i])
  }

  ghost predicate Nowhere<T>(h: T -> bool, cs: seq<T>) {
    forall i :: 0 <= i < |cs| ==> !h(cs[i])
  }

  lemma {:induction false} KeepIdle<T>(f: T -> string, h: T -> bool, seen: set<string>, cs: seq<T>)
    requires All(h, cs)
    ensures Keep(h, Fresh(f, seen, cs)) == Fresh(f, seen, cs)
  {
    if cs != [] {
      KeepIdle(f, h, seen, cs[..|cs| - 1]);
      KeepAppend(h, Fresh(f, seen, cs[..|cs| - 1]), [cs[|cs| - 1]]);
    }
  }

  lemma {:induction false} KeepNone<T>(f: T -> string, h: T -> bool, seen: set<string>, cs: seq<T>)
    requires Nowhere(h, cs)
    ensures Keep(h, Fresh(f, seen, cs)) == []
  {
    if cs != [] {
      KeepNone(f, h, seen, cs[..|cs| - 1]);
      KeepAppend(h, Fresh(f, seen, cs[..|cs| - 1]), [cs[|cs| - 1]]);
    }
  }

  lemma {:induction false} KeepAll<T>(h: T -> bool, cs: seq<T>)
    ensures All(h, Keep(h, cs))
  {
    if cs != [] {
      KeepAll(h, cs[..|cs| - 1]);
    }
  }

  /** Removing duplicates and then keeping what satisfies the test undoes an extension by elements that do not. */
  lemma KeepOfFirst<T>(f: T -> string, h: T -> bool, a: seq<T>, b: seq<T>)
    requires All(h, a) && Nowhere(h, b)
    ensures Keep(h, First(f, a + b)) == First(f, a)
  {
    FreshAppend(f, {}, a, b);
    KeepAppend(h, First(f, a), Fresh(f, {} + Keys(f, a), b));
    KeepIdle(f, h, {}, a);
    KeepNone(f, h, {} + Keys(f, a), b);
  }

  /** Extends a list by more elements, keeping track of the keys seen. */
  method AppendFresh<T>(f: T -> string, cs: seq<T>, seen0: set<string>, next0: seq<T>)
      returns (seen: set<string>, next: seq<T>)
    ensures seen == seen0 + Keys(f, cs) && next == next0 + Fresh(f, seen0, cs)
  {
    seen, next := seen0, next0;
    for i := 0 to |cs|
      invariant seen == seen0 + Keys(f, cs[..i]) && next == next0 + Fresh(f, seen0, cs[..i])
    {
      assert cs[..i + 1][..i] == cs[..i];
      if f(cs[i]) in seen {
        continue;
      }
      seen := seen + {f(cs[i])};
      next := next + [cs[i]];
    }
    assert cs[..|cs|] == cs;
  }

  /** Two lists in turn, each key once. */
  method MergeFirst<T>(f: T -> string, base: seq<T>, more: seq<T>) returns (merged: seq<T>)
    ensures merged == First(f, base + more) && Apart(f, merged)
  {
    var seen;
    seen, merged := AppendFresh(f, base, {}, []);
    seen, merged := AppendFresh(f, more, seen, merged);
    FreshAppend(f, {}, base, more);
    FirstApart(f, base + more);
  }
}
