/** Building the guard's literal automaton from patterns and scanning an input with it. */
module AhoCorasick {
  import opened Options
  import opened Bytes
  import opened Tries
  import opened FailureLinks

  /** The words the automaton must find: non-empty patterns, lower-cased. */
  ghost function Words(patterns: seq<Text>): set<Text> {
    set p | p in patterns && p != [] :: Lower(p)
  }

  ghost predicate AnyOccurs(words: set<Text>, t: Text) {
    exists w :: w in words && Occurs(w, t)
  }

  // ---------------------------------------------------------------- entry points

  /** Builds the automaton; no patterns at all yields none. */
  method Build(patterns: seq<Text>) returns (ac: Option<Automaton>, ghost path: seq<Text>)
    ensures ac.None? <==> patterns == []
    ensures ac.Some? ==> Correct(ac.value, path, Words(patterns))
  {
    if |patterns| == 0 {
      return None, [];
    }
    var g: seq<map<Byte, int>>, emit := [map[]], [false];
    path := [[]];
    ghost var words: set<Text> := {};
    for i := 0 to |patterns|
      invariant Planted(g, emit, path, words) && words == Words(patterns[..i])
    {
      var p := Lower(patterns[i]);
      if p != [] {
        g, emit, path := Insert(g, emit, p, path, words);
        words := words + {p};
      }
    }
    assert patterns[..|patterns|] == patterns;
    var fail;
    ghost var order;
    fail, emit, order := LayLinks(g, emit, path, words);
    ac := Some(Automaton(g, fail, emit));
  }

  /** No word ends within the first `i` bytes. */
  ghost predicate Quiet(words: set<Text>, input: Text, i: nat)
    requires i <= |input|
  {
    forall j :: 0 <= j <= i ==> !Ends(words, input[..j])
  }

  /** One byte of the scan: the new state is the longest for the longer prefix and its bit is exact. */
  lemma ScanStep(a: Automaton, path: seq<Text>, words: set<Text>, input: Text, i: nat, f: nat)
    requires Correct(a, path, words) && i < |input|
    requires Covers(a.gotoFn, path, input[..i], input[i], f) && (input[i] in a.gotoFn[f] || f == 0)
    ensures var s := if input[i] in a.gotoFn[f] then a.gotoFn[f][input[i]] else f;
            Longest(path, input[..i + 1], s) && (a.emit[s] <==> Ends(words, input[..i + 1]))
                && |path[s]| <= |path[f]| + 1
  {
    assert input[..i] + [input[i]] == input[..i + 1];
    ReadStep(a.gotoFn, path, input[..i], input[i], f);
    var s := if input[i] in a.gotoFn[f] then a.gotoFn[f][input[i]] else f;
    EndsAgree(path, words, input[..i + 1], s);
  }

  lemma EndsOccurs(words: set<Text>, input: Text, i: nat)
    requires i <= |input| && Ends(words, input[..i])
    ensures AnyOccurs(words, input)
  {
    var w :| w in words && SuffixOf(w, input[..i]);
    OccursIffEndsPrefix(w, input);
  }

  /**
   Scans the input and stops at the first state that ends a word. `hops` counts the failure
   links followed: never more than the bytes read.
   */
  method Matches(ac: Option<Automaton>, input: Text, ghost path: seq<Text>, ghost words: set<Text>)
      returns (hit: bool, ghost hops: nat)
    requires ac.Some? ==> Correct(ac.value, path, words)
    requires ac.None? ==> words == {}
    ensures hit <==> AnyOccurs(words, input)
    ensures hops <= |input|
  {
    hops := 0;
    if ac.None? || |input| == 0 {
      return false, 0;
    }
    var a := ac.value;
    var state := 0;
    for i := 0 to |input|
      invariant Longest(path, input[..i], state)
      invariant Quiet(words, input, i)
      invariant hops + |path[state]| <= i
    {
      var b := input[i];
      ghost var from, jumps := state, 0;
      state, jumps := FollowLinks(a.gotoFn, a.fail, state, b, path, input[..i]);
      ScanStep(a, path, words, input, i, state);
      hops := hops + jumps;
      if b in a.gotoFn[state] {
        state := a.gotoFn[state][b];
      }
      if a.emit[state] {
        EndsOccurs(words, input, i + 1);
        return true, hops;
      }
    }
    return false, hops;
  }

  // ---------------------------------------------------------------- the pre-filter ignores case

  /** The input holds a lower-case spelling of some non-empty pattern. */
  ghost predicate SpelledIn(patterns: seq<Text>, input: Text) {
    exists p, w :: p in patterns && p != [] && Recased(p, w) && Lowercase(w) && Occurs(w, input)
  }

  lemma WordsSpelled(patterns: seq<Text>, input: Text)
    ensures AnyOccurs(Words(patterns), input) <==> SpelledIn(patterns, input)
  {
    if w :| w in Words(patterns) && Occurs(w, input) {
      var p :| p in patterns && p != [] && w == Lower(p);
      LowerIs(p, w);
    }
    if p, w :| p in patterns && p != [] && Recased(p, w) && Lowercase(w) && Occurs(w, input) {
      LowerIs(p, w);
      assert w in Words(patterns);
    }
  }

  /** Build and scan together: a hit exactly when the input holds a lower-case spelling of a non-empty pattern. */
  method Prefilter(patterns: seq<Text>, input: Text) returns (hit: bool)
    ensures hit <==> SpelledIn(patterns, input)
  {
    var ac, path := Build(patterns);
    ghost var hops;
    hit, hops := Matches(ac, input, path, Words(patterns));
    WordsSpelled(patterns, input);
  }

  ghost predicate RecasedAll(ps: seq<Text>, qs: seq<Text>) {
    |ps| == |qs| && forall i :: 0 <= i < |ps| ==> Recased(ps[i], qs[i])
  }

  lemma CasingHelps(ps: seq<Text>, qs: seq<Text>, input: Text)
    requires RecasedAll(ps, qs) && SpelledIn(ps, input)
    ensures SpelledIn(qs, input)
  {
    var p, w :| p in ps && p != [] && Recased(p, w) && Lowercase(w) && Occurs(w, input);
    var i :| 0 <= i < |ps| && ps[i] == p;
    LowerTells(p, qs[i]);
    LowerTells(p, w);
    LowerTells(qs[i], w);
    assert qs[i] in qs;
  }

  /** The answer is the same for every casing of the patterns. */
  lemma CasingIrrelevant(ps: seq<Text>, qs: seq<Text>, input: Text)
    requires RecasedAll(ps, qs)
    ensures SpelledIn(ps, input) <==> SpelledIn(qs, input)
  {
    assert RecasedAll(qs, ps);
    if SpelledIn(ps, input) {
      CasingHelps(ps, qs, input);
    }
    if SpelledIn(qs, input) {
      CasingHelps(qs, ps, input);
    }
  }

  /** Over a lower-cased text, as the guard scans it: a hit exactly when the text holds some casing of a pattern. */
  lemma LoweredSearch(patterns: seq<Text>, t: Text)
    ensures SpelledIn(patterns, Lower(t)) <==> exists p, v :: p in patterns && p != [] && Recased(p, v) && Occurs(v, t)
  {
    WordsSpelled(patterns, Lower(t));
    if w :| w in Words(patterns) && Occurs(w, Lower(t)) {
      var p :| p in patterns && p != [] && w == Lower(p);
      OccursRecased(p, t);
    }
    if p, v :| p in patterns && p != [] && Recased(p, v) && Occurs(v, t) {
      OccursRecased(p, t);
      assert Lower(p) in Words(patterns);
    }
  }
}
