/**
 The trie of an Aho-Corasick automaton. A state is named by the word that leads to it from the root; the ghost sequence
 `path` lists those words. Everything the automaton means is stated on the words.
 */
module Tries {
  import opened Bytes

  datatype Automaton = Automaton(gotoFn: seq<map<Byte, int>>, fail: seq<int>, emit: seq<bool>)

  /** Some word ends the text `t`. */
  ghost predicate Ends(words: set<Text>, t: Text) {
    exists w :: w in words && SuffixOf(w, t)
  }

  ghost predicate HasParent(g: seq<map<Byte, int>>, path: seq<Text>, t: nat)
    requires |g| == |path| && t < |path|
  {
    && path[t] != []
    && exists s :: 0 <= s < |path| && path[s] == path[t][..|path[t]| - 1] && path[t][|path[t]| - 1] in g[s]
  }

  /** `g` is a trie whose states spell pairwise different words, each with its parent in the trie. */
  ghost predicate Trie(g: seq<map<Byte, int>>, path: seq<Text>) {
    && |g| == |path| > 0
    && path[0] == []
    && (forall s, t :: 0 <= s < t < |path| ==> path[s] != path[t])
    && (forall s, b :: 0 <= s < |g| && b in g[s] ==> 0 < g[s][b] < |path| && path[g[s][b]] == path[s] + [b])
    && (forall t :: 0 < t < |path| ==> HasParent(g, path, t))
  }

  /** State `f` spells the longest suffix of `w` that is a word of the trie. */
  ghost predicate Longest(path: seq<Text>, w: Text, f: int) {
    && 0 <= f < |path|
    && SuffixOf(path[f], w)
    && forall t :: 0 <= t < |path| && SuffixOf(path[t], w) ==> |path[t]| <= |path[f]|
  }

  /** Every state that ends `w` and can read `b` is at most as deep as `f`. */
  ghost predicate Covers(g: seq<map<Byte, int>>, path: seq<Text>, w: Text, b: Byte, f: int)
    requires |g| == |path|
  {
    && 0 <= f < |path|
    && SuffixOf(path[f], w)
    && forall t :: 0 <= t < |path| && SuffixOf(path[t], w) && b in g[t] ==> |path[t]| <= |path[f]|
  }

  /** The failure link of a non-root state: its longest proper suffix in the trie. */
  ghost predicate Linked(path: seq<Text>, fail: seq<int>, s: nat)
    requires |fail| == |path| && 0 < s < |path|
  {
    path[s] != [] && Longest(path, path[s][1..], fail[s])
  }

  /** What a finished automaton guarantees for the words it was built from. */
  ghost predicate Correct(ac: Automaton, path: seq<Text>, words: set<Text>) {
    && Trie(ac.gotoFn, path)
    && |ac.fail| == |ac.emit| == |path|
    && (forall w :: w in words ==> w != [] && w in path)
    && (forall s :: 0 < s < |path| ==> Linked(path, ac.fail, s))
    && (forall s :: 0 <= s < |path| ==> (ac.emit[s] <==> Ends(words, path[s])))
  }

  // ---------------------------------------------------------------- trie facts

  lemma ParentStep(g: seq<map<Byte, int>>, path: seq<Text>, t: nat) returns (s: nat, b: Byte)
    requires Trie(g, path) && 0 < t < |path|
    ensures s < |path| && b in g[s] && g[s][b] == t
    ensures path[t] == path[s] + [b]
  {
    assert HasParent(g, path, t);
    s :| 0 <= s < |path| && path[s] == path[t][..|path[t]| - 1] && path[t][|path[t]| - 1] in g[s];
    b := path[t][|path[t]| - 1];
    assert path[t] == path[s] + [b];
  }

  lemma ChildExists(g: seq<map<Byte, int>>, path: seq<Text>, s: nat, b: Byte, t: nat)
    requires Trie(g, path) && s < |path| && t < |path| && path[t] == path[s] + [b]
    ensures b in g[s] && g[s][b] == t
  {
    var s', b' := ParentStep(g, path, t);
    assert path[s'] == path[t][..|path[t]| - 1] == path[s];
    assert b' == path[t][|path[t]| - 1] == b;
  }

  /** One failure step keeps the cover: nothing that can read `b` is skipped. */
  lemma FollowStep(g: seq<map<Byte, int>>, path: seq<Text>, fail: seq<int>, w: Text, b: Byte, f: nat)
    requires Trie(g, path) && |fail| == |path|
    requires Covers(g, path, w, b, f) && f != 0 && b !in g[f] && Linked(path, fail, f)
    ensures Covers(g, path, w, b, fail[f]) && |path[fail[f]]| < |path[f]|
  {
    assert SuffixOf(path[f][1..], path[f]);
    SuffixTrans(path[fail[f]], path[f][1..], path[f]);
    SuffixTrans(path[fail[f]], path[f], w);
    forall t | 0 <= t < |path| && SuffixOf(path[t], w) && b in g[t]
      ensures |path[t]| <= |path[fail[f]]|
    {
      SuffixChain(path[t], path[f], w);
      SuffixChain(path[t], path[f][1..], path[f]);
    }
  }

  /** Reading `b` from the last covering state lands on the longest suffix of `w + [b]`. */
  lemma ReadStep(g: seq<map<Byte, int>>, path: seq<Text>, w: Text, b: Byte, f: nat)
    requires Trie(g, path) && Covers(g, path, w, b, f) && (b in g[f] || f == 0)
    ensures Longest(path, w + [b], if b in g[f] then g[f][b] else 0)
  {
    var r := if b in g[f] then g[f][b] else 0;
    SuffixSnoc(path[f], w, b);
    forall t | 0 <= t < |path| && SuffixOf(path[t], w + [b])
      ensures |path[t]| <= |path[r]|
    {
      if t != 0 {
        var p, c := ParentStep(g, path, t);
        assert c == path[t][|path[t]| - 1] == (w + [b])[|w|];
        SuffixSnoc(path[p], w, b);
      }
    }
  }

  /** A longest state ends with a word exactly when the text does. */
  lemma EndsAgree(path: seq<Text>, words: set<Text>, w: Text, s: nat)
    requires Longest(path, w, s) && forall x :: x in words ==> x in path
    ensures Ends(words, path[s]) <==> Ends(words, w)
  {
    if Ends(words, path[s]) {
      var x :| x in words && SuffixOf(x, path[s]);
      SuffixTrans(x, path[s], w);
    }
    if Ends(words, w) {
      var x :| x in words && SuffixOf(x, w);
      SuffixChain(x, path[s], w);
    }
  }

  /** A state is terminal when it spells a word or its failure target is terminal. */
  lemma EmitPropagates(path: seq<Text>, words: set<Text>, s: nat, f: nat)
    requires 0 < s < |path| && path[s] != [] && Longest(path, path[s][1..], f)
    requires forall x :: x in words ==> x in path
    ensures Ends(words, path[s]) <==> path[s] in words || Ends(words, path[f])
  {
    EndsAgree(path, words, path[s][1..], f);
    if path[s] in words {
      assert SuffixOf(path[s], path[s]);
    }
    if Ends(words, path[s]) {
      var x :| x in words && SuffixOf(x, path[s]);
      if x != path[s] {
        SuffixChain(x, path[s][1..], path[s]);
      }
    }
    if Ends(words, path[s][1..]) {
      var x :| x in words && SuffixOf(x, path[s][1..]);
      SuffixTrans(x, path[s][1..], path[s]);
    }
  }

  // ---------------------------------------------------------------- building the trie

  /** A fresh state, reached from `s` by `b`. */
  function Extend(g: seq<map<Byte, int>>, s: nat, b: Byte): seq<map<Byte, int>>
    requires s < |g|
  {
    g[s := g[s][b := |g|]] + [map[]]
  }

  lemma AddChild(g: seq<map<Byte, int>>, path: seq<Text>, s: nat, b: Byte)
    requires Trie(g, path) && s < |path| && b !in g[s]
    ensures Trie(Extend(g, s, b), path + [path[s] + [b]])
  {
    var w := path[s] + [b];
    var g' := Extend(g, s, b);
    var path' := path + [w];
    forall t | 0 <= t < |path|
      ensures path[t] != w
    {
      if path[t] == w {
        ChildExists(g, path, s, b, t);
      }
    }
    forall t | 0 < t < |path'|
      ensures HasParent(g', path', t)
    {
      if t == |path| {
        assert w[..|w| - 1] == path'[s];
      } else {
        var p, c := ParentStep(g, path, t);
        assert path'[p] == path'[t][..|path'[t]| - 1];
      }
    }
  }

  ghost predicate Planted(g: seq<map<Byte, int>>, emit: seq<bool>, path: seq<Text>, words: set<Text>) {
    && Trie(g, path)
    && |emit| == |path|
    && (forall w :: w in words ==> w != [] && w in path)
    && (forall s :: 0 <= s < |path| ==> (emit[s] <==> path[s] in words))
  }

  /** Adds one lower-cased, non-empty pattern to the trie. */
  method Insert(g0: seq<map<Byte, int>>, emit0: seq<bool>, p: Text, ghost path0: seq<Text>, ghost words: set<Text>)
      returns (g: seq<map<Byte, int>>, emit: seq<bool>, ghost path: seq<Text>)
    requires Planted(g0, emit0, path0, words) && p != []
    ensures Planted(g, emit, path, words + {p})
    ensures path0 <= path
  {
    g, emit, path := g0, emit0, path0;
    var state := 0;
    for i := 0 to |p|
      invariant Planted(g, emit, path, words)
      invariant path0 <= path
      invariant 0 <= state < |path| && path[state] == p[..i]
    {
      var b := p[i];
      assert p[..i + 1] == p[..i] + [b];
      if b !in g[state] {
        AddChild(g, path, state, b);
        var next := |g|;
        ghost var old_path := path;
        assert path[state] + [b] !in words by {
          if path[state] + [b] in words {
            var t :| 0 <= t < |path| && path[t] == path[state] + [b];
            ChildExists(g, path, state, b, t);
          }
        }
        path := path + [path[state] + [b]];
        g := Extend(g, state, b);
        emit := emit + [false];
        forall w | w in words
          ensures w in path
        {
          var t :| 0 <= t < |old_path| && old_path[t] == w;
          assert path[t] == w;
        }
        state := next;
      } else {
        state := g[state][b];
      }
    }
    assert p[..|p|] == p;
    emit := emit[state := true];
  }
}
