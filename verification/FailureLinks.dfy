/** The breadth-first pass that lays an automaton's failure links and spreads its terminal states. */
module FailureLinks {
  import opened Bytes
  import opened Counting
  import opened Tries

  datatype BfsNode = BfsNode(state: nat, depth: nat)

  // ---------------------------------------------------------------- laying the links

  /** The inner loop shared by link construction and scanning. */
  method FollowLinks(g: seq<map<Byte, int>>, fail: seq<int>, start: nat, b: Byte, ghost path: seq<Text>, ghost w: Text)
      returns (f: nat, ghost hops: nat)
    requires Trie(g, path) && |fail| == |path| && Covers(g, path, w, b, start)
    requires forall s :: 0 < s < |path| && |path[s]| <= |path[start]| ==> Linked(path, fail, s)
    ensures Covers(g, path, w, b, f) && (b in g[f] || f == 0)
    ensures hops + |path[f]| <= |path[start]|
  {
    f, hops := start, 0;
    while !(b in g[f] || f == 0)
      invariant Covers(g, path, w, b, f) && hops + |path[f]| <= |path[start]|
      decreases |path[f]|
    {
      FollowStep(g, path, fail, w, b, f);
      f, hops := fail[f], hops + 1;
    }
  }

  ghost predicate Final(path: seq<Text>, words: set<Text>, fail: seq<int>, emit: seq<bool>, s: nat)
    requires |fail| == |emit| == |path| && s < |path|
  {
    && (s != 0 ==> Linked(path, fail, s))
    && (emit[s] <==> Ends(words, path[s]))
  }

  /** Enqueued states carry their final link and terminal bit; the others are as the trie left them. */
  ghost predicate Settled(path: seq<Text>, words: set<Text>, fail: seq<int>, emit: seq<bool>, order: seq<nat>) {
    && |fail| == |emit| == |path|
    && (forall i :: 0 <= i < |order| ==> order[i] < |path| && Final(path, words, fail, emit, order[i]))
    && (forall s :: 0 <= s < |path| && s !in order ==> (emit[s] <==> path[s] in words))
  }

  /**
   The breadth-first queue: `order` lists the states enqueued so far, each once and by depth, the
   first `h` of them have left the queue, and `level` is the depth of the last one that did.
   */
  ghost predicate Queue(g: seq<map<Byte, int>>, path: seq<Text>, order: seq<nat>, h: nat, level: nat) {
    && |path| == |g| && h <= |order|
    && (forall i :: 0 <= i < |order| ==> 0 < order[i] < |path|)
    && (forall i, j :: 0 <= i < j < |order| ==> order[i] != order[j])
    && (forall i, j :: 0 <= i < j < |order| ==> |path[order[i]]| <= |path[order[j]]|)
    && (forall i :: 0 <= i < |order| ==> |path[order[i]]| <= level + 1)
    && (forall i :: h <= i < |order| ==> level <= |path[order[i]]|)
    && (forall s, b :: 0 <= s < |g| && b in g[s] && g[s][b] in order ==> s == 0 || s in order[..h])
  }

  ghost predicate ChildrenQueued(g: seq<map<Byte, int>>, order: seq<nat>, s: nat)
    requires s < |g|
  {
    forall b :: b in g[s] ==> g[s][b] in order
  }

  ghost predicate PoppedDone(g: seq<map<Byte, int>>, order: seq<nat>, h: nat)
    requires |g| > 0 && h <= |order| && forall i :: 0 <= i < |order| ==> order[i] < |g|
  {
    ChildrenQueued(g, order, 0) && forall i :: 0 <= i < h ==> ChildrenQueued(g, order, order[i])
  }

  /** Whatever has not been enqueued lies strictly below some state still in the queue. */
  lemma {:induction false} UnseenBelowQueue(g: seq<map<Byte, int>>, path: seq<Text>, order: seq<nat>, h: nat, t: nat)
      returns (k: nat)
    requires Trie(g, path) && h <= |order| && forall i :: 0 <= i < |order| ==> order[i] < |g|
    requires PoppedDone(g, order, h) && 0 < t < |path| && t !in order
    ensures h <= k < |order| && |path[order[k]]| < |path[t]|
    decreases |path[t]|
  {
    var p, b := ParentStep(g, path, t);
    assert g[p][b] !in order;
    if p in order {
      k :| 0 <= k < |order| && order[k] == p;
    } else {
      assert p != 0;
      k := UnseenBelowQueue(g, path, order, h, p);
    }
  }

  lemma ShallowFinal(path: seq<Text>, words: set<Text>, fail: seq<int>, emit: seq<bool>, order: seq<nat>, level: nat)
    requires Settled(path, words, fail, emit, order) && 0 !in order && |path| > 0 && path[0] == []
    requires forall w :: w in words ==> w != []
    requires forall t :: 0 < t < |path| && |path[t]| <= level ==> t in order
    ensures forall t :: 0 <= t < |path| && |path[t]| <= level ==> Final(path, words, fail, emit, t)
  {
    forall t | 0 <= t < |path| && |path[t]| <= level
      ensures Final(path, words, fail, emit, t)
    {
      if t != 0 {
        var i :| 0 <= i < |order| && order[i] == t;
      }
    }
  }

  lemma LinkTarget(g: seq<map<Byte, int>>, path: seq<Text>, words: set<Text>, c: nat, b: Byte, f: nat, target: int)
    requires Trie(g, path) && 0 < c < |path| && path[c] != [] && b in g[c]
    requires Covers(g, path, path[c][1..], b, f) && (b in g[f] || f == 0)
    requires target == if b in g[f] && g[f][b] != g[c][b] then g[f][b] else 0
    requires forall w :: w in words ==> w != [] && w in path
    ensures Longest(path, path[g[c][b]][1..], target)
    ensures |path[target]| <= |path[c]|
    ensures Ends(words, path[g[c][b]]) <==> path[g[c][b]] in words || Ends(words, path[target])
  {
    var next := g[c][b];
    assert path[next] == path[c] + [b];
    assert path[next][1..] == path[c][1..] + [b];
    ReadStep(g, path, path[c][1..], b, f);
    EmitPropagates(path, words, next, target);
  }

  lemma SettledPush(path: seq<Text>, words: set<Text>, fail0: seq<int>, emit0: seq<bool>,
                    fail: seq<int>, emit: seq<bool>, order: seq<nat>, next: nat)
    requires Settled(path, words, fail0, emit0, order) && next < |path| && next !in order
    requires |fail| == |emit| == |path| && Final(path, words, fail, emit, next)
    requires forall s :: 0 <= s < |path| && s != next ==> fail[s] == fail0[s] && emit[s] == emit0[s]
    ensures Settled(path, words, fail, emit, order + [next])
  {
    var order' := order + [next];
    forall i | 0 <= i < |order'|
      ensures order'[i] < |path| && Final(path, words, fail, emit, order'[i])
    {
      if i < |order| {
        assert Final(path, words, fail0, emit0, order[i]);
      }
    }
  }

  lemma LinkFinal(path: seq<Text>, words: set<Text>, fail: seq<int>, emit: seq<bool>, next: nat, target: nat)
    requires |fail| == |emit| == |path| && 0 < next < |path| && target < |path| && path[next] != []
    requires Final(path, words, fail, emit, target) && (emit[next] <==> path[next] in words)
    requires Longest(path, path[next][1..], target)
    requires Ends(words, path[next]) <==> path[next] in words || Ends(words, path[target])
    ensures Final(path, words, fail[next := target], if emit[target] then emit[next := true] else emit, next)
  {
  }

  lemma LinkSettles(g: seq<map<Byte, int>>, path: seq<Text>, words: set<Text>, fail: seq<int>, emit: seq<bool>,
                    order: seq<nat>, c: nat, b: Byte, f: nat, target: int)
    requires Trie(g, path) && 0 < c < |path| && path[c] != [] && b in g[c] && g[c][b] !in order
    requires Settled(path, words, fail, emit, order) && forall w :: w in words ==> w != [] && w in path
    requires forall t :: 0 <= t < |path| && |path[t]| <= |path[c]| ==> Final(path, words, fail, emit, t)
    requires Covers(g, path, path[c][1..], b, f) && (b in g[f] || f == 0)
    requires target == if b in g[f] && g[f][b] != g[c][b] then g[f][b] else 0
    ensures 0 <= target < |path|
    ensures Settled(path, words, fail[g[c][b] := target],
                    if emit[target] then emit[g[c][b] := true] else emit, order + [g[c][b]])
  {
    var next := g[c][b];
    LinkTarget(g, path, words, c, b, f, target);
    assert Final(path, words, fail, emit, target);
    var fail', emit' := fail[next := target], if emit[target] then emit[next := true] else emit;
    LinkFinal(path, words, fail, emit, next, target);
    SettledPush(path, words, fail, emit, fail', emit', order, next);
  }

  /** Lays one link: `b` leads from the popped state `c` to a state not yet enqueued. */
  method LinkChild(g: seq<map<Byte, int>>, fail0: seq<int>, emit0: seq<bool>, c: nat, b: Byte,
                   ghost path: seq<Text>, ghost words: set<Text>, ghost order: seq<nat>)
      returns (fail: seq<int>, emit: seq<bool>)
    requires Trie(g, path) && 0 < c < |path| && c in order && b in g[c] && g[c][b] !in order && 0 !in order
    requires Settled(path, words, fail0, emit0, order)
    requires forall w :: w in words ==> w != [] && w in path
    requires forall t :: 0 < t < |path| && |path[t]| <= |path[c]| ==> t in order
    ensures Settled(path, words, fail, emit, order + [g[c][b]])
  {
    var next := g[c][b];
    ghost var w := path[c][1..];
    ShallowFinal(path, words, fail0, emit0, order, |path[c]|);
    var f, hops := FollowLinks(g, fail0, fail0[c], b, path, w);
    var target := if b in g[f] && g[f][b] != next then g[f][b] else 0;
    LinkSettles(g, path, words, fail0, emit0, order, c, b, f, target);
    fail := fail0[next := target];
    emit := emit0;
    if emit[fail[next]] {
      emit := emit[next := true];
    }
  }

  lemma QueuePush(g: seq<map<Byte, int>>, path: seq<Text>, order: seq<nat>, h: nat, c: nat, b: Byte)
    requires Trie(g, path) && c < |path| && b in g[c] && g[c][b] !in order
    requires Queue(g, path, order, h, |path[c]|) && (c == 0 || c in order[..h])
    ensures Queue(g, path, order + [g[c][b]], h, |path[c]|)
  {
    var next := g[c][b];
    var order' := order + [next];
    assert order'[..h] == order[..h];
    assert path[next] == path[c] + [b];
    forall s, x | 0 <= s < |g| && x in g[s] && g[s][x] in order'
      ensures s == 0 || s in order'[..h]
    {
      if g[s][x] == next {
        assert path[s] == (path[s] + [x])[..|path[s]|] == (path[c] + [b])[..|path[c]|] == path[c];
      } else {
        assert g[s][x] in order;
      }
    }
  }

  /** The runtime queue is the unpopped part of `order`, each entry with its depth. */
  ghost predicate QueueHolds(queue: seq<BfsNode>, path: seq<Text>, order: seq<nat>, h: nat) {
    && h <= |order| && |queue| == |order| - h
    && forall k :: h <= k < |order| ==>
         order[k] < |path| && queue[k - h] == BfsNode(order[k], |path[order[k]]|)
  }

  lemma SeedFinal(path: seq<Text>, words: set<Text>, fail: seq<int>, emit: seq<bool>, order: seq<nat>, s: nat)
    requires Settled(path, words, fail, emit, order) && 0 < s < |path| && path[0] == [] && |path[s]| == 1
    requires fail[s] == 0 && s !in order && (forall w :: w in words ==> w != [] && w in path)
    requires forall t :: 0 < t < |path| ==> path[t] != []
    ensures Final(path, words, fail, emit, s)
  {
    assert Longest(path, path[s][1..], 0);
    EmitPropagates(path, words, s, 0);
  }

  /** After the child reached by `b` joins the queue, `b` is the only key that leaves the pending set. */
  lemma KeyLeaves(g: seq<map<Byte, int>>, path: seq<Text>, order: seq<nat>, c: nat, b: Byte, keys: set<Byte>)
    requires Trie(g, path) && c < |path| && b in g[c]
    requires forall x :: x in g[c] ==> (x in keys <==> g[c][x] !in order)
    ensures forall x :: x in g[c] ==> (x in keys - {b} <==> g[c][x] !in order + [g[c][b]])
  {
    forall x | x in g[c]
      ensures x in keys - {b} <==> g[c][x] !in order + [g[c][b]]
    {
      assert x == (path[c] + [x])[|path[c]|] && b == (path[c] + [b])[|path[c]|];
    }
  }

  lemma HoldsPush(queue: seq<BfsNode>, path: seq<Text>, order: seq<nat>, h: nat, next: nat, depth: nat)
    requires QueueHolds(queue, path, order, h) && next < |path| && depth == |path[next]|
    ensures QueueHolds(queue + [BfsNode(next, depth)], path, order + [next], h)
  {
  }

  /** The root's children enter the queue first; their link is the root. */
  method SeedQueue(g: seq<map<Byte, int>>, emit: seq<bool>, ghost path: seq<Text>, ghost words: set<Text>)
      returns (fail: seq<int>, queue: seq<BfsNode>, ghost order: seq<nat>)
    requires Planted(g, emit, path, words)
    ensures Settled(path, words, fail, emit, order) && Queue(g, path, order, 0, 0)
    ensures ChildrenQueued(g, order, 0) && QueueHolds(queue, path, order, 0)
  {
    fail := seq(|g|, _ => 0);
    queue, order := [], [];
    var keys := g[0].Keys;
    while keys != {}
      invariant keys <= g[0].Keys
      invariant fail == seq(|g|, _ => 0)
      invariant Settled(path, words, fail, emit, order) && Queue(g, path, order, 0, 0)
      invariant QueueHolds(queue, path, order, 0)
      invariant forall b :: b in g[0] ==> (b in keys <==> g[0][b] !in order)
      decreases keys
    {
      var b :| b in keys;
      var next := g[0][b];
      assert path[next] == [b];
      SeedFinal(path, words, fail, emit, order, next);
      SettledPush(path, words, fail, emit, fail, emit, order, next);
      QueuePush(g, path, order, 0, 0, b);
      KeyLeaves(g, path, order, 0, b, keys);
      HoldsPush(queue, path, order, 0, next, 1);
      queue, order := queue + [BfsNode(next, 1)], order + [next];
      keys := keys - {b};
    }
  }

  lemma HoldsPop(queue: seq<BfsNode>, path: seq<Text>, order: seq<nat>, h: nat)
    requires QueueHolds(queue, path, order, h) && queue != []
    ensures h < |order| && order[h] < |path| && queue[0] == BfsNode(order[h], |path[order[h]]|)
    ensures QueueHolds(queue[1..], path, order, h + 1)
  {
  }

  /** Links one child of the popped state and appends it to the queue. */
  method EnqueueChild(g: seq<map<Byte, int>>, fail0: seq<int>, emit0: seq<bool>, queue0: seq<BfsNode>, node: BfsNode,
      b: Byte, ghost path: seq<Text>, ghost words: set<Text>, ghost order: seq<nat>, ghost h: nat)
      returns (fail: seq<int>, emit: seq<bool>, queue: seq<BfsNode>)
    requires Trie(g, path) && forall w :: w in words ==> w != [] && w in path
    requires Settled(path, words, fail0, emit0, order) && 0 < h <= |order|
    requires node.state == order[h - 1] < |path| && node.depth == |path[node.state]|
    requires Queue(g, path, order, h, node.depth) && QueueHolds(queue0, path, order, h)
    requires b in g[node.state] && g[node.state][b] !in order
    requires forall t :: 0 < t < |path| && |path[t]| <= node.depth ==> t in order
    ensures Settled(path, words, fail, emit, order + [g[node.state][b]])
    ensures Queue(g, path, order + [g[node.state][b]], h, node.depth)
    ensures QueueHolds(queue, path, order + [g[node.state][b]], h)
  {
    var c := node.state;
    assert order[..h][h - 1] == c;
    fail, emit := LinkChild(g, fail0, emit0, c, b, path, words, order);
    QueuePush(g, path, order, h, c, b);
    assert path[g[c][b]] == path[c] + [b];
    HoldsPush(queue0, path, order, h, g[c][b], node.depth + 1);
    queue := queue0 + [BfsNode(g[c][b], node.depth + 1)];
  }

  /** Processes one popped state: links and enqueues each of its children. */
  method Expand(g: seq<map<Byte, int>>, fail0: seq<int>, emit0: seq<bool>, queue0: seq<BfsNode>, node: BfsNode,
                ghost path: seq<Text>, ghost words: set<Text>, ghost order0: seq<nat>, ghost h: nat)
      returns (fail: seq<int>, emit: seq<bool>, queue: seq<BfsNode>, ghost order: seq<nat>)
    requires Trie(g, path) && forall w :: w in words ==> w != [] && w in path
    requires Settled(path, words, fail0, emit0, order0) && 0 < h <= |order0|
    requires node.state == order0[h - 1] < |path| && node.depth == |path[node.state]|
    requires Queue(g, path, order0, h, node.depth) && QueueHolds(queue0, path, order0, h)
    requires forall b :: b in g[node.state] ==> g[node.state][b] !in order0
    requires forall t :: 0 < t < |path| && |path[t]| <= node.depth ==> t in order0
    ensures order0 <= order && Settled(path, words, fail, emit, order)
    ensures Queue(g, path, order, h, node.depth) && QueueHolds(queue, path, order, h)
    ensures ChildrenQueued(g, order, node.state)
  {
    fail, emit, queue, order := fail0, emit0, queue0, order0;
    var row := g[node.state];
    var keys := row.Keys;
    while keys != {}
      invariant keys <= row.Keys && order0 <= order
      invariant Settled(path, words, fail, emit, order) && Queue(g, path, order, h, node.depth)
      invariant QueueHolds(queue, path, order, h)
      invariant forall b :: b in row ==> (b in keys <==> row[b] !in order)
      decreases keys
    {
      var b :| b in keys;
      fail, emit, queue := EnqueueChild(g, fail, emit, queue, node, b, path, words, order, h);
      KeyLeaves(g, path, order, node.state, b, keys);
      order := order + [row[b]];
      keys := keys - {b};
    }
  }

  /** Popping the head of the queue keeps its shape and shows that no state of its depth was missed. */
  lemma QueuePop(g: seq<map<Byte, int>>, path: seq<Text>, order: seq<nat>, h: nat, level: nat)
    requires Trie(g, path) && Queue(g, path, order, h, level) && h < |order| && PoppedDone(g, order, h)
    ensures Queue(g, path, order, h + 1, |path[order[h]]|)
    ensures forall b :: b in g[order[h]] ==> g[order[h]][b] !in order
    ensures forall t :: 0 < t < |path| && |path[t]| <= |path[order[h]]| ==> t in order
  {
    assert forall s :: s in order[..h] ==> s in order[..h + 1];
    forall b | b in g[order[h]]
      ensures g[order[h]][b] !in order
    {
      assert order[h] !in order[..h];
    }
    forall t | 0 < t < |path| && |path[t]| <= |path[order[h]]|
      ensures t in order
    {
      if t !in order {
        var k := UnseenBelowQueue(g, path, order, h, t);
      }
    }
  }

  lemma PoppedGrows(g: seq<map<Byte, int>>, was: seq<nat>, order: seq<nat>, h: nat)
    requires |g| > 0 && h < |was| && was <= order && forall i :: 0 <= i < |order| ==> order[i] < |g|
    requires PoppedDone(g, was, h) && ChildrenQueued(g, order, was[h])
    ensures PoppedDone(g, order, h + 1)
  {
    forall i | 0 <= i < h + 1
      ensures ChildrenQueued(g, order, order[i])
    {
      assert order[i] == was[i];
      assert i < h ==> ChildrenQueued(g, was, was[i]);
    }
  }

  lemma AllFinal(path: seq<Text>, words: set<Text>, fail: seq<int>, emit: seq<bool>, order: seq<nat>)
    requires Settled(path, words, fail, emit, order) && 0 !in order && |path| > 0 && path[0] == []
    requires forall w :: w in words ==> w != []
    requires forall t :: 0 < t < |path| ==> t in order
    ensures forall t :: 0 <= t < |path| ==> Final(path, words, fail, emit, t)
  {
    forall t | 0 <= t < |path|
      ensures Final(path, words, fail, emit, t)
    {
      ShallowFinal(path, words, fail, emit, order, |path[t]|);
    }
  }

  /** An empty queue leaves no state behind. */
  lemma AllSeen(g: seq<map<Byte, int>>, path: seq<Text>, words: set<Text>, fail: seq<int>, emit: seq<bool>,
      order: seq<nat>)
    requires Trie(g, path) && Settled(path, words, fail, emit, order) && 0 !in order
    requires PoppedDone(g, order, |order|) && forall w :: w in words ==> w != [] && w in path
    ensures forall s :: 0 < s < |path| ==> s in order
    ensures Correct(Automaton(g, fail, emit), path, words)
  {
    forall s | 0 < s < |path|
      ensures s in order
    {
      if s !in order {
        var k := UnseenBelowQueue(g, path, order, |order|, s);
      }
    }
    AllFinal(path, words, fail, emit, order);
    forall s | 0 < s < |path|
      ensures Linked(path, fail, s)
    {
      assert Final(path, words, fail, emit, s);
    }
    forall s | 0 <= s < |path|
      ensures emit[s] <==> Ends(words, path[s])
    {
      assert Final(path, words, fail, emit, s);
    }
  }

  /** The breadth-first pass; `order` witnesses that it handles every non-root state exactly once. */
  method LayLinks(g: seq<map<Byte, int>>, emit0: seq<bool>, ghost path: seq<Text>, ghost words: set<Text>)
      returns (fail: seq<int>, emit: seq<bool>, ghost order: seq<nat>)
    requires Planted(g, emit0, path, words)
    ensures Correct(Automaton(g, fail, emit), path, words)
    ensures forall s :: 0 < s < |path| <==> s in order
    ensures forall i, j :: 0 <= i < j < |order| ==> order[i] != order[j]
    ensures forall i, j :: 0 <= i < j < |order| ==>
            order[i] < |path| && order[j] < |path| && |path[order[i]]| <= |path[order[j]]|
  {
    emit := emit0;
    var queue;
    fail, queue, order := SeedQueue(g, emit, path, words);
    ghost var h: nat, level: nat := 0, 0;
    while |queue| > 0
      invariant Settled(path, words, fail, emit, order) && Queue(g, path, order, h, level)
      invariant PoppedDone(g, order, h) && QueueHolds(queue, path, order, h)
      decreases |path| - h
    {
      var node := queue[0];
      HoldsPop(queue, path, order, h);
      queue := queue[1..];
      QueuePop(g, path, order, h, level);
      DistinctBelow(order, |path|);
      level := node.depth;
      ghost var was := order;
      fail, emit, queue, order := Expand(g, fail, emit, queue, node, path, words, order, h + 1);
      PoppedGrows(g, was, order, h);
      h := h + 1;
    }
    AllSeen(g, path, words, fail, emit, order);
  }
}
