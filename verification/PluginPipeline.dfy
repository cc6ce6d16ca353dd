/**
 The plugin pipeline: pre-hooks run in order, post-hooks in reverse, and each loop decides plugin by
 plugin from the workspace stamped on the request so far.
 */
module PluginPipeline {

  /** A registered plugin; `uid` tells two entries apart, a blank workspace makes it global. */
  datatype Plugin = Plugin(uid: nat, name: string, workspace: string)

  /**
   What pre-hook `i` does under a workspace: the workspace afterwards, whether it short-circuits, and whether that
   short-circuit is empty, with neither a response nor an error.
   */
  datatype Hooks = Hooks(stamp: (nat, string) -> string, short: (nat, string) -> bool, empty: (nat, string) -> bool)

  /** Some other entry of the same name is tagged with the workspace. */
  predicate Shadowed(p: Plugin, all: seq<Plugin>, ws: string) {
    exists k :: 0 <= k < |all| && all[k].uid != p.uid && all[k].name == p.name && all[k].workspace == ws
  }

  predicate ShouldRun(p: Plugin, all: seq<Plugin>, ws: string) {
    if p.workspace == "" then ws == "" || !Shadowed(p, all, ws) else p.workspace == ws
  }

  /** The dispatch test as the loop the gateway runs. */
  method ShouldRunPlugin(p: Plugin, all: seq<Plugin>, ws: string) returns (run: bool)
    ensures run <==> ShouldRun(p, all, ws)
  {
    if p.workspace != "" {
      return p.workspace == ws;
    }
    if ws == "" {
      return true;
    }
    for k := 0 to |all|
      invariant forall j :: 0 <= j < k ==> !(all[j].uid != p.uid && all[j].name == p.name && all[j].workspace == ws)
    {
      if all[k].uid == p.uid {
        continue;
      }
      if all[k].name != p.name {
        continue;
      }
      if all[k].workspace == ws {
        return false;
      }
    }
    return true;
  }

  /** `answered` tells a short-circuit with an answer from an empty one. */
  datatype PreResult = PreResult(ran: seq<nat>, ws: string, short: bool, answered: bool, count: nat)

  /** A result with pre-hooks that ran before it. */
  function Onto(ran: seq<nat>, o: PreResult): PreResult {
    o.(ran := ran + o.ran)
  }

  lemma OntoNext(ran: seq<nat>, i: nat, o: PreResult)
    ensures Onto(ran, Onto([i], o)) == Onto(ran + [i], o)
  {
    assert ran + ([i] + o.ran) == (ran + [i]) + o.ran;
  }

  function Pre(ps: seq<Plugin>, h: Hooks, i: nat, ws: string, count: nat): PreResult
    decreases |ps| - i
  {
    if i >= |ps| then PreResult([], ws, false, false, count)
    else if !ShouldRun(ps[i], ps, ws) then Pre(ps, h, i + 1, ws, count)
    else if h.short(i, ws) then PreResult([i], h.stamp(i, ws), true, !h.empty(i, ws), i + 1)
    else Onto([i], Pre(ps, h, i + 1, h.stamp(i, ws), i + 1))
  }

  /** The pre-hook loop; `ran` lists the plugins whose hook was called. */
  method RunPreHooks(ps: seq<Plugin>, h: Hooks, ws0: string)
      returns (ran: seq<nat>, ws: string, short: bool, answered: bool, count: nat)
    ensures PreResult(ran, ws, short, answered, count) == Pre(ps, h, 0, ws0, 0)
  {
    ran, ws, short, answered, count := [], ws0, false, false, 0;
    for i := 0 to |ps|
      invariant !short && !answered
      invariant Pre(ps, h, 0, ws0, 0) == Onto(ran, Pre(ps, h, i, ws, count))
    {
      var run := ShouldRunPlugin(ps[i], ps, ws);
      if !run {
        continue;
      }
      var stop, empty := h.short(i, ws), h.empty(i, ws);
      ghost var rest := Pre(ps, h, i + 1, h.stamp(i, ws), i + 1);
      OntoNext(ran, i, rest);
      ws := h.stamp(i, ws);
      ran := ran + [i];
      count := i + 1;
      if stop {
        short, answered := true, !empty;
        return;
      }
    }
    assert ran + [] == ran;
  }

  function Post(ps: seq<Plugin>, ws: string, i: nat): seq<nat>
    requires i <= |ps|
  {
    if i == 0 then []
    else if ShouldRun(ps[i - 1], ps, ws) then [i - 1] + Post(ps, ws, i - 1)
    else Post(ps, ws, i - 1)
  }

  function Clamp(runFrom: int, n: nat): nat {
    if runFrom < 0 then 0 else if runFrom > n then n else runFrom
  }

  /** The post-hook loop, from `runFrom - 1` down to the first plugin. */
  method RunPostHooks(ps: seq<Plugin>, ws: string, runFrom: int) returns (ran: seq<nat>)
    ensures ran == Post(ps, ws, Clamp(runFrom, |ps|))
  {
    ran := [];
    var i := Clamp(runFrom, |ps|) - 1;
    while i >= 0
      invariant -1 <= i < |ps| && ran + Post(ps, ws, i + 1) == Post(ps, ws, Clamp(runFrom, |ps|))
    {
      var run := ShouldRunPlugin(ps[i], ps, ws);
      if run {
        assert ran + ([i] + Post(ps, ws, i)) == ran + [i] + Post(ps, ws, i);
        ran := ran + [i];
      }
      i := i - 1;
    }
    assert ran + [] == ran;
  }

  function Reverse(s: seq<nat>): seq<nat> {
    if s == [] then [] else Reverse(s[1..]) + [s[0]]
  }

  /** How many plugins the post loop covers: up to the short-circuit that answered, or the list as it is by then. */
  function RunFrom(o: PreResult, pluginCount: nat, n: nat): nat {
    if o.answered then Clamp(o.count, n) else Clamp(pluginCount, n)
  }

  // ---------------------------------------------------------------- ascending and descending lists of indices

  ghost predicate Rising(s: seq<nat>) {
    forall i, j :: 0 <= i < j < |s| ==> s[i] < s[j]
  }

  ghost predicate Falling(s: seq<nat>) {
    forall i, j :: 0 <= i < j < |s| ==> s[i] > s[j]
  }

  lemma RisingCons(x: nat, s: seq<nat>)
    requires Rising(s) && forall y :: y in s ==> x < y
    ensures Rising([x] + s)
  {
    assert forall i :: 0 <= i < |s| ==> s[i] in s;
  }

  lemma FallingCons(x: nat, s: seq<nat>)
    requires Falling(s) && forall y :: y in s ==> x > y
    ensures Falling([x] + s)
  {
    assert forall i :: 0 <= i < |s| ==> s[i] in s;
  }

  lemma FallingSnoc(s: seq<nat>, x: nat)
    requires Falling(s) && forall y :: y in s ==> y > x
    ensures Falling(s + [x])
  {
    assert forall i :: 0 <= i < |s| ==> s[i] in s;
  }

  lemma {:induction false} ReverseFalls(s: seq<nat>)
    requires Rising(s)
    ensures |Reverse(s)| == |s| && Falling(Reverse(s)) && forall x :: x in Reverse(s) <==> x in s
  {
    if s != [] {
      ReverseFalls(s[1..]);
      assert s == [s[0]] + s[1..];
      assert forall x :: x in s[1..] ==> x > s[0];
      FallingSnoc(Reverse(s[1..]), s[0]);
    }
  }

  lemma HeadIn(s: seq<nat>)
    ensures s != [] ==> s[0] in s
  {
  }

  /** Two falling lists with the same members are the same list. */
  lemma {:induction false} FallingUnique(a: seq<nat>, b: seq<nat>)
    requires Falling(a) && Falling(b) && forall x :: x in a <==> x in b
    ensures a == b
  {
    HeadIn(a);
    HeadIn(b);
    if a != [] {
      assert a[0] in b;
      var j :| 0 <= j < |b| && b[j] == a[0];
      assert b[0] in a;
      var i :| 0 <= i < |a| && a[i] == b[0];
      assert a[0] == b[0];
      assert a == [a[0]] + a[1..] && b == [b[0]] + b[1..];
      forall x
        ensures x in a[1..] <==> x in b[1..]
      {
        if x in a[1..] {
          assert x in a && x != a[0];
        }
        if x in b[1..] {
          assert x in b && x != b[0];
        }
      }
      FallingUnique(a[1..], b[1..]);
    }
  }

  lemma {:induction false} PostHas(ps: seq<Plugin>, ws: string, i: nat, k: nat)
    requires i <= |ps|
    ensures k in Post(ps, ws, i) <==> k < i && ShouldRun(ps[k], ps, ws)
  {
    if i > 0 {
      PostHas(ps, ws, i - 1, k);
      if k != i - 1 {
        assert k !in [i - 1];
      }
    }
  }

  lemma {:induction false} PostFalls(ps: seq<Plugin>, ws: string, i: nat)
    requires i <= |ps|
    ensures Falling(Post(ps, ws, i))
  {
    if i > 0 {
      var rest := Post(ps, ws, i - 1);
      PostFalls(ps, ws, i - 1);
      if ShouldRun(ps[i - 1], ps, ws) {
        forall y | y in rest
          ensures i - 1 > y
        {
          PostHas(ps, ws, i - 1, y);
        }
        FallingCons(i - 1, rest);
        assert Post(ps, ws, i) == [i - 1] + rest;
      } else {
        assert Post(ps, ws, i) == rest;
      }
    }
  }

  lemma PostIs(ps: seq<Plugin>, ws: string, i: nat)
    requires i <= |ps|
    ensures Falling(Post(ps, ws, i))
    ensures forall k: nat :: k in Post(ps, ws, i) <==> k < i && ShouldRun(ps[k], ps, ws)
  {
    PostFalls(ps, ws, i);
    forall k: nat
      ensures k in Post(ps, ws, i) <==> k < i && ShouldRun(ps[k], ps, ws)
    {
      PostHas(ps, ws, i, k);
    }
  }

  lemma {:induction false} PreIs(ps: seq<Plugin>, h: Hooks, i: nat, ws: string, count: nat)
    ensures var o := Pre(ps, h, i, ws, count);
            && Rising(o.ran) && (forall k :: k in o.ran ==> i <= k < |ps|) && (o.answered ==> o.short)
            && (o.short ==> i < o.count <= |ps| && forall k :: k in o.ran ==> k < o.count)
    decreases |ps| - i
  {
    if i < |ps| {
      if !ShouldRun(ps[i], ps, ws) {
        PreIs(ps, h, i + 1, ws, count);
      } else if !h.short(i, ws) {
        PreIs(ps, h, i + 1, h.stamp(i, ws), i + 1);
        RisingCons(i, Pre(ps, h, i + 1, h.stamp(i, ws), i + 1).ran);
      }
    }
  }

  // ---------------------------------------------------------------- the post-hooks mirror the pre-hooks

  /** The plugins the post loop picks are those whose pre-hook ran. */
  ghost predicate SameChoice(ps: seq<Plugin>, o: PreResult, runFrom: nat)
    requires runFrom <= |ps|
  {
    forall k :: 0 <= k < |ps| ==> (k in o.ran <==> k < runFrom && ShouldRun(ps[k], ps, o.ws))
  }

  lemma MirrorExactly(ps: seq<Plugin>, h: Hooks, ws0: string, pluginCount: nat)
    ensures var o := Pre(ps, h, 0, ws0, 0);
            var n := RunFrom(o, pluginCount, |ps|);
            Post(ps, o.ws, n) == Reverse(o.ran) <==> SameChoice(ps, o, n)
  {
    var o := Pre(ps, h, 0, ws0, 0);
    var n := RunFrom(o, pluginCount, |ps|);
    PreIs(ps, h, 0, ws0, 0);
    PostIs(ps, o.ws, n);
    ReverseFalls(o.ran);
    if SameChoice(ps, o, n) {
      FallingUnique(Post(ps, o.ws, n), Reverse(o.ran));
    }
    if Post(ps, o.ws, n) == Reverse(o.ran) {
      forall k | 0 <= k < |ps|
        ensures k in o.ran <==> k < n && ShouldRun(ps[k], ps, o.ws)
      {
        assert k in o.ran <==> k in Reverse(o.ran);
      }
    }
  }

  // ---------------------------------------------------------------- whole requests

  ghost predicate NothingBetween(ps: seq<Plugin>, ws: string, a: nat, b: nat) {
    forall k :: a <= k < b && k < |ps| ==> !ShouldRun(ps[k], ps, ws)
  }

  /** No pre-hook runs exactly when no plugin should run under the workspace the request came with. */
  lemma {:induction false} NothingRan(ps: seq<Plugin>, h: Hooks, i: nat, ws: string, count: nat)
    ensures Pre(ps, h, i, ws, count).ran == [] <==> NothingBetween(ps, ws, i, |ps|)
    decreases |ps| - i
  {
    if i < |ps| {
      if ShouldRun(ps[i], ps, ws) {
        assert !NothingBetween(ps, ws, i, |ps|);
      } else {
        NothingRan(ps, h, i + 1, ws, count);
      }
    }
  }

  /**
   The post-hooks a request runs. `abandoned` says that it is given up between the pre-hooks and the provider's answer:
   no request left, the provider closing, its queue full, a cancellation, or a timeout. Only a request that the plugins
   answered themselves gets its post-hooks then.
   */
  function After(ps: seq<Plugin>, o: PreResult, pluginCount: nat, abandoned: bool): seq<nat> {
    if abandoned && !o.answered then [] else Post(ps, o.ws, RunFrom(o, pluginCount, |ps|))
  }

  lemma AbandonedExactly(ps: seq<Plugin>, h: Hooks, ws0: string, pluginCount: nat)
    requires !Pre(ps, h, 0, ws0, 0).answered
    ensures var o := Pre(ps, h, 0, ws0, 0);
            After(ps, o, pluginCount, true) == Reverse(o.ran) <==> NothingBetween(ps, ws0, 0, |ps|)
  {
    PreIs(ps, h, 0, ws0, 0);
    ReverseFalls(Pre(ps, h, 0, ws0, 0).ran);
    NothingRan(ps, h, 0, ws0, 0);
  }

  /**
   One request: the pre-hooks, and the post-hooks unless it is abandoned in between. `pluginCount` is the length of the
   plugin list when the provider's answer arrives.
   */
  method TryRequest(ps: seq<Plugin>, h: Hooks, ws0: string, pluginCount: nat, abandoned: bool)
      returns (before: seq<nat>, after: seq<nat>)
    ensures before == Pre(ps, h, 0, ws0, 0).ran
    ensures after == After(ps, Pre(ps, h, 0, ws0, 0), pluginCount, abandoned)
    ensures after == Reverse(before) <==>
            var o := Pre(ps, h, 0, ws0, 0);
            if abandoned && !o.answered then NothingBetween(ps, ws0, 0, |ps|)
            else SameChoice(ps, o, RunFrom(o, pluginCount, |ps|))
  {
    var ws, short, answered, count;
    before, ws, short, answered, count := RunPreHooks(ps, h, ws0);
    PreIs(ps, h, 0, ws0, 0);
    MirrorExactly(ps, h, ws0, pluginCount);
    if short && answered {
      after := RunPostHooks(ps, ws, count);
    } else if abandoned {
      after := [];
      AbandonedExactly(ps, h, ws0, pluginCount);
    } else {
      after := RunPostHooks(ps, ws, pluginCount);
    }
  }

  /** A request that is abandoned after its only plugin's pre-hook never runs the post-hook. */
  lemma AbandonedLosesHooks(pluginCount: nat) returns (ps: seq<Plugin>, h: Hooks)
    ensures (Pre(ps, h, 0, "", 0).ran, After(ps, Pre(ps, h, 0, "", 0), pluginCount, true)) == ([0], [])
  {
    ps := [Plugin(0, "logging", "")];
    h := Hooks((i, ws) => ws, (i, ws) => false, (i, ws) => false);
    assert Pre(ps, h, 1, "", 1).ran == [];
    assert Pre(ps, h, 0, "", 0).ran == [0];
  }

  // ---------------------------------------------------------------- stamped and stable workspaces

  /** How far the pre-hooks got. */
  function Reached(o: PreResult, n: nat): nat {
    if o.short then o.count else n
  }

  /** Plugin `g` stamps `w` on the workspace `ws`, the others before it leave `ws` alone, and nobody changes `w`. */
  ghost predicate StampsOnce(h: Hooks, g: nat, ws: string, w: string) {
    forall i :: h.stamp(i, ws) == (if i == g then w else ws) && h.stamp(i, w) == w
  }

  /** Under a workspace nobody changes, those whose pre-hook ran are the plugins that should, as far as the loop got. */
  lemma {:induction false} NeverStamped(ps: seq<Plugin>, h: Hooks, i: nat, ws: string, count: nat)
    requires forall k :: h.stamp(k, ws) == ws
    ensures var o := Pre(ps, h, i, ws, count);
            && o.ws == ws
            && forall k :: i <= k < |ps| && (o.short ==> k < o.count) ==> (k in o.ran <==> ShouldRun(ps[k], ps, ws))
    decreases |ps| - i
  {
    if i < |ps| {
      if !ShouldRun(ps[i], ps, ws) {
        NeverStamped(ps, h, i + 1, ws, count);
        PreIs(ps, h, i + 1, ws, count);
      } else if !h.short(i, ws) {
        NeverStamped(ps, h, i + 1, ws, i + 1);
        PreIs(ps, h, i + 1, ws, i + 1);
      }
    }
  }

  /**
   A workspace that never changes: the mirror holds exactly when nothing should run between the last plugin the
   pre-hooks got to and the one the post-hooks start from. The two are the same when the plugins answered themselves,
   and when none short-circuited and the list is no shorter than before.
   */
  lemma StableMirrorExactly(ps: seq<Plugin>, h: Hooks, ws: string, pluginCount: nat)
    requires forall k :: h.stamp(k, ws) == ws
    ensures var o := Pre(ps, h, 0, ws, 0);
            var reached, n := Reached(o, |ps|), RunFrom(o, pluginCount, |ps|);
            Post(ps, o.ws, n) == Reverse(o.ran) <==>
                NothingBetween(ps, ws, reached, n) && NothingBetween(ps, ws, n, reached)
  {
    var o := Pre(ps, h, 0, ws, 0);
    var reached, n := Reached(o, |ps|), RunFrom(o, pluginCount, |ps|);
    PreIs(ps, h, 0, ws, 0);
    NeverStamped(ps, h, 0, ws, 0);
    MirrorExactly(ps, h, ws, pluginCount);
    assert forall k :: 0 <= k < |ps| ==> (k in o.ran <==> k < reached && ShouldRun(ps[k], ps, ws));
    if SameChoice(ps, o, n) {
      forall k | (reached <= k < n || n <= k < reached) && k < |ps|
        ensures !ShouldRun(ps[k], ps, ws)
      {
        assert k in o.ran <==> k < n && ShouldRun(ps[k], ps, ws);
      }
    }
  }

  /** An empty short-circuit sends the request on to the provider: the plugin behind it runs only its post-hook. */
  lemma EmptyRunsMore() returns (ps: seq<Plugin>, h: Hooks)
    ensures (Pre(ps, h, 0, "", 0).ran, After(ps, Pre(ps, h, 0, "", 0), |ps|, false)) == ([0], [1, 0])
  {
    ps := [Plugin(0, "cache", ""), Plugin(1, "logging", "")];
    h := Hooks((i, ws) => ws, (i, ws) => i == 0, (i, ws) => true);
    assert Post(ps, "", 1) == [0] by {
      assert Post(ps, "", 0) == [];
    }
    assert Post(ps, "", 2) == [1, 0];
  }

  /**
   Up to the stamping plugin, decisions are made under the workspace the request came with, behind it under the
   stamped one.
   */
  lemma {:induction false} BeforeStamp(ps: seq<Plugin>, h: Hooks, g: nat, w: string, i: nat, ws: string, count: nat)
    requires StampsOnce(h, g, ws, w) && i <= g < |ps| && g in Pre(ps, h, i, ws, count).ran
    ensures var o := Pre(ps, h, i, ws, count);
            && o.ws == w && (o.short ==> g < o.count)
            && (forall k :: i <= k <= g ==> (k in o.ran <==> ShouldRun(ps[k], ps, ws)))
            && (forall k :: g < k < |ps| && (o.short ==> k < o.count) ==> (k in o.ran <==> ShouldRun(ps[k], ps, w)))
    decreases |ps| - i
  {
    if !ShouldRun(ps[i], ps, ws) {
      PreIs(ps, h, i + 1, ws, count);
      BeforeStamp(ps, h, g, w, i + 1, ws, count);
    } else if !h.short(i, ws) {
      PreIs(ps, h, i + 1, h.stamp(i, ws), i + 1);
      if i == g {
        NeverStamped(ps, h, i + 1, w, i + 1);
      } else {
        BeforeStamp(ps, h, g, w, i + 1, ws, i + 1);
      }
    }
  }

  /** No plugin up to `g` is tagged with the stamped workspace, and none of the global ones there has such a sibling. */
  ghost predicate Indifferent(ps: seq<Plugin>, g: nat, w: string)
    requires g < |ps|
  {
    forall k :: 0 <= k <= g ==> if ps[k].workspace == "" then !Shadowed(ps[k], ps, w) else ps[k].workspace != w
  }

  lemma IndifferentRuns(ps: seq<Plugin>, g: nat, w: string)
    requires w != "" && g < |ps|
    ensures Indifferent(ps, g, w) <==>
            forall k :: 0 <= k <= g ==> (ShouldRun(ps[k], ps, "") <==> ShouldRun(ps[k], ps, w))
  {
    assert forall k :: 0 <= k <= g ==> (ShouldRun(ps[k], ps, "") <==> ps[k].workspace == "");
  }

  /**
   A request without a workspace, stamped with one by plugin `g`: the post-hooks are the pre-hooks reversed exactly when
   nothing up to `g` depends on the stamped workspace, the post-hooks start behind `g`, and nothing should run between
   where the pre-hooks got to and where the post-hooks start.
   */
  lemma StampedMirrorExactly(ps: seq<Plugin>, h: Hooks, g: nat, w: string, pluginCount: nat)
    requires w != "" && StampsOnce(h, g, "", w) && g < |ps| && g in Pre(ps, h, 0, "", 0).ran
    ensures var o := Pre(ps, h, 0, "", 0);
            var reached, n := Reached(o, |ps|), RunFrom(o, pluginCount, |ps|);
            Post(ps, o.ws, n) == Reverse(o.ran) <==>
            g < n && Indifferent(ps, g, w) && NothingBetween(ps, w, reached, n) && NothingBetween(ps, w, n, reached)
  {
    var o := Pre(ps, h, 0, "", 0);
    var reached, n := Reached(o, |ps|), RunFrom(o, pluginCount, |ps|);
    PreIs(ps, h, 0, "", 0);
    BeforeStamp(ps, h, g, w, 0, "", 0);
    MirrorExactly(ps, h, "", pluginCount);
    IndifferentRuns(ps, g, w);
    assert forall k :: 0 <= k <= g ==> (k in o.ran <==> ShouldRun(ps[k], ps, ""));
    assert forall k :: g < k < |ps| ==> (k in o.ran <==> k < reached && ShouldRun(ps[k], ps, w));
    if SameChoice(ps, o, n) {
      assert g in o.ran <==> g < n && ShouldRun(ps[g], ps, w);
      forall k | (reached <= k < n || n <= k < reached) && k < |ps|
        ensures !ShouldRun(ps[k], ps, w)
      {
        assert k in o.ran <==> k < n && ShouldRun(ps[k], ps, w);
      }
    }
  }

  /**
   A global cache, the stamping plugin, and a cache of the stamped workspace: the global one's post-hook never runs.
   */
  lemma StampBreaksMirror() returns (ps: seq<Plugin>, h: Hooks)
    ensures StampsOnce(h, 1, "", "w") && Pre(ps, h, 0, "", 0).ran == [0, 1, 2]
    ensures Post(ps, "w", |ps|) == [2, 1]
  {
    ps := [Plugin(0, "cache", ""), Plugin(1, "governance", ""), Plugin(2, "cache", "w")];
    h := Hooks((i, ws) => if i == 1 then "w" else ws, (i, ws) => false, (i, ws) => false);
    assert ps[2].uid != ps[0].uid && ps[2].name == ps[0].name && ps[2].workspace == "w";
    assert Shadowed(ps[0], ps, "w") && !ShouldRun(ps[0], ps, "w");
    assert |ps[1].name| != |ps[0].name|;
    assert ShouldRun(ps[1], ps, "w") && ShouldRun(ps[2], ps, "w");
    assert Pre(ps, h, 2, "w", 2).ran == [2] by {
      assert Pre(ps, h, 3, "w", 3).ran == [];
    }
    assert Pre(ps, h, 1, "", 1).ran == [1, 2];
    assert Post(ps, "w", 1) == [] by {
      assert Post(ps, "w", 0) == [];
    }
    assert Post(ps, "w", 2) == [1];
  }

  // ---------------------------------------------------------------- shadowing

  /** Entry `k` of a name runs under a workspace. */
  ghost predicate Served(ps: seq<Plugin>, ws: string, name: string, k: nat) {
    k in Post(ps, ws, |ps|) && k < |ps| && ps[k].name == name
  }

  /**
   What a name gets under a workspace: entries of it run exactly when one is tagged with the workspace or global, and
   those that run are all tagged or all global.
   */
  lemma OneSideServes(ps: seq<Plugin>, ws: string, name: string)
    requires forall a, b :: 0 <= a < b < |ps| ==> ps[a].uid != ps[b].uid
    ensures (exists k: nat :: Served(ps, ws, name, k)) <==>
            (exists k :: 0 <= k < |ps| && ps[k].name == name && (ps[k].workspace == "" || ps[k].workspace == ws))
    ensures forall i: nat, j: nat :: Served(ps, ws, name, i) && Served(ps, ws, name, j) ==>
              ps[i].workspace == ps[j].workspace
  {
    PostIs(ps, ws, |ps|);
    if k :| 0 <= k < |ps| && ps[k].name == name && (ps[k].workspace == "" || ps[k].workspace == ws) {
      if ShouldRun(ps[k], ps, ws) {
        assert Served(ps, ws, name, k);
      } else {
        var j :| 0 <= j < |ps| && ps[j].uid != ps[k].uid && ps[j].name == ps[k].name && ps[j].workspace == ws;
        assert ShouldRun(ps[j], ps, ws);
        assert Served(ps, ws, name, j);
      }
    }
    if k: nat :| Served(ps, ws, name, k) {
      assert ShouldRun(ps[k], ps, ws);
    }
    forall i: nat, j: nat | Served(ps, ws, name, i) && Served(ps, ws, name, j)
      ensures ps[i].workspace == ps[j].workspace
    {
      assert ShouldRun(ps[i], ps, ws) && ShouldRun(ps[j], ps, ws);
    }
  }
}
