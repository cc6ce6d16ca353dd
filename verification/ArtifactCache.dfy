/**
 The guard's compiled-artifact caches: a read under the shared lock, a build outside any lock, and
 a store under the exclusive lock that yields to an artifact stored meanwhile. Any number of
 lookups race; each locked section is one atomic step.
 */
module ArtifactCache {
  import Strings

  /** How a finished build treats the cache: keep what is there, replace it, or leave the cache alone. */
  datatype Store = KeepFirst | Replace | Discard

  datatype Built<A> = Built(artifact: A, store: Store)

  /** A cache is its key function, its builder, and whether a blank key bypasses it. */
  datatype Cache<!S, A> = Cache(key: S -> string, build: S -> Built<A>, blankBypasses: bool)

  datatype Pc<S, A> = Wanting(source: S) | Missed(source: S) | Done(source: S, artifact: A)

  datatype State<S, A> = State(entries: map<string, A>, pcs: seq<Pc<S, A>>)

  datatype Event = Read(t: nat) | Commit(t: nat)

  predicate Cached<S, A>(c: Cache<S, A>, s: S) {
    !(c.blankBypasses && c.key(s) == "")
  }

  predicate Enabled<S, A>(s: State<S, A>, e: Event) {
    e.t < |s.pcs| && (match e case Read(t) => s.pcs[t].Wanting? case Commit(t) => s.pcs[t].Missed?)
  }

  function Step<S, A>(c: Cache<S, A>, s: State<S, A>, e: Event): State<S, A>
    requires Enabled(s, e)
  {
    var src := s.pcs[e.t].source;
    var key := c.key(src);
    match e
    case Read(t) =>
      if Cached(c, src) && key in s.entries then s.(pcs := s.pcs[t := Done(src, s.entries[key])])
      else s.(pcs := s.pcs[t := Missed(src)])
    case Commit(t) =>
      var b := c.build(src);
      if !Cached(c, src) || b.store == Discard then s.(pcs := s.pcs[t := Done(src, b.artifact)])
      else if b.store == KeepFirst && key in s.entries then s.(pcs := s.pcs[t := Done(src, s.entries[key])])
      else State(s.entries[key := b.artifact], s.pcs[t := Done(src, b.artifact)])
  }

  predicate CanRun<S, A>(c: Cache<S, A>, s: State<S, A>, es: seq<Event>)
    decreases |es|
  {
    es == [] || (Enabled(s, es[0]) && CanRun(c, Step(c, s, es[0]), es[1..]))
  }

  function Run<S, A>(c: Cache<S, A>, s: State<S, A>, es: seq<Event>): State<S, A>
    requires CanRun(c, s, es)
    decreases |es|
  {
    if es == [] then s else Run(c, Step(c, s, es[0]), es[1..])
  }

  /** Lookups for sources of `pop`, over an empty cache. */
  ghost predicate Initial<S, A>(s: State<S, A>, pop: iset<S>) {
    s.entries == map[] && forall t :: 0 <= t < |s.pcs| ==> s.pcs[t].Wanting? && s.pcs[t].source in pop
  }

  /** A source whose build can end up in the cache shares its key only with sources that build the same. */
  ghost predicate KeyTells<S(!new), A>(c: Cache<S, A>, pop: iset<S>) {
    forall s, s' :: s in pop && s' in pop && Cached(c, s) && c.key(s) == c.key(s') && c.build(s).store != Discard ==>
      c.build(s).artifact == c.build(s').artifact
  }

  // ---------------------------------------------------------------- transparency

  ghost predicate FromBuild<S(!new), A>(c: Cache<S, A>, pop: iset<S>, key: string, a: A) {
    exists s :: s in pop && Cached(c, s) && c.key(s) == key && c.build(s) == Built(a, c.build(s).store)
        && c.build(s).store != Discard
  }

  ghost predicate Coherent<S(!new), A>(c: Cache<S, A>, pop: iset<S>, s: State<S, A>) {
    && (forall key :: key in s.entries ==> FromBuild(c, pop, key, s.entries[key]))
    && (forall t :: 0 <= t < |s.pcs| ==> s.pcs[t].source in pop)
    && (forall t :: 0 <= t < |s.pcs| && s.pcs[t].Done? ==> s.pcs[t].artifact == c.build(s.pcs[t].source).artifact)
  }

  lemma {:induction false} CoherentRun<S(!new), A>(c: Cache<S, A>, pop: iset<S>, s: State<S, A>, es: seq<Event>)
    requires Coherent(c, pop, s) && KeyTells(c, pop) && CanRun(c, s, es)
    ensures Coherent(c, pop, Run(c, s, es))
    decreases |es|
  {
    if es != [] {
      CoherentRun(c, pop, Step(c, s, es[0]), es[1..]);
    }
  }

  /** Every finished lookup, in every run, carries the artifact a fresh build would give. */
  ghost predicate AlwaysFresh<S(!new), A(!new)>(c: Cache<S, A>, pop: iset<S>) {
    forall s: State<S, A>, es: seq<Event>, t: nat ::
      Initial(s, pop) && CanRun(c, s, es) ==>
        (t < |Run(c, s, es).pcs| && Run(c, s, es).pcs[t].Done? ==>
           Run(c, s, es).pcs[t].artifact == c.build(Run(c, s, es).pcs[t].source).artifact)
  }

  lemma RunsTo<S(!new), A>(c: Cache<S, A>, s: State<S, A>, e: Event, next: State<S, A>, rest: seq<Event>,
      last: State<S, A>)
      returns (es: seq<Event>)
    requires Enabled(s, e) && Step(c, s, e) == next && CanRun(c, next, rest) && Run(c, next, rest) == last
    ensures CanRun(c, s, es) && Run(c, s, es) == last
  {
    es := [e] + rest;
    assert es[1..] == rest;
  }

  /** Two sources behind one key that build differently: the second lookup gets the first one's artifact. */
  lemma CollisionLeaks<S(!new), A(!new)>(c: Cache<S, A>, pop: iset<S>, x: S, y: S)
    requires x in pop && y in pop && Cached(c, x) && c.key(x) == c.key(y)
    requires c.build(x).store != Discard && c.build(x).artifact != c.build(y).artifact
    ensures !AlwaysFresh(c, pop)
  {
    var a := c.build(x).artifact;
    var s0 := State(map[], [Wanting(x), Wanting(y)]);
    var s1 := State(map[], [Missed(x), Wanting(y)]);
    var s2 := State(map[c.key(x) := a], [Done(x, a), Wanting(y)]);
    var s3 := State(map[c.key(x) := a], [Done(x, a), Done(y, a)]);
    var es := RunsTo(c, s2, Read(1), s3, [], s3);
    es := RunsTo(c, s1, Commit(0), s2, es, s3);
    es := RunsTo(c, s0, Read(0), s1, es, s3);
    assert Initial(s0, pop);
    assert Run(c, s0, es).pcs[1].artifact != c.build(y).artifact;
  }

  /** The cache is invisible, racing misses included, exactly when its key tells its builds apart. */
  lemma TransparentExactly<S(!new), A(!new)>(c: Cache<S, A>, pop: iset<S>)
    ensures AlwaysFresh(c, pop) <==> KeyTells(c, pop)
  {
    if KeyTells(c, pop) {
      forall s: State<S, A>, es: seq<Event>, t: nat |
        Initial(s, pop) && CanRun(c, s, es) && t < |Run(c, s, es).pcs| && Run(c, s, es).pcs[t].Done?
        ensures Run(c, s, es).pcs[t].artifact == c.build(Run(c, s, es).pcs[t].source).artifact
      {
        CoherentRun(c, pop, s, es);
      }
    } else {
      var x, y :| x in pop && y in pop && Cached(c, x) && c.key(x) == c.key(y) && c.build(x).store != Discard &&
                  c.build(x).artifact != c.build(y).artifact;
      CollisionLeaks(c, pop, x, y);
    }
  }

  /** A build that replaces is answered with itself and stored, whatever was stored meanwhile. */
  lemma ReplacingBuildStays<S, A>(c: Cache<S, A>, s: State<S, A>, t: nat)
    requires Enabled(s, Commit(t)) && Cached(c, s.pcs[t].source) && c.build(s.pcs[t].source).store == Replace
    ensures var n, x := Step(c, s, Commit(t)), s.pcs[t].source;
            n.pcs[t] == Done(x, c.build(x).artifact) && c.key(x) in n.entries
                && n.entries[c.key(x)] == c.build(x).artifact
  {
  }

  // ---------------------------------------------------------------- the first build wins

  /** Each of these lookups goes through the cache, and its build yields to an artifact stored meanwhile. */
  ghost predicate Yields<S, A>(c: Cache<S, A>, s: State<S, A>) {
    forall t :: 0 <= t < |s.pcs| ==> Cached(c, s.pcs[t].source) && c.build(s.pcs[t].source).store == KeepFirst
  }

  /** Finished lookups hold what is stored under their key. */
  ghost predicate Shared<S, A>(c: Cache<S, A>, s: State<S, A>) {
    forall t :: 0 <= t < |s.pcs| && s.pcs[t].Done? ==>
      c.key(s.pcs[t].source) in s.entries && s.pcs[t].artifact == s.entries[c.key(s.pcs[t].source)]
  }

  ghost predicate KeepsEntries<S, A>(s: State<S, A>, n: State<S, A>) {
    forall key :: key in s.entries ==> key in n.entries && n.entries[key] == s.entries[key]
  }

  lemma {:induction false} SharedRun<S, A>(c: Cache<S, A>, s: State<S, A>, es: seq<Event>)
    requires Yields(c, s) && Shared(c, s) && CanRun(c, s, es)
    ensures Shared(c, Run(c, s, es)) && KeepsEntries(s, Run(c, s, es))
    decreases |es|
  {
    if es != [] {
      SharedRun(c, Step(c, s, es[0]), es[1..]);
    }
  }

  /** However lookups race, those under one key all return one artifact, whatever they would have built themselves. */
  lemma FirstBuildWins<S, A>(c: Cache<S, A>, pop: iset<S>, s: State<S, A>, es: seq<Event>, t: nat, u: nat)
    requires Initial(s, pop) && Yields(c, s) && CanRun(c, s, es)
    requires var n := Run(c, s, es);
             && t < |n.pcs| && u < |n.pcs| && n.pcs[t].Done? && n.pcs[u].Done?
             && c.key(n.pcs[t].source) == c.key(n.pcs[u].source)
    ensures Run(c, s, es).pcs[t].artifact == Run(c, s, es).pcs[u].artifact
  {
    SharedRun(c, s, es);
  }

  // ---------------------------------------------------------------- the guard's keys

  /** A policy as the caches see it; identifiers are trimmed. */
  datatype Policy<D> = Policy(version: string, id: string, scope: string, definition: D)

  function EffectiveVersion<D>(p: Policy<D>): string {
    if p.version != "" then p.version
    else if p.id == "builtin-runtime-default" then "builtin-runtime-default-v1"
    else ""
  }

  function PolicyKey<D>(p: Policy<D>, stage: string): string {
    if EffectiveVersion(p) == "" then "" else EffectiveVersion(p) + ":" + stage
  }

  /** The automaton and union caches key on the policy's own scope, not on the stage the checks are drawn for. */
  function AutomatonKey<D>(p: Policy<D>): string {
    PolicyKey(p, p.scope) + ":ac"
  }

  datatype Lookup<D> = Lookup(policy: Policy<D>, stage: string)

  function AutomatonCache<D, A>(build: Lookup<D> -> Built<A>): Cache<Lookup<D>, A> {
    Cache((l: Lookup<D>) => AutomatonKey(l.policy), build, false)
  }

  function DefinitionCache<D, A>(compile: (D, string) -> A): Cache<Lookup<D>, A> {
    Cache((l: Lookup<D>) => PolicyKey(l.policy, l.stage),
          (l: Lookup<D>) => Built(compile(l.policy.definition, l.stage), KeepFirst), true)
  }

  /**
   A key names the version and the stage; only the built-in policy has a version by default, others without one share
   a key.
   */
  lemma KeysAre<D>(p: Policy<D>, stage: string)
    ensures p.version != "" ==> PolicyKey(p, stage) == p.version + ":" + stage
    ensures p.version == "" && p.id == "builtin-runtime-default" ==>
            PolicyKey(p, stage) == "builtin-runtime-default-v1" + ":" + stage
    ensures p.version == "" && p.id != "builtin-runtime-default" ==> PolicyKey(p, stage) == ""
    ensures AutomatonKey(p) == PolicyKey(p, p.scope) + ":ac"
  {
  }

  /**
   One policy version evaluated at two stages: the automaton cache is sound exactly if both stages yield the same
   automaton.
   */
  lemma StagesMustAgree<D(!new), A(!new)>(build: Lookup<D> -> Built<A>, p: Policy<D>, a: string, b: string)
    requires build(Lookup(p, a)).store != Discard
    ensures AlwaysFresh(AutomatonCache(build), iset{Lookup(p, a), Lookup(p, b)}) <==>
            build(Lookup(p, a)).artifact == build(Lookup(p, b)).artifact
  {
    var c := AutomatonCache(build);
    var pop := iset{Lookup(p, a), Lookup(p, b)};
    TransparentExactly(c, pop);
    assert Lookup(p, a) in pop && Lookup(p, b) in pop && Cached(c, Lookup(p, a));
  }

  /** A version identifier names one definition, and normalised stage names hold no colon. */
  ghost predicate VersionsName<D(!new)>(pop: iset<Lookup<D>>) {
    && (forall l :: l in pop ==> ':' !in l.stage)
    && (forall l, m :: l in pop && m in pop && EffectiveVersion(l.policy) == EffectiveVersion(m.policy) != "" ==>
          l.policy.definition == m.policy.definition)
  }

  /** The definition cache keys on version and stage and lets blank versions through, so it is invisible. */
  lemma DefinitionCacheTransparent<D(!new), A(!new)>(compile: (D, string) -> A, pop: iset<Lookup<D>>)
    requires VersionsName(pop)
    ensures AlwaysFresh(DefinitionCache(compile), pop)
  {
    var c := DefinitionCache(compile);
    forall l, m | l in pop && m in pop && Cached(c, l) && c.key(l) == c.key(m)
      ensures c.build(l).artifact == c.build(m).artifact
    {
      Strings.KeySplits(EffectiveVersion(l.policy), l.stage, EffectiveVersion(m.policy), m.stage);
    }
    TransparentExactly(c, pop);
  }
}
