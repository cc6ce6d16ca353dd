/**
 The caches the check evaluator and the local evaluator read: what they build, an evaluator that takes its artifacts
 from them, and which of their keys can hand out another policy's artifact.
 */
module GuardCaches {
  import opened Options
  import opened Bytes
  import opened RegexLiterals
  import opened RuntimeChecks
  import AC = AhoCorasick
  import Strings
  import Caches = ArtifactCache

  /** The check lists of a compiled definition, by stage. */
  datatype Definition = Definition(input: seq<Check>, output: seq<Check>)

  type Source = Caches.Lookup<Definition>

  function ChecksOf(x: Source): seq<Check> {
    if x.stage == "output" then x.policy.definition.output else x.policy.definition.input
  }

  lemma ChecksByStage(p: Caches.Policy<Definition>)
    ensures ChecksOf(Caches.Lookup(p, "output")) == p.definition.output
            && ChecksOf(Caches.Lookup(p, "input")) == p.definition.input
  {
  }

  /** A bail-out overwrites the entry; an automaton of no literals is not stored. */
  function BuildAnchors(e: Engine): Source -> Caches.Built<Option<seq<Text>>> {
    (x: Source) =>
      Caches.Built(Anchors(e, ChecksOf(x)),
                   if Literals(e, ChecksOf(x)).None? then Caches.Replace
                   else if Anchors(e, ChecksOf(x)).None? then Caches.Discard
                   else Caches.KeepFirst)
  }

  function BuildUnion(e: Engine): Source -> Caches.Built<Option<seq<Regex>>> {
    (x: Source) =>
      Caches.Built(Union(e, ChecksOf(x)), if Union(e, ChecksOf(x)).None? then Caches.Discard else Caches.KeepFirst)
  }

  function AnchorCache(e: Engine): Caches.Cache<Source, Option<seq<Text>>> {
    Caches.AutomatonCache(BuildAnchors(e))
  }

  function UnionCache(e: Engine): Caches.Cache<Source, Option<seq<Regex>>> {
    Caches.Cache((x: Source) => Caches.PolicyKey(x.policy, x.policy.scope) + ":portkey-union", BuildUnion(e), false)
  }

  ghost predicate ServedBy<A>(c: Caches.Cache<Source, A>, pop: iset<Source>, x: Source, a: A,
      s: Caches.State<Source, A>, es: seq<Caches.Event>, t: nat) {
    && Caches.Initial(s, pop) && Caches.CanRun(c, s, es)
    && t < |Caches.Run(c, s, es).pcs| && Caches.Run(c, s, es).pcs[t] == Caches.Done(x, a)
  }

  /** Some run of racing lookups ends with this artifact for the source. */
  ghost predicate Served<A(!new)>(c: Caches.Cache<Source, A>, pop: iset<Source>, x: Source, a: A) {
    exists s: Caches.State<Source, A>, es: seq<Caches.Event>, t: nat :: ServedBy(c, pop, x, a, s, es, t)
  }

  lemma ServedFresh<A(!new)>(c: Caches.Cache<Source, A>, pop: iset<Source>, x: Source, a: A)
    requires Caches.KeyTells(c, pop) && Served(c, pop, x, a)
    ensures a == c.build(x).artifact
  {
    var s, es, t :| ServedBy(c, pop, x, a, s, es, t);
    Caches.TransparentExactly(c, pop);
  }

  /** The same version under the same scope, whatever the identifier and the definition. */
  predicate SameUse(p: Caches.Policy<Definition>, q: Caches.Policy<Definition>) {
    Caches.EffectiveVersion(p) == Caches.EffectiveVersion(q) && p.scope == q.scope
  }

  /**
   Traffic the check caches are right for: every policy has a version, scope names hold no colon, and a version under
   one scope is always used with the same checks.
   */
  ghost predicate VersionsTell(pop: iset<Source>) {
    && (forall x :: x in pop ==> Caches.EffectiveVersion(x.policy) != "" && ':' !in x.policy.scope)
    && (forall x, y :: x in pop && y in pop && SameUse(x.policy, y.policy) ==> ChecksOf(x) == ChecksOf(y))
  }

  lemma KeysTell(pop: iset<Source>, x: Source, y: Source, suffix: string)
    requires VersionsTell(pop) && x in pop && y in pop
    requires Caches.PolicyKey(x.policy, x.policy.scope) + suffix == Caches.PolicyKey(y.policy, y.policy.scope) + suffix
    ensures ChecksOf(x) == ChecksOf(y)
  {
    Strings.SuffixCancels(Caches.PolicyKey(x.policy, x.policy.scope), Caches.PolicyKey(y.policy, y.policy.scope),
                          suffix);
    Strings.KeySplits(Caches.EffectiveVersion(x.policy), x.policy.scope, Caches.EffectiveVersion(y.policy),
                     y.policy.scope);
  }

  /** For such traffic no key of either cache mixes two builds up. */
  lemma TrafficTold(e: Engine, pop: iset<Source>)
    requires VersionsTell(pop)
    ensures Caches.KeyTells(AnchorCache(e), pop) && Caches.KeyTells(UnionCache(e), pop)
  {
    forall x, y | x in pop && y in pop && AnchorCache(e).key(x) == AnchorCache(e).key(y)
      ensures AnchorCache(e).build(x).artifact == AnchorCache(e).build(y).artifact
    {
      KeysTell(pop, x, y, ":ac");
    }
    forall x, y | x in pop && y in pop && UnionCache(e).key(x) == UnionCache(e).key(y)
      ensures UnionCache(e).build(x).artifact == UnionCache(e).build(y).artifact
    {
      KeysTell(pop, x, y, ":portkey-union");
    }
  }

  /** What one policy of a request brings: the policy, its source, and the artifacts its two lookups returned. */
  datatype Prepared = Prepared(policy: Policy, source: Source, anchors: Option<seq<Text>>, union: Option<seq<Regex>>)

  ghost predicate FromCaches(e: Engine, pop: iset<Source>, q: Prepared) {
    && q.policy.checks == ChecksOf(q.source)
    && (q.policy.checks != [] ==>
        Served(AnchorCache(e), pop, q.source, q.anchors) && Served(UnionCache(e), pop, q.source, q.union))
  }

  function PoliciesOf(qs: seq<Prepared>): seq<Policy> {
    seq(|qs|, i requires 0 <= i < |qs| => qs[i].policy)
  }

  /** Artifacts out of trustworthy caches decide the skip as fresh ones would. */
  lemma ServedSkips(e: Engine, r: Request, pop: iset<Source>, q: Prepared)
    requires Caches.KeyTells(AnchorCache(e), pop) && Caches.KeyTells(UnionCache(e), pop)
    requires FromCaches(e, pop, q) && q.policy.checks != []
    ensures SkippedWith(r, q.anchors, q.union) <==> Skipped(e, r, q.policy)
  {
    ServedFresh(AnchorCache(e), pop, q.source, q.anchors);
    ServedFresh(UnionCache(e), pop, q.source, q.union);
  }

  /**
   The evaluator over cached artifacts returns the report of the evaluator without any, whatever other requests race
   for them.
   */
  method EvaluateFromCaches(e: Engine, r: Request, qs: seq<Prepared>, ghost pop: iset<Source>) returns (rep: Report)
    requires Faithful(e) && Caches.KeyTells(AnchorCache(e), pop) && Caches.KeyTells(UnionCache(e), pop)
    requires forall q :: q in qs ==> FromCaches(e, pop, q) && Fit(e, q.policy)
    ensures rep == Reference(e, r, PoliciesOf(qs))
  {
    var policies := PoliciesOf(qs);
    ghost var skips := p => Skipped(e, r, p);
    var s := Start(r);
    var memo: map<Text, seq<Text>> := map[];
    for i := 0 to |qs|
      invariant MemoSound(e, PickContent(r), memo)
      invariant RunPolicies(e, r, policies[i..], skips, s) == RunPolicies(e, r, policies, skips, Start(r))
    {
      var q := qs[i];
      assert policies[i..][0] == q.policy && policies[i..][1..] == policies[i + 1..];
      if |q.policy.checks| == 0 {
        continue;
      }
      var skip := TestSkip(e, r, q.anchors, q.union);
      ServedSkips(e, r, pop, q);
      s, memo := EvaluatePolicy(e, r, q.policy, skip, s, memo);
    }
    assert policies[|policies|..] == [];
    rep := EvaluateHooks(e, r, s);
    PrefiltersPreserve(e, r, policies, skips);
  }

  // ---------------------------------------------------------------- keys that mix policies up

  const ABC: Text := [97, 98, 99]
  const XYZ: Text := [120, 121, 122]

  function Searching(rule: Text): Check {
    Check("regex_match", "fp", rule, [], Action(Deny, false, false, false, [], []))
  }

  /** Rules are plain literals, matched as the trees say. */
  ghost function Plainly(): Engine {
    Engine(t => Some(Literal(t, false)), parts => true, (re, t) => Matches(re, t),
           (re, t) => if Matches(re, t) then [t] else [],
           (re, t, a) => t, c => Done(NOTHING), c => Done(NOTHING))
  }

  lemma AnchorsOf(rule: Text)
    requires |rule| >= 3
    ensures Anchors(Plainly(), [Searching(rule)]) == Some([Lower(rule)])
    ensures Literals(Plainly(), [Searching(rule)]).Some?
  {
    var checks := [Searching(rule)];
    assert checks[1..] == [] && Scans(checks[0]);
    assert Literals(Plainly(), []) == Some([]);
    assert ExtractAll(Literal(rule, false)) == [Lower(rule)];
    assert [Lower(rule)] + [] == [Lower(rule)];
  }

  /** One policy version used at the input and the output stage: the second can be handed the first one's automaton. */
  lemma StagesCollide() returns (x: Source, y: Source)
    ensures x.policy == y.policy && x.policy.version != "" && x.stage != y.stage
    ensures !Caches.AlwaysFresh(AnchorCache(Plainly()), iset{x, y})
  {
    var p := Caches.Policy("v", "id", "input", Definition([Searching(ABC)], [Searching(XYZ)]));
    x, y := Caches.Lookup(p, "input"), Caches.Lookup(p, "output");
    AnchorsOf(ABC);
    AnchorsOf(XYZ);
    assert Lower(ABC)[0] != Lower(XYZ)[0];
    assert [Lower(ABC)][0] != [Lower(XYZ)][0];
    Caches.StagesMustAgree(BuildAnchors(Plainly()), p, "input", "output");
  }

  /** Two policies without a version share one automaton entry even when their patterns differ. */
  lemma UnversionedCollide() returns (x: Source, y: Source)
    ensures x.policy.version == y.policy.version == "" && x.stage == y.stage
    ensures !Caches.AlwaysFresh(AnchorCache(Plainly()), iset{x, y})
  {
    var p := Caches.Policy("", "a", "input", Definition([Searching(ABC)], []));
    var q := Caches.Policy("", "b", "input", Definition([Searching(XYZ)], []));
    x, y := Caches.Lookup(p, "input"), Caches.Lookup(q, "input");
    AnchorsOf(ABC);
    AnchorsOf(XYZ);
    assert Lower(ABC)[0] != Lower(XYZ)[0];
    assert [Lower(ABC)][0] != [Lower(XYZ)][0];
    var pop := iset{x, y};
    assert x in pop && y in pop;
    Caches.CollisionLeaks(AnchorCache(Plainly()), pop, x, y);
  }

  /** The wrong automaton skips a check that matches. */
  lemma WrongAutomatonSkips(r: Request)
    requires PickContent(r) == XYZ
    ensures SkippedWith(r, Anchors(Plainly(), [Searching(ABC)]), None)
    ensures Matches(Plainly().compile(XYZ).value, PickContent(r))
  {
    AnchorsOf(ABC);
    var words := AC.Words([Lower(ABC)]);
    forall w | w in words
      ensures !Occurs(w, Lower(XYZ))
    {
      assert w == Lower(Lower(ABC));
      forall k: nat
        ensures !OccursAt(w, Lower(XYZ), k)
      {
        assert |w| == 3 && w[0] == 97 && Lower(XYZ)[0] == 120;
      }
    }
    assert XYZ[0..3] == XYZ;
    assert Spans(Literal(XYZ, false), XYZ, 0, 3);
  }

  // ---------------------------------------------------------------- the local evaluator's rule and union caches

  /**
   The rules compiled from a definition, kept under the definition's hash; a definition without one bypasses the
   cache.
   */
  function RuleListCache<D, R>(hash: D -> string, rulesOf: D -> seq<R>): Caches.Cache<D, seq<R>> {
    Caches.Cache(hash, (d: D) => Caches.Built(rulesOf(d), Caches.KeepFirst), true)
  }

  /** It is right exactly when definitions with one hash compile to the same rules. */
  lemma RuleListExactly<D(!new), R(!new)>(hash: D -> string, rulesOf: D -> seq<R>, pop: iset<D>)
    ensures Caches.AlwaysFresh(RuleListCache(hash, rulesOf), pop) <==>
            forall d, d' :: d in pop && d' in pop && hash(d) == hash(d') != "" ==> rulesOf(d) == rulesOf(d')
  {
    var c := RuleListCache(hash, rulesOf);
    Caches.TransparentExactly(c, pop);
    assert forall d :: Caches.Cached(c, d) <==> hash(d) != "";
    assert forall d :: c.build(d) == Caches.Built(rulesOf(d), Caches.KeepFirst);
  }

  /** The built-in definition lists no local rules, whatever the scope. */
  function BuiltInRules<R>(scope: string): seq<R> {
    []
  }

  /** The rules a policy is evaluated with: its definition's, or the built-in ones of its scope. */
  function RulesFor<D, R>(rulesOf: D -> seq<R>, p: Caches.Policy<D>): seq<R> {
    if rulesOf(p.definition) == [] then BuiltInRules(p.scope) else rulesOf(p.definition)
  }

  function BuildRuleUnion<D, R>(rulesOf: D -> seq<R>,
      compiles: seq<R> -> bool): Caches.Policy<D> -> Caches.Built<Option<seq<R>>> {
    (p: Caches.Policy<D>) =>
      var rules := RulesFor(rulesOf, p);
      if rules != [] && compiles(rules) then Caches.Built(Some(rules), Caches.KeepFirst)
      else Caches.Built(None, Caches.Discard)
  }

  function RuleUnionCache<D, A>(hash: D -> string,
      build: Caches.Policy<D> -> Caches.Built<A>): Caches.Cache<Caches.Policy<D>, A> {
    Caches.Cache((p: Caches.Policy<D>) => hash(p.definition), build, true)
  }

  /**
   A union holds the rules of the definition, if it has any and they compile together; nothing else is built or
   stored.
   */
  lemma RuleUnionHolds<D, R>(rulesOf: D -> seq<R>, compiles: seq<R> -> bool, p: Caches.Policy<D>)
    ensures var rules, b := rulesOf(p.definition), BuildRuleUnion(rulesOf, compiles)(p);
            if rules != [] && compiles(rules) then b.artifact == Some(rules) && b.store == Caches.KeepFirst
            else b.artifact == None && b.store == Caches.Discard
  {
    var rules := rulesOf(p.definition);
    assert RulesFor(rulesOf, p) == rules;
    if rules != [] && compiles(rules) {
      assert BuildRuleUnion(rulesOf, compiles)(p) == Caches.Built(Some(RulesFor(rulesOf, p)), Caches.KeepFirst);
    }
  }

  /** Keyed on the definition's hash alone, this cache is right all the same: the scope never reaches the rules. */
  lemma RuleUnionTransparent<D(!new), R(!new)>(hash: D -> string, rulesOf: D -> seq<R>, compiles: seq<R> -> bool,
      pop: iset<Caches.Policy<D>>)
    requires forall p, q :: p in pop && q in pop && hash(p.definition) == hash(q.definition) != "" ==>
             p.definition == q.definition
    ensures Caches.AlwaysFresh(RuleUnionCache(hash, BuildRuleUnion(rulesOf, compiles)), pop)
  {
    Caches.TransparentExactly(RuleUnionCache(hash, BuildRuleUnion(rulesOf, compiles)), pop);
  }
}
