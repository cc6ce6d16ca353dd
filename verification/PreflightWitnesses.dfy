/** Two concrete calls on which the pre-flight and the full evaluation part. */
module PreflightWitnesses {
  import opened Options
  import opened Bytes
  import opened Strings
  import opened Dedup
  import opened RegexLiterals
  import opened CheckOutcomes
  import opened GuardDecision
  import opened Preflight
  import RC = RuntimeChecks
  import LP = LocalPolicies
  import Trimming

  const TEXT: Text := [122]
  const BY_CHECK: Text := [120]
  const BY_RULE: Text := [121]

  /** A local check that always fires, denies, and rewrites the input. */
  function Strict(): RC.Check {
    RC.Check("word_count", "fp", [], [], RC.Action(RC.Deny, false, false, false, [], []))
  }

  /** The engine whose patterns match what the trees say and whose local checks all fire. */
  ghost function Firing(): RC.Engine {
    RC.Engine(t => Some(NoMatch), parts => true, (re, t) => Matches(re, t),
              (re, t) => if Matches(re, t) then [t] else [],
              (re, t, a) => t, k => RC.Done(RC.Result(true, [], BY_CHECK, [], None, "", 0.5, [])),
              k => RC.Done(RC.NOTHING))
  }

  ghost function Replacing(): LP.Library {
    LP.Library(parts => true, (re, t) => Matches(re, t), (re, t) => if Matches(re, t) then [t] else [],
               (re, t) => BY_RULE, category => None)
  }

  function Of(id: string, checks: seq<RC.Check>, rules: seq<LP.Rule>): Bundle {
    Bundle(id, "", "", RC.Policy(id, id, "block", checks), LP.LocalPolicy(id, id, "block", rules, [], [], [], []))
  }

  ghost function CallOf(own: seq<Bundle>, requested: seq<Bundle>, defaults: seq<Bundle>): Call {
    Call(Firing(), Replacing(), RC.Request(RC.InputStage, TEXT, [], []), None, own, requested != [], requested,
         defaults, [], false, true, Of("", [], []))
  }

  /** What the firing check adds for a policy of that one check. */
  lemma StrictFires(c: Call, p: RC.Policy, seen: set<string>) returns (f: RC.Finding)
    requires c.engine == Firing() && p.mode == "block" && p.checks == [Strict()] && RC.CheckKey(p, Strict()) !in seen
    ensures OwnLocal(c, [p], seen) == [f] && f.outcome == RC.Deny && OwnHooks(c, [p], seen) == []
  {
    var x := (p, Strict());
    assert [p][1..] == [] && p.checks[1..] == [] && Pairs(p, []) == [] && AllPairs([]) == [];
    assert AllPairs([p]) == [x];
    FreshOne(seen, x);
    FlatMapOne(FoundLocally(c.engine, c.request, Skips(c)), x);
    FlatMapOne(FoundByHook(c.engine, c.request), x);
    f := FoundLocally(c.engine, c.request, Skips(c))(x)[0];
  }

  lemma QuietPolicy(c: Call, p: RC.Policy, seen: set<string>)
    requires p.checks == []
    ensures OwnLocal(c, [p], seen) == [] && OwnHooks(c, [p], seen) == [] && Fingerprints([p]) == {}
  {
    assert [p][1..] == [];
    assert AllPairs([p]) == [];
  }

  lemma NoRuleFindings(c: Call, b: Bundle)
    requires b.rules.rules == [] && b.rules.defaults == [] && c.tool == None
    ensures RuleFindings(c, [b]) == [] && RulePolicies([b]) == [b.rules]
    ensures LP.Redactions(c.lib, RulePolicies([b]), RC.PickContent(c.request),
                          LP.ClearedBy(c.lib, RC.PickContent(c.request))) == []
  {
    var p, target := b.rules, RC.PickContent(c.request);
    var clears := LP.ClearedBy(c.lib, target);
    assert RulePolicies([b]) == [p] && [p][..|[p]| - 1] == [];
    assert LP.RuleFindings(c.lib, p, [], target) + LP.ToolFindings(p, None) == [];
    assert LP.Findings(c.lib, [p], target, None, clears) == LP.Findings(c.lib, [], target, None, clears) + [];
    assert LP.Redactions(c.lib, [p], target, clears) == LP.Redactions(c.lib, [], target, clears) + [];
  }

  lemma MergesBoth(a: Bundle, b: Bundle)
    requires MergeKey(a) != MergeKey(b)
    ensures Merged([a], []) == [a] && Merged([a], [b]) == [a, b] && Merged([a, b], []) == [a, b]
  {
    assert [a] + [] == [a] && [a] + [b] == [a, b] && [a, b] + [] == [a, b];
    assert [a][..|[a]| - 1] == [] && [a, b][..|[a, b]| - 1] == [a];
    assert Fresh(KeyOf(), {}, []) == [] && Keys(KeyOf(), []) == {};
    assert Fresh(KeyOf(), {}, [a]) == [a] && Keys(KeyOf(), [a]) == {MergeKey(a)};
  }

  lemma QuietInProcess(c: Call, a: Bundle)
    requires a == Of("", [], []) && c.tool == None
    ensures InProcess(c, [a]) == [] && Redactions(c, [a]) == []
  {
    NoRuleFindings(c, a);
    assert CheckPolicies([a]) == [a.checks];
    var s := RC.Start(c.request);
    assert [a.checks][1..] == [];
    assert RC.RunPolicies(c.engine, c.request, [a.checks], Skips(c), s) == s;
  }

  lemma DenyReaches(fs: seq<RC.Finding>, f: RC.Finding)
    requires f in fs && f.outcome == RC.Deny
    ensures Reaches(FromChecks(fs), 3)
  {
    var i :| 0 <= i < |fs| && fs[i] == f;
    DenyRanks(FromChecks(fs)[i]);
  }

  lemma DeniedInProcess(c: Call, a: Bundle, b: Bundle)
    requires a == Of("", [], []) && b == Of("b", [Strict()], []) && c.engine == Firing() && c.tool == None
             && c.request.stage == RC.InputStage
    ensures Reaches(InProcess(c, [a, b]), 3)
  {
    assert [a] + [b] == [a, b];
    assert CheckPolicies([a]) == [a.checks] && CheckPolicies([b]) == [b.checks];
    QuietPolicy(c, a.checks, {});
    var f := StrictFires(c, b.checks, {});
    CheckFindingsGrow(c, [a], [b]);
    var all := CheckReport(c, [a, b]).findings;
    assert f in all by {
      assert f in [f];
    }
    DenyReaches(all, f);
    ReachesAppend(FromChecks(all), FromRules(RuleFindings(c, [a, b])), 3);
  }

  lemma WitnessPolicies(c: Call, a: Bundle, b: Bundle)
    requires MergeKey(a) != MergeKey(b) && c == CallOf([], [a], [b])
    ensures FastPolicies(c) == [a] && FullPolicies(c) == [a, b] && !SamePolicies(c)
  {
    MergesBoth(a, b);
    SamePoliciesExactly(c);
  }

  lemma CallSound(own: seq<Bundle>, requested: seq<Bundle>, defaults: seq<Bundle>)
    ensures Sound(CallOf(own, requested, defaults))
  {
  }

  lemma SilenceAllows(c: Call, bs: seq<Bundle>)
    requires InProcess(c, bs) == [] && Redactions(c, bs) == []
    ensures Verdicted(c, bs) == Allowed
  {
  }

  lemma DenialFinal(c: Call)
    requires Reaches(InProcess(c, FullPolicies(c)), 3)
    ensures forall slow :: DecisionIf(c, slow, true) == DecisionIf(c, slow, false) == Denied
  {
    var found, redacted := InProcess(c, FullPolicies(c)), Redactions(c, FullPolicies(c)) != [];
    forall slow
      ensures DecisionIf(c, slow, true) == DecisionIf(c, slow, false) == Denied
    {
      DenialStands(found, SlowFindings(slow, true), redacted);
      DenialStands(found, SlowFindings(slow, false), redacted);
    }
  }

  /**
   The attached policy is silent and the tenant's default policy denies: the pre-flight allows what the full
   evaluation denies.
   */
  lemma MissedTenantDenial() returns (c: Call)
    ensures Sound(c) && !SamePolicies(c)
    ensures Verdicted(c, FastPolicies(c)) == Allowed
    ensures forall slow :: DecisionIf(c, slow, true) == DecisionIf(c, slow, false) == Denied
  {
    var a, b := Of("", [], []), Of("b", [Strict()], []);
    c := CallOf([], [a], [b]);
    assert |MergeKey(a)| == 4 && |MergeKey(b)| == 5 by {
      Trimming.TrimFixed(IsBlank, "b");
    }
    CallSound([], [a], [b]);
    WitnessPolicies(c, a, b);
    QuietInProcess(c, a);
    SilenceAllows(c, [a]);
    DeniedInProcess(c, a, b);
    DenialFinal(c);
  }

  lemma CheckText(c: Call, a: Bundle)
    requires c.engine == Firing() && a.checks.checks == [Strict()] && c.request.stage == RC.InputStage
    ensures CheckReport(c, [a]).input == BY_CHECK
  {
    var p, s := a.checks, RC.Start(c.request);
    var t := RC.Step(c.engine, c.request, p, Skips(c)(p), Strict(), s);
    Trimming.TrimFixed(RC.Space, BY_CHECK);
    assert CheckPolicies([a]) == [p] && [p][1..] == [] && p.checks[1..] == [];
    assert RC.RunChecks(c.engine, c.request, p, Skips(c)(p), p.checks, s) == t;
    assert RC.RunPolicies(c.engine, c.request, [p], Skips(c), s) == t;
  }

  lemma RuleTextOf(c: Call, a: Bundle)
    requires c.lib == Replacing() && a.rules.rules == [LP.Rule("any", EmptyMatch, "low", RC.Redact, "any")]
             && c.request.input == TEXT
    ensures RuleText(c, [a], c.request.input) == BY_RULE
  {
    var p, target := a.rules, RC.PickContent(c.request);
    assert Spans(EmptyMatch, target, 0, 0);
    assert Matches(EmptyMatch, target);
    assert LP.Patterns(p.rules)[0] == EmptyMatch;
    UnionMatches(LP.Patterns(p.rules), target);
    assert RulePolicies([a]) == [p] && [p][..0] == [] && p.rules[..0] == [];
    assert !LP.Cleared(c.lib, p, target);
  }

  /**
   One policy whose check and whose rule rewrite the input differently: the two evaluations report different texts.
   */
  lemma TwoTexts() returns (c: Call)
    ensures Sound(c) && SamePolicies(c)
    ensures var bs := FullPolicies(c);
            !TextsAgree(c.request.input, CheckReport(c, bs).input, RuleText(c, bs, c.request.input))
  {
    var a := Of("", [Strict()], [LP.Rule("any", EmptyMatch, "low", RC.Redact, "any")]);
    c := CallOf([a], [], []);
    SamePoliciesExactly(c);
    assert FullPolicies(c) == [a];
    CheckText(c, a);
    RuleTextOf(c, a);
    Trimming.TrimFixed(RC.Space, BY_CHECK);
  }
}
