/**
 The pre-flight evaluation against the full one: what more policies add, that a pre-flight denial is final, exactly when
 the two agree, and what cancelling the slow paths can change.
 */
module Preflight {
  import opened Options
  import opened Bytes
  import opened Strings
  import opened Dedup
  import opened CheckOutcomes
  import opened GuardDecision
  import RC = RuntimeChecks
  import LP = LocalPolicies
  import Trimming

  // ---------------------------------------------------------------- more policies, no fewer findings

  /** What the local checks and the webhooks of some policies find by themselves, keys in `seen` left out. */
  ghost function OwnLocal(c: Call, qs: seq<RC.Policy>, seen: set<string>): seq<RC.Finding> {
    FlatMap(FoundLocally(c.engine, c.request, Skips(c)), Fresh(PairKey(), seen, AllPairs(qs)))
  }

  ghost function OwnHooks(c: Call, qs: seq<RC.Policy>, seen: set<string>): seq<RC.Finding> {
    FlatMap(FoundByHook(c.engine, c.request), Fresh(PairKey(), seen, AllPairs(qs)))
  }

  /** The keys of all checks of some policies. */
  function Fingerprints(ps: seq<RC.Policy>): set<string> {
    Keys(PairKey(), AllPairs(ps))
  }

  lemma {:induction false} AllPairsAppend(ps: seq<RC.Policy>, qs: seq<RC.Policy>)
    ensures AllPairs(ps + qs) == AllPairs(ps) + AllPairs(qs)
  {
    if ps == [] {
      assert ps + qs == qs;
    } else {
      AllPairsAppend(ps[1..], qs);
      assert (ps + qs)[1..] == ps[1..] + qs;
      Associate(Pairs(ps[0], ps[0].checks), AllPairs(ps[1..]), AllPairs(qs));
    }
  }

  /** Appended policies insert their own findings: the local ones before the webhooks', the webhooks' at the end. */
  lemma AppendedFindings(c: Call, ps: seq<RC.Policy>, qs: seq<RC.Policy>)
    ensures OwnLocal(c, ps + qs, {}) == OwnLocal(c, ps, {}) + OwnLocal(c, qs, Fingerprints(ps))
    ensures OwnHooks(c, ps + qs, {}) == OwnHooks(c, ps, {}) + OwnHooks(c, qs, Fingerprints(ps))
  {
    var a, b := Fresh(PairKey(), {}, AllPairs(ps)), Fresh(PairKey(), Fingerprints(ps), AllPairs(qs));
    AllPairsAppend(ps, qs);
    FreshAppend(PairKey(), {}, AllPairs(ps), AllPairs(qs));
    assert {} + Fingerprints(ps) == Fingerprints(ps);
    FlatMapAppend(FoundLocally(c.engine, c.request, Skips(c)), a, b);
    FlatMapAppend(FoundByHook(c.engine, c.request), a, b);
  }

  lemma CheckPoliciesAppend(bs: seq<Bundle>, more: seq<Bundle>)
    ensures CheckPolicies(bs + more) == CheckPolicies(bs) + CheckPolicies(more)
  {
  }

  lemma RulePoliciesAppend(bs: seq<Bundle>, more: seq<Bundle>)
    ensures RulePolicies(bs + more) == RulePolicies(bs) + RulePolicies(more)
  {
  }

  /** The new check findings of a longer list: the old ones with the appended policies' own findings put in. */
  lemma CheckFindingsGrow(c: Call, bs: seq<Bundle>, more: seq<Bundle>)
    ensures var ps, qs := CheckPolicies(bs), CheckPolicies(more);
            && CheckReport(c, bs).findings == OwnLocal(c, ps, {}) + OwnHooks(c, ps, {})
            && CheckReport(c, bs + more).findings
            == (OwnLocal(c, ps, {}) + OwnLocal(c, qs, Fingerprints(ps)))
                + (OwnHooks(c, ps, {}) + OwnHooks(c, qs, Fingerprints(ps)))
  {
    CheckPoliciesAppend(bs, more);
    FindingsInOrder(c.engine, c.request, CheckPolicies(bs), Skips(c));
    FindingsInOrder(c.engine, c.request, CheckPolicies(bs + more), Skips(c));
    AppendedFindings(c, CheckPolicies(bs), CheckPolicies(more));
  }

  lemma RuleFindingsAppend(lib: LP.Library, ps: seq<LP.LocalPolicy>, qs: seq<LP.LocalPolicy>, target: Text,
      tool: Option<LP.ToolContext>, clears: LP.LocalPolicy -> bool)
    ensures LP.Findings(lib, ps + qs, target, tool, clears) ==
            LP.Findings(lib, ps, target, tool, clears) + LP.Findings(lib, qs, target, tool, clears)
  {
    LP.FindingsCollected(lib, ps, target, tool, clears);
    LP.FindingsCollected(lib, qs, target, tool, clears);
    LP.FindingsCollected(lib, ps + qs, target, tool, clears);
    LP.CollectedAppend(LP.PolicyAdds(lib, target, tool), ps, qs, clears);
  }

  lemma RuleFindingsGrow(c: Call, bs: seq<Bundle>, more: seq<Bundle>)
    ensures RuleFindings(c, bs + more) == RuleFindings(c, bs) + RuleFindings(c, more)
  {
    RulePoliciesAppend(bs, more);
    RuleFindingsAppend(c.lib, RulePolicies(bs), RulePolicies(more), RC.PickContent(c.request), c.tool,
                       LP.ClearedBy(c.lib, RC.PickContent(c.request)));
  }

  /** What added policies find by themselves: checks with a new fingerprint, rules and tool tests. */
  ghost function OwnFindings(c: Call, bs: seq<Bundle>, more: seq<Bundle>): seq<Verdict> {
    var seen := Fingerprints(CheckPolicies(bs));
    FromChecks(OwnLocal(c, CheckPolicies(more), seen) + OwnHooks(c, CheckPolicies(more), seen))
        + FromRules(RuleFindings(c, more))
  }

  ghost predicate AddsNothing(c: Call, bs: seq<Bundle>, more: seq<Bundle>) {
    OwnFindings(c, bs, more) == []
  }

  /** The in-process findings of a longer list, taken apart. */
  lemma Insertions(c: Call, bs: seq<Bundle>, more: seq<Bundle>) returns (a: seq<RC.Finding>, a': seq<RC.Finding>,
      h: seq<RC.Finding>, h': seq<RC.Finding>, r: seq<LP.LocalFinding>, r': seq<LP.LocalFinding>)
    ensures InProcess(c, bs) == FromChecks(a + h) + FromRules(r)
    ensures InProcess(c, bs + more) == FromChecks((a + a') + (h + h')) + FromRules(r + r')
    ensures OwnFindings(c, bs, more) == FromChecks(a' + h') + FromRules(r')
  {
    var ps, qs := CheckPolicies(bs), CheckPolicies(more);
    a, a', h, h' :=
        OwnLocal(c, ps, {}), OwnLocal(c, qs, Fingerprints(ps)), OwnHooks(c, ps, {}), OwnHooks(c, qs, Fingerprints(ps));
    r, r' := RuleFindings(c, bs), RuleFindings(c, more);
    CheckFindingsGrow(c, bs, more);
    RuleFindingsGrow(c, bs, more);
  }

  /** Added policies either find nothing themselves and change no finding, or make the findings strictly more. */
  lemma FindingsExactly(c: Call, bs: seq<Bundle>, more: seq<Bundle>)
    ensures if AddsNothing(c, bs, more) then InProcess(c, bs + more) == InProcess(c, bs)
            else |InProcess(c, bs)| < |InProcess(c, bs + more)|
  {
    var a, a', h, h', r, r' := Insertions(c, bs, more);
    assert |OwnFindings(c, bs, more)| == |a'| + |h'| + |r'|;
    if AddsNothing(c, bs, more) {
      assert a + a' == a && h + h' == h && r + r' == r;
    }
  }

  lemma FromChecksAppend(a: seq<RC.Finding>, b: seq<RC.Finding>)
    ensures FromChecks(a + b) == FromChecks(a) + FromChecks(b)
  {
  }

  lemma ChecksReach(a: seq<RC.Finding>, b: seq<RC.Finding>, k: nat)
    ensures Reaches(FromChecks(a + b), k) <==> Reaches(FromChecks(a), k) || Reaches(FromChecks(b), k)
  {
    FromChecksAppend(a, b);
    ReachesAppend(FromChecks(a), FromChecks(b), k);
  }

  lemma FromRulesAppend(a: seq<LP.LocalFinding>, b: seq<LP.LocalFinding>)
    ensures FromRules(a + b) == FromRules(a) + FromRules(b)
  {
  }

  lemma RulesReach(a: seq<LP.LocalFinding>, b: seq<LP.LocalFinding>, k: nat)
    ensures Reaches(FromRules(a + b), k) <==> Reaches(FromRules(a), k) || Reaches(FromRules(b), k)
  {
    FromRulesAppend(a, b);
    ReachesAppend(FromRules(a), FromRules(b), k);
  }

  /** A longer policy list reaches the ranks the shorter one reaches, those of the added findings, and no others. */
  lemma MorePoliciesReach(c: Call, bs: seq<Bundle>, more: seq<Bundle>, k: nat)
    ensures Reaches(InProcess(c, bs + more), k) <==>
            Reaches(InProcess(c, bs), k) || Reaches(OwnFindings(c, bs, more), k)
  {
    var a, a', h, h', r, r' := Insertions(c, bs, more);
    ReachesAppend(FromChecks(a + h), FromRules(r), k);
    ReachesAppend(FromChecks(a' + h'), FromRules(r'), k);
    ReachesAppend(FromChecks((a + a') + (h + h')), FromRules(r + r'), k);
    ChecksReach(a, h, k);
    ChecksReach(a', h', k);
    ChecksReach(a, a', k);
    ChecksReach(h, h', k);
    ChecksReach(a + a', h + h', k);
    RulesReach(r, r', k);
  }

  // ---------------------------------------------------------------- redactions

  /** The redactions that come with some findings: one for each that redacts. */
  function Redacting(fs: seq<RC.Finding>): seq<(string, RC.Summary)> {
    if fs == [] then []
    else
      var last := fs[|fs| - 1];
      Redacting(fs[..|fs| - 1]) + if last.outcome == RC.Redact then [(last.check, last.summary)] else []
  }

  /** Every redaction of the checks comes with a finding that redacts. */
  predicate Paired(rep: RC.Report) {
    rep.redactions == Redacting(rep.findings)
  }

  lemma RecordPaired(p: RC.Policy, k: RC.Check, a: RC.Answer, stage: RC.Stage, rep: RC.Report)
    requires Paired(rep)
    ensures Paired(RC.Record(p, k, a, stage, rep))
  {
    var now := RC.Record(p, k, a, stage, rep);
    if now.findings != rep.findings {
      assert now.findings[..|now.findings| - 1] == rep.findings;
    }
  }

  lemma {:induction false} ChecksPaired(c: Call, p: RC.Policy, skip: bool, ks: seq<RC.Check>, s: RC.Progress)
    requires Paired(s.report)
    ensures Paired(RC.RunChecks(c.engine, c.request, p, skip, ks, s).report)
  {
    if ks != [] {
      RecordPaired(p, ks[0], RC.Answered(c.engine, c.request, ks[0]), c.request.stage, s.report);
      ChecksPaired(c, p, skip, ks[1..], RC.Step(c.engine, c.request, p, skip, ks[0], s));
    }
  }

  lemma {:induction false} PoliciesPaired(c: Call, ps: seq<RC.Policy>, s: RC.Progress)
    requires Paired(s.report)
    ensures Paired(RC.RunPolicies(c.engine, c.request, ps, Skips(c), s).report)
  {
    if ps != [] {
      ChecksPaired(c, ps[0], Skips(c)(ps[0]), ps[0].checks, s);
      PoliciesPaired(c, ps[1..], RC.RunChecks(c.engine, c.request, ps[0], Skips(c)(ps[0]), ps[0].checks, s));
    }
  }

  lemma {:induction false} HooksPaired(c: Call, hooks: seq<(RC.Policy, RC.Check)>, rep: RC.Report)
    requires Paired(rep)
    ensures Paired(RC.MergeHooks(c.engine, c.request, hooks, rep))
  {
    if hooks != [] {
      var (p, k) := hooks[0];
      RecordPaired(p, k, c.engine.webhook(k), c.request.stage, rep);
      HooksPaired(c, hooks[1..], RC.Record(p, k, c.engine.webhook(k), c.request.stage, rep));
    }
  }

  lemma ReportPaired(c: Call, bs: seq<Bundle>)
    ensures Paired(CheckReport(c, bs))
  {
    var s := RC.Start(c.request);
    PoliciesPaired(c, CheckPolicies(bs), s);
    var t := RC.RunPolicies(c.engine, c.request, CheckPolicies(bs), Skips(c), s);
    HooksPaired(c, t.hooks, t.report);
  }

  lemma {:induction false} RedactingReaches(fs: seq<RC.Finding>)
    requires Redacting(fs) != []
    ensures Reaches(FromChecks(fs), 1)
  {
    var before, last := fs[..|fs| - 1], fs[|fs| - 1];
    assert fs == before + [last];
    if last.outcome == RC.Redact {
      SpellKeepsRank(RC.Redact, SummaryText(last.summary));
      assert RankOf(FromChecks(fs)[|fs| - 1]) == 1;
    } else {
      RedactingReaches(before);
      ChecksReach(before, [last], 1);
    }
  }

  /** What the rules of some policies redact. */
  ghost function RuleRedacted(c: Call, bs: seq<Bundle>): seq<(string, Text)> {
    LP.Redactions(c.lib, RulePolicies(bs), RC.PickContent(c.request), LP.ClearedBy(c.lib, RC.PickContent(c.request)))
  }

  lemma {:induction false} RedactionsAppend(lib: LP.Library, ps: seq<LP.LocalPolicy>, qs: seq<LP.LocalPolicy>,
      target: Text,
      clears: LP.LocalPolicy -> bool)
    ensures LP.Redactions(lib, ps + qs, target, clears) ==
            LP.Redactions(lib, ps, target, clears) + LP.Redactions(lib, qs, target, clears)
    decreases |qs|
  {
    if qs == [] {
      assert ps + qs == ps;
    } else {
      var q, before := qs[|qs| - 1], qs[..|qs| - 1];
      RedactionsAppend(lib, ps, before, target, clears);
      assert (ps + qs)[..|ps + qs| - 1] == ps + before;
      Associate(LP.Redactions(lib, ps, target, clears), LP.Redactions(lib, before, target, clears),
                if clears(q) then [] else LP.RuleRedactions(lib, LP.RulesOf(q), target));
    }
  }

  lemma RuleRedactedGrow(c: Call, bs: seq<Bundle>, more: seq<Bundle>)
    ensures RuleRedacted(c, bs + more) == RuleRedacted(c, bs) + RuleRedacted(c, more)
  {
    RulePoliciesAppend(bs, more);
    var target := RC.PickContent(c.request);
    RedactionsAppend(c.lib, RulePolicies(bs), RulePolicies(more), target, LP.ClearedBy(c.lib, target));
  }

  lemma {:induction false} RulesFind(lib: LP.Library, p: LP.LocalPolicy, rules: seq<LP.Rule>, target: Text)
    requires LP.RuleFindings(lib, p, rules, target) == []
    ensures LP.RuleRedactions(lib, rules, target) == []
  {
    if rules != [] {
      RulesFind(lib, p, rules[..|rules| - 1], target);
    }
  }

  /** Rules that find nothing redact nothing, monitored policies included. */
  lemma {:induction false} PoliciesFind(lib: LP.Library, ps: seq<LP.LocalPolicy>, target: Text,
      tool: Option<LP.ToolContext>,
      clears: LP.LocalPolicy -> bool)
    requires LP.Findings(lib, ps, target, tool, clears) == []
    ensures LP.Redactions(lib, ps, target, clears) == []
  {
    if ps != [] {
      var p := ps[|ps| - 1];
      PoliciesFind(lib, ps[..|ps| - 1], target, tool, clears);
      if !clears(p) {
        assert LP.RuleFindings(lib, p, LP.RulesOf(p), target) + LP.ToolFindings(p, tool) == [];
        RulesFind(lib, p, LP.RulesOf(p), target);
      }
    }
  }

  lemma NothingInserted(a: seq<RC.Finding>, a': seq<RC.Finding>, h: seq<RC.Finding>, h': seq<RC.Finding>,
      r': seq<LP.LocalFinding>)
    requires FromChecks(a' + h') + FromRules(r') == []
    ensures (a + a') + (h + h') == a + h && r' == []
  {
    assert |FromChecks(a' + h') + FromRules(r')| == |a'| + |h'| + |r'|;
    assert a' == [] && h' == [];
    assert a + a' == a && h + h' == h;
  }

  lemma NothingOwn(c: Call, bs: seq<Bundle>, more: seq<Bundle>)
    requires AddsNothing(c, bs, more)
    ensures CheckReport(c, bs + more).findings == CheckReport(c, bs).findings && RuleFindings(c, more) == []
  {
    var ps, qs := CheckPolicies(bs), CheckPolicies(more);
    NothingInserted(OwnLocal(c, ps, {}), OwnLocal(c, qs, Fingerprints(ps)), OwnHooks(c, ps, {}),
                    OwnHooks(c, qs, Fingerprints(ps)),
                    RuleFindings(c, more));
    CheckFindingsGrow(c, bs, more);
  }

  lemma QuietRules(c: Call, bs: seq<Bundle>, more: seq<Bundle>)
    requires RuleFindings(c, more) == []
    ensures RuleRedacted(c, bs + more) == RuleRedacted(c, bs)
  {
    PoliciesFind(c.lib, RulePolicies(more), RC.PickContent(c.request), c.tool,
                 LP.ClearedBy(c.lib, RC.PickContent(c.request)));
    RuleRedactedGrow(c, bs, more);
  }

  /** Policies that find nothing redact nothing. */
  lemma QuietRedactions(c: Call, bs: seq<Bundle>, more: seq<Bundle>)
    requires AddsNothing(c, bs, more)
    ensures Redactions(c, bs + more) == Redactions(c, bs)
  {
    NothingOwn(c, bs, more);
    ReportPaired(c, bs);
    ReportPaired(c, bs + more);
    QuietRules(c, bs, more);
  }

  // ---------------------------------------------------------------- the decision over more policies

  /** The verdict of some policies by themselves. */
  ghost function Verdicted(c: Call, bs: seq<Bundle>): Decision {
    Decide(InProcess(c, bs), Redactions(c, bs) != [])
  }

  /** The verdict of what added policies bring. */
  ghost function OwnVerdict(c: Call, bs: seq<Bundle>, more: seq<Bundle>): Decision {
    Decide(OwnFindings(c, bs, more), RuleRedacted(c, more) != [])
  }

  function Severity(d: Decision): nat {
    match d
    case Allowed => 0
    case AllowedWithRedaction => 1
    case Sandboxed => 2
    case Denied => 3
  }

  function Graver(a: Decision, b: Decision): Decision {
    if Severity(a) >= Severity(b) then a else b
  }

  /** A redaction of the checks already shows in the findings, so only those of the rules bear on the verdict. */
  lemma RulesDecide(c: Call, bs: seq<Bundle>)
    ensures Verdicted(c, bs) == Decide(InProcess(c, bs), RuleRedacted(c, bs) != [])
  {
    var rep := CheckReport(c, bs);
    ReportPaired(c, bs);
    assert |Redactions(c, bs)| == |rep.redactions| + |RuleRedacted(c, bs)|;
    if rep.redactions != [] {
      RedactingReaches(rep.findings);
      ReachesAppend(FromChecks(rep.findings), FromRules(RuleFindings(c, bs)), 1);
    }
  }

  /** A longer list's verdict is the graver of the shorter one's and the added policies' own. */
  lemma VerdictGrows(c: Call, bs: seq<Bundle>, more: seq<Bundle>)
    ensures Verdicted(c, bs + more) == Graver(Verdicted(c, bs), OwnVerdict(c, bs, more))
  {
    RulesDecide(c, bs);
    RulesDecide(c, bs + more);
    RuleRedactedGrow(c, bs, more);
    MorePoliciesReach(c, bs, more, 1);
    MorePoliciesReach(c, bs, more, 2);
    MorePoliciesReach(c, bs, more, 3);
  }

  // ---------------------------------------------------------------- a denial is final

  /** The policies only the full evaluation looks at. */
  function ExtraPolicies(c: Call): seq<Bundle> {
    FastPrefix(c);
    FullPolicies(c)[|FastPolicies(c)|..]
  }

  lemma ExtraSplits(c: Call)
    ensures FullPolicies(c) == FastPolicies(c) + ExtraPolicies(c)
  {
    FastPrefix(c);
  }

  lemma PreflightReaches(c: Call, slow: Slow, k: nat)
    ensures Reaches(InProcess(c, FastPolicies(c)), k) ==> Reaches(AllFound(c, slow, Settled(c)), k)
  {
    ExtraSplits(c);
    if Reaches(InProcess(c, FastPolicies(c)), k) {
      MorePoliciesReach(c, FastPolicies(c), ExtraPolicies(c), k);
      ReachesAppend(InProcess(c, FullPolicies(c)), SlowFindings(slow, Settled(c)), k);
    }
  }

  /** A pre-flight denial is final: whatever the slow paths say, the full evaluation denies as well. */
  method PreflightFinal(c: Call, slow: Slow) returns (fast: Response, full: Response)
    requires Sound(c)
    ensures fast.decision.Denied? ==> full.decision.Denied?
    ensures GuardDecision.Blocks(fast.decision) ==> GuardDecision.Blocks(full.decision)
  {
    fast := EvaluateFastOnly(c);
    full := Evaluate(c, slow);
    PreflightReaches(c, slow, 3);
    PreflightReaches(c, slow, 2);
  }

  // ---------------------------------------------------------------- when the two agree

  /** A guard on the call: no default policies without a bundle, and no unattached tenant policy asked for. */
  predicate SamePolicies(c: Call) {
    if !c.hasBundle then c.own != []
    else c.requested != [] && c.mergeTenant ==>
      Keys(KeyOf(), c.defaults) <= Keys(KeyOf(), FastPolicies(c))
          && Keys(KeyOf(), c.matched) <= Keys(KeyOf(), FastPolicies(c))
  }

  /** A merge into a merged list changes it exactly when it brings a new identity. */
  lemma MergeIdle(base: seq<Bundle>, more: seq<Bundle>)
    requires First(KeyOf(), base) == base
    ensures First(KeyOf(), Merged(base, more)) == Merged(base, more) && base <= Merged(base, more)
    ensures Merged(base, more) == base <==> Keys(KeyOf(), more) <= Keys(KeyOf(), base)
  {
    var f := KeyOf();
    FirstTwice(f, base + more);
    FreshAppend(f, {}, base, more);
    assert {} + Keys(f, base) == Keys(f, base);
    FreshNothing(f, Keys(f, base), more);
    assert |Merged(base, more)| == |base| + |Fresh(f, Keys(f, base), more)|;
  }

  /** Both evaluations use the same policies exactly under that guard. */
  lemma SamePoliciesExactly(c: Call)
    ensures FastPolicies(c) == FullPolicies(c) <==> SamePolicies(c)
  {
    if c.hasBundle && c.requested != [] && c.mergeTenant {
      var fast := Merged(c.requested, c.own);
      FirstTwice(KeyOf(), c.requested + c.own);
      MergeIdle(fast, c.defaults);
      MergeIdle(Merged(fast, c.defaults), c.matched);
    }
  }

  predicate TextsAgree(original: Text, checks: Text, rules: Text) {
    RC.Blank(checks) || checks == original || rules == original || checks == rules
  }

  lemma PreferencesAgree(original: Text, checks: Text, rules: Text)
    ensures PreferChecks(original, checks, rules) == PreferRules(original, checks, rules) <==>
            TextsAgree(original, checks, rules)
  {
  }

  /**
   Which version of a text is reported: the only one that was rewritten, or none; if both were, the pre-flight reports
   the checks' version and the full evaluation the rules'.
   */
  lemma PreferencesAre(original: Text, checks: Text, rules: Text)
    ensures var byChecks, byRules := checks != original && !Trimming.AllBlank(RC.Space, checks), rules != original;
            && PreferChecks(original, checks, rules) == (if byChecks then checks else if byRules then rules else [])
            && PreferRules(original, checks, rules) == (if byRules then rules else if byChecks then checks else [])
  {
    RC.BlankMeans(checks);
  }

  ghost predicate Silent(slow: Slow) {
    slow.mcp == [] && forall cancelled :: slow.providers(cancelled) == [] && slow.modality(cancelled) == []
  }

  lemma SilentFound(c: Call, slow: Slow, cancelled: bool)
    requires Silent(slow)
    ensures AllFound(c, slow, cancelled) == InProcess(c, FullPolicies(c))
  {
    assert SlowFindings(slow, cancelled) == [];
  }

  lemma SameAnswers(c: Call, bs: seq<Bundle>, found: seq<Verdict>, fast: Response, full: Response)
    requires Answers(c, bs, found, PreferChecks, fast) && Answers(c, bs, found, PreferRules, full)
    ensures fast.redactions == full.redactions && fast.decision == full.decision
    ensures fast.input == full.input <==>
            TextsAgree(c.request.input, CheckReport(c, bs).input, RuleText(c, bs, c.request.input))
    ensures fast.output == full.output <==>
            TextsAgree(c.request.output, CheckReport(c, bs).output, RuleText(c, bs, c.request.output))
  {
    PreferencesAgree(c.request.input, CheckReport(c, bs).input, RuleText(c, bs, c.request.input));
    PreferencesAgree(c.request.output, CheckReport(c, bs).output, RuleText(c, bs, c.request.output));
  }

  /**
   With silent slow paths the pre-flight has the full findings exactly when the extra policies find nothing, and
   strictly fewer otherwise; equal findings bring equal redactions. The full decision is the graver of the
   pre-flight's and the extra policies' own, so the two agree exactly when the latter is no graver. Over the same
   policies each text agrees unless checks and rules both rewrote it, and differently.
   */
  method PreflightExactly(c: Call, slow: Slow) returns (fast: Response, full: Response)
    requires Sound(c) && Silent(slow)
    ensures fast.findings == full.findings <==> AddsNothing(c, FastPolicies(c), ExtraPolicies(c))
    ensures if fast.findings == full.findings then fast.redactions == full.redactions
            else |fast.findings| < |full.findings|
    ensures full.decision == Graver(fast.decision, OwnVerdict(c, FastPolicies(c), ExtraPolicies(c)))
    ensures fast.findings == full.findings ==> fast.decision == full.decision
    ensures SamePolicies(c) ==>
      && fast.findings == full.findings
      && (fast.input == full.input <==>
            TextsAgree(c.request.input, CheckReport(c, FullPolicies(c)).input,
                       RuleText(c, FullPolicies(c), c.request.input)))
      && (fast.output == full.output <==>
            TextsAgree(c.request.output, CheckReport(c, FullPolicies(c)).output,
                       RuleText(c, FullPolicies(c), c.request.output)))
  {
    fast := EvaluateFastOnly(c);
    full := Evaluate(c, slow);
    SilentFound(c, slow, Settled(c));
    ExtraSplits(c);
    FindingsExactly(c, FastPolicies(c), ExtraPolicies(c));
    VerdictGrows(c, FastPolicies(c), ExtraPolicies(c));
    if AddsNothing(c, FastPolicies(c), ExtraPolicies(c)) {
      QuietRedactions(c, FastPolicies(c), ExtraPolicies(c));
    }
    SamePoliciesExactly(c);
    if SamePolicies(c) {
      SameAnswers(c, FullPolicies(c), InProcess(c, FullPolicies(c)), fast, full);
    }
  }

  /** The two decisions agree exactly when what the extra policies bring is no graver than the pre-flight's verdict. */
  lemma VerdictsAgree(c: Call)
    ensures Verdicted(c, FastPolicies(c)) == Verdicted(c, FullPolicies(c)) <==>
            Severity(OwnVerdict(c, FastPolicies(c), ExtraPolicies(c))) <= Severity(Verdicted(c, FastPolicies(c)))
  {
    ExtraSplits(c);
    VerdictGrows(c, FastPolicies(c), ExtraPolicies(c));
  }

  // ---------------------------------------------------------------- cancelling the slow paths

  /** The full decision had the slow paths been cancelled, or not. */
  ghost function DecisionIf(c: Call, slow: Slow, cancelled: bool): Decision {
    Decide(AllFound(c, slow, cancelled), Redactions(c, FullPolicies(c)) != [])
  }

  /** Cancelling the slow paths of a request a fast path blocks never lets it through. */
  lemma CancellingBlocks(c: Call, slow: Slow)
    requires Settled(c)
    ensures GuardDecision.Blocks(DecisionIf(c, slow, true)) && GuardDecision.Blocks(DecisionIf(c, slow, false))
  {
    ReachesAppend(InProcess(c, FullPolicies(c)), SlowFindings(slow, true), 2);
    ReachesAppend(InProcess(c, FullPolicies(c)), SlowFindings(slow, false), 2);
  }

  lemma DenialStands(found: seq<Verdict>, more: seq<Verdict>, redacted: bool)
    requires Reaches(found, 3)
    ensures Decide(found + more, redacted) == Denied
  {
    ReachesAppend(found, more, 3);
  }

  lemma DenyRanks(v: Verdict)
    requires v.outcome == "deny"
    ensures RankOf(v) == 3
  {
    Trimming.TrimFixed(IsBlank, "deny");
    assert Normal("deny") == "deny";
  }

  /** A sandbox that a provider would have turned into a denial stays a sandbox when the provider is cancelled. */
  lemma LostDenial(found: seq<Verdict>, redacted: bool) returns (slow: Slow)
    requires Reaches(found, 2) && !Reaches(found, 3)
    ensures Decide(found + SlowFindings(slow, true), redacted) == Sandboxed
    ensures Decide(found + SlowFindings(slow, false), redacted) == Denied
  {
    var verdict := Verdict("deny", "provider");
    DenyRanks(verdict);
    slow := Slow([], cancelled => if cancelled then [] else [verdict], cancelled => []);
    assert found + SlowFindings(slow, true) == found;
    assert SlowFindings(slow, false) == [verdict];
    assert [verdict][0] == verdict;
    ReachesAppend(found, [verdict], 3);
  }

  /** It leaves the decision alone, whatever the slow paths would have said, exactly when a fast path denies. */
  lemma CancellingExactly(c: Call)
    requires Settled(c)
    ensures (forall slow :: DecisionIf(c, slow, true) == DecisionIf(c, slow, false)) <==>
            Reaches(InProcess(c, FullPolicies(c)), 3)
  {
    var found, redacted := InProcess(c, FullPolicies(c)), Redactions(c, FullPolicies(c)) != [];
    if Reaches(found, 3) {
      forall slow
        ensures DecisionIf(c, slow, true) == DecisionIf(c, slow, false)
      {
        DenialStands(found, SlowFindings(slow, true), redacted);
        DenialStands(found, SlowFindings(slow, false), redacted);
      }
    } else {
      var slow := LostDenial(found, redacted);
      assert DecisionIf(c, slow, true) != DecisionIf(c, slow, false);
    }
  }
}
