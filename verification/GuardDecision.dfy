/** From findings to a verdict, and the pre-flight evaluation against the full one. */
module GuardDecision {
  import opened Options
  import opened Bytes
  import opened Strings
  import opened Dedup
  import RC = RuntimeChecks
  import LP = LocalPolicies
  import Trimming

  type Outcome = RC.Outcome

  /** What the verdict looks at: the outcome as the finding spells it, and its summary. */
  datatype Verdict = Verdict(outcome: string, summary: string)

  datatype Decision = Allowed | AllowedWithRedaction | Sandboxed | Denied

  function NormalizeOutcome(value: string): Outcome {
    var v := Normal(value);
    if v == "block" || v == "deny" || v == "approval" || v == "human_approval" || v == "review" then RC.Deny
    else if v == "sandbox" then RC.Sandbox
    else if v == "redact" || v == "allow_with_redaction" then RC.Redact
    else RC.Allow
  }

  function Rank(o: Outcome): nat {
    match o
    case Allow => 0
    case Redact => 1
    case Sandbox => 2
    case Deny => 3
  }

  function RankOf(v: Verdict): nat {
    Rank(NormalizeOutcome(v.outcome))
  }

  // ---------------------------------------------------------------- the verdict

  /** Some finding reaches rank `k`. */
  predicate Reaches(vs: seq<Verdict>, k: nat) {
    exists i :: 0 <= i < |vs| && RankOf(vs[i]) >= k
  }

  function Decide(vs: seq<Verdict>, redacted: bool): Decision {
    if Reaches(vs, 3) then Denied
    else if Reaches(vs, 2) then Sandboxed
    else if Reaches(vs, 1) || redacted then AllowedWithRedaction
    else Allowed
  }

  predicate Blocks(d: Decision) {
    d.Denied? || d.Sandboxed?
  }

  ghost predicate FirstGravest(vs: seq<Verdict>, i: nat)
    requires i < |vs|
  {
    && (forall j :: 0 <= j < |vs| ==> RankOf(vs[j]) <= RankOf(vs[i]))
    && (forall j :: 0 <= j < i ==> RankOf(vs[j]) < RankOf(vs[i]))
  }

  /**
   The reason is the summary of the first finding of the gravest rank; without one it tells whether anything was
   redacted.
   */
  ghost predicate Explains(reason: string, vs: seq<Verdict>, redacted: bool) {
    if Reaches(vs, 1) then exists i :: 0 <= i < |vs| && reason == vs[i].summary && FirstGravest(vs, i)
    else reason == if redacted then "Content was sanitized by runtime redaction rules"
      else "No guardrail violations detected"
  }

  /** The verdict is the gravest outcome. */
  method ResolveDecision(vs: seq<Verdict>, redactions: nat) returns (decision: Decision, reason: string)
    ensures decision == Decide(vs, redactions > 0)
    ensures Explains(reason, vs, redactions > 0)
  {
    var bestRank, bestSummary := 0, "";
    ghost var best := -1;
    for i := 0 to |vs|
      invariant forall j :: 0 <= j < i ==> RankOf(vs[j]) <= bestRank
      invariant bestRank == 0 <==> best == -1
      invariant best >= 0 ==> best < i && RankOf(vs[best]) == bestRank && bestSummary == vs[best].summary
      invariant forall j :: 0 <= j < best ==> RankOf(vs[j]) < bestRank
      invariant 0 <= bestRank <= 3
    {
      var rank := RankOf(vs[i]);
      if rank > bestRank {
        bestRank, bestSummary, best := rank, vs[i].summary, i;
      }
    }
    decision, reason := Allowed, "No guardrail violations detected";
    if bestRank == 3 {
      decision, reason := Denied, bestSummary;
    } else if bestRank == 2 {
      decision, reason := Sandboxed, bestSummary;
    } else if bestRank == 1 {
      decision, reason := AllowedWithRedaction, bestSummary;
    } else if redactions > 0 {
      decision, reason := AllowedWithRedaction, "Content was sanitized by runtime redaction rules";
    }
    assert best >= 0 ==> FirstGravest(vs, best);
  }

  method HasGatingDeny(vs: seq<Verdict>) returns (gating: bool)
    ensures gating <==> Reaches(vs, 2)
  {
    for i := 0 to |vs|
      invariant forall j :: 0 <= j < i ==> RankOf(vs[j]) < 2
    {
      if NormalizeOutcome(vs[i].outcome).Deny? || NormalizeOutcome(vs[i].outcome).Sandbox? {
        return true;
      }
    }
    return false;
  }

  lemma ReachesAppend(a: seq<Verdict>, b: seq<Verdict>, k: nat)
    ensures Reaches(a + b, k) <==> Reaches(a, k) || Reaches(b, k)
  {
    if i :| 0 <= i < |a| && RankOf(a[i]) >= k {
      assert (a + b)[i] == a[i];
    }
    if i :| 0 <= i < |b| && RankOf(b[i]) >= k {
      assert (a + b)[|a| + i] == b[i];
    }
  }

  // ---------------------------------------------------------------- which policies apply

  /** A policy of the bundle, with what its definition compiles to for the request's stage. */
  datatype Bundle = Bundle(id: string, versionId: string, name: string, checks: RC.Policy, rules: LP.LocalPolicy)

  function MergeKey(b: Bundle): string {
    Trim(b.id) + "::" + Trim(b.versionId) + "::" + Trim(b.name)
  }

  predicate PlainParts(b: Bundle) {
    ':' !in Trim(b.id) && ':' !in Trim(b.versionId) && ':' !in Trim(b.name)
  }

  lemma KeyParts(i: string, v: string, n: string)
    ensures i + "::" + v + "::" + n == (i + ":" + ":" + v + ":") + ":" + n
    ensures (i + ":" + ":" + v) + ":" + "" == i + ":" + ":" + v + ":" && i + ":" + "" == i + ":"
  {
  }

  /**
   Policies without colons in their parts are the same to a merge exactly when identifier, version and name are, but
   for blanks.
   */
  lemma MergeKeyTells(a: Bundle, b: Bundle)
    requires PlainParts(a) && PlainParts(b)
    ensures MergeKey(a) == MergeKey(b) <==>
            Trim(a.id) == Trim(b.id) && Trim(a.versionId) == Trim(b.versionId) && Trim(a.name) == Trim(b.name)
  {
    if MergeKey(a) == MergeKey(b) {
      var i, v, n := Trim(a.id), Trim(a.versionId), Trim(a.name);
      var i', v', n' := Trim(b.id), Trim(b.versionId), Trim(b.name);
      KeyParts(i, v, n);
      KeyParts(i', v', n');
      KeySplits(i + ":" + ":" + v + ":", n, i' + ":" + ":" + v' + ":", n');
      KeySplits(i + ":" + ":" + v, "", i' + ":" + ":" + v', "");
      KeySplits(i + ":", v, i' + ":", v');
      KeySplits(i, "", i', "");
    }
  }

  function KeyOf(): Bundle -> string {
    (b: Bundle) => MergeKey(b)
  }

  method MergePolicies(base: seq<Bundle>, more: seq<Bundle>) returns (merged: seq<Bundle>)
    ensures merged == First(KeyOf(), base + more)
    ensures Apart(KeyOf(), merged)
  {
    merged := MergeFirst(KeyOf(), base, more);
  }

  /** Merging more policies into a merged list only appends. */
  lemma MergeAppends(base: seq<Bundle>, more: seq<Bundle>)
    requires First(KeyOf(), base) == base
    ensures base <= First(KeyOf(), base + more)
  {
    FreshAppend(KeyOf(), {}, base, more);
  }

  /** A request and the policies its tenant's bundle offers for it; no bundle, no offer. */
  datatype Call = Call(
    engine: RC.Engine, lib: LP.Library, request: RC.Request, tool: Option<LP.ToolContext>, own: seq<Bundle>,
    hasBundle: bool, requested: seq<Bundle>, defaults: seq<Bundle>, matched: seq<Bundle>, skipTenant: bool,
    mergeTenant: bool, builtin: Bundle)

  function Merged(a: seq<Bundle>, b: seq<Bundle>): seq<Bundle> {
    First(KeyOf(), a + b)
  }

  function FastPolicies(c: Call): seq<Bundle> {
    if !c.hasBundle then c.own
    else if c.requested != [] then Merged(c.requested, c.own)
    else if c.own == [] && !c.skipTenant then Merged(c.defaults, c.matched)
    else c.own
  }

  function FullPolicies(c: Call): seq<Bundle> {
    var fast := FastPolicies(c);
    if c.hasBundle && c.requested != [] && c.mergeTenant then Merged(Merged(fast, c.defaults), c.matched)
    else if !c.hasBundle && c.own == [] then [c.builtin]
    else fast
  }

  /** Whatever the pre-flight evaluates, the full evaluation evaluates too, first and in the same order. */
  lemma FastPrefix(c: Call)
    ensures FastPolicies(c) <= FullPolicies(c)
  {
    var fast := FastPolicies(c);
    if c.hasBundle && c.requested != [] && c.mergeTenant {
      FirstTwice(KeyOf(), c.requested + c.own);
      MergeAppends(fast, c.defaults);
      FirstTwice(KeyOf(), fast + c.defaults);
      MergeAppends(Merged(fast, c.defaults), c.matched);
    }
  }

  // ---------------------------------------------------------------- the two evaluations

  function CheckPolicies(bs: seq<Bundle>): seq<RC.Policy> {
    seq(|bs|, i requires 0 <= i < |bs| => bs[i].checks)
  }

  function RulePolicies(bs: seq<Bundle>): seq<LP.LocalPolicy> {
    seq(|bs|, i requires 0 <= i < |bs| => bs[i].rules)
  }

  function Spell(o: Outcome): string {
    match o
    case Allow => "allow"
    case Redact => "redact"
    case Sandbox => "sandbox"
    case Deny => "deny"
  }

  function SummaryText(s: RC.Summary): string {
    match s
    case Told(text) => seq(|text|, i requires 0 <= i < |text| => text[i] as char)
    case Untold(check) => "Guardrail check " + check + " failed"
  }

  function FromChecks(fs: seq<RC.Finding>): seq<Verdict> {
    seq(|fs|, i requires 0 <= i < |fs| => Verdict(Spell(fs[i].outcome), SummaryText(fs[i].summary)))
  }

  function FromRules(fs: seq<LP.LocalFinding>): seq<Verdict> {
    seq(|fs|, i requires 0 <= i < |fs| => Verdict(Spell(fs[i].outcome), fs[i].summary))
  }

  ghost function Skips(c: Call): RC.Policy -> bool {
    p => RC.Skipped(c.engine, c.request, p)
  }

  ghost function CheckReport(c: Call, bs: seq<Bundle>): RC.Report {
    RC.Run(c.engine, c.request, CheckPolicies(bs), Skips(c))
  }

  ghost function RuleFindings(c: Call, bs: seq<Bundle>): seq<LP.LocalFinding> {
    LP.Findings(c.lib, RulePolicies(bs), RC.PickContent(c.request), c.tool,
                LP.ClearedBy(c.lib, RC.PickContent(c.request)))
  }

  ghost predicate Sound(c: Call) {
    RC.Faithful(c.engine) && LP.Exact(c.lib)
  }

  /** Findings of the in-process paths over some policies. */
  ghost function InProcess(c: Call, bs: seq<Bundle>): seq<Verdict> {
    FromChecks(CheckReport(c, bs).findings) + FromRules(RuleFindings(c, bs))
  }

  // ---------------------------------------------------------------- the verdict told from the findings' own outcomes

  /** Some check or rule finding over these policies has this outcome. */
  ghost predicate Judges(c: Call, bs: seq<Bundle>, o: Outcome) {
    || (exists i :: 0 <= i < |CheckReport(c, bs).findings| && CheckReport(c, bs).findings[i].outcome == o)
    || (exists i :: 0 <= i < |RuleFindings(c, bs)| && RuleFindings(c, bs)[i].outcome == o)
  }

  /** An outcome keeps its gravity through the way findings spell it. */
  lemma SpellKeepsRank(o: Outcome, summary: string)
    ensures var rank := RankOf(Verdict(Spell(o), summary));
            match o case Allow => rank == 0 case Redact => rank == 1 case Sandbox => rank == 2 case Deny => rank == 3
  {
    Trimming.TrimFixed(IsBlank, "allow");
    Trimming.TrimFixed(IsBlank, "redact");
    Trimming.TrimFixed(IsBlank, "sandbox");
    Trimming.TrimFixed(IsBlank, "deny");
    assert Normal("allow") == "allow" && Normal("redact") == "redact" && Normal("sandbox") == "sandbox"
           && Normal("deny") == "deny";
  }

  /** Gravity of an outcome, worst last. */
  predicate AtLeast(o: Outcome, k: nat) {
    match k
    case 0 => true
    case 1 => !o.Allow?
    case 2 => o.Sandbox? || o.Deny?
    case 3 => o.Deny?
    case _ => false
  }

  lemma ChecksAtLeast(fs: seq<RC.Finding>, k: nat)
    requires k > 0
    ensures Reaches(FromChecks(fs), k) <==> exists i :: 0 <= i < |fs| && AtLeast(fs[i].outcome, k)
  {
    forall i | 0 <= i < |fs|
      ensures RankOf(FromChecks(fs)[i]) >= k <==> AtLeast(fs[i].outcome, k)
    {
      SpellKeepsRank(fs[i].outcome, SummaryText(fs[i].summary));
    }
  }

  lemma RulesAtLeast(fs: seq<LP.LocalFinding>, k: nat)
    requires k > 0
    ensures Reaches(FromRules(fs), k) <==> exists i :: 0 <= i < |fs| && AtLeast(fs[i].outcome, k)
  {
    forall i | 0 <= i < |fs|
      ensures RankOf(FromRules(fs)[i]) >= k <==> AtLeast(fs[i].outcome, k)
    {
      SpellKeepsRank(fs[i].outcome, fs[i].summary);
    }
  }

  ghost predicate SomeAtLeast(c: Call, bs: seq<Bundle>, k: nat) {
    || (exists i :: 0 <= i < |CheckReport(c, bs).findings| && AtLeast(CheckReport(c, bs).findings[i].outcome, k))
    || (exists i :: 0 <= i < |RuleFindings(c, bs)| && AtLeast(RuleFindings(c, bs)[i].outcome, k))
  }

  lemma ReachesAtLeast(c: Call, bs: seq<Bundle>, k: nat)
    requires k > 0
    ensures Reaches(InProcess(c, bs), k) <==> SomeAtLeast(c, bs, k)
  {
    var checks, rules := CheckReport(c, bs).findings, RuleFindings(c, bs);
    ReachesAppend(FromChecks(checks), FromRules(rules), k);
    ChecksAtLeast(checks, k);
    RulesAtLeast(rules, k);
  }

  /** The in-process findings reach a rank exactly when some finding's own outcome is that grave. */
  lemma OutcomesReach(c: Call, bs: seq<Bundle>)
    ensures Reaches(InProcess(c, bs), 3) <==> Judges(c, bs, RC.Deny)
    ensures Reaches(InProcess(c, bs), 2) <==> Judges(c, bs, RC.Sandbox) || Judges(c, bs, RC.Deny)
    ensures Reaches(InProcess(c, bs), 1) <==>
            Judges(c, bs, RC.Redact) || Judges(c, bs, RC.Sandbox) || Judges(c, bs, RC.Deny)
  {
    ReachesAtLeast(c, bs, 1);
    ReachesAtLeast(c, bs, 2);
    ReachesAtLeast(c, bs, 3);
  }

  /** The decision the findings' own outcomes call for, with `more` verdicts beside them. */
  ghost predicate ByOutcomes(d: Decision, c: Call, bs: seq<Bundle>, more: seq<Verdict>, redacted: bool) {
    && (d.Denied? <==> Judges(c, bs, RC.Deny) || Reaches(more, 3))
    && (d.Sandboxed? <==> !d.Denied? && (Judges(c, bs, RC.Sandbox) || Reaches(more, 2)))
    && (d.AllowedWithRedaction? <==>
          !d.Denied? && !d.Sandboxed? && (Judges(c, bs, RC.Redact) || Reaches(more, 1) || redacted))
  }

  lemma OutcomesDecide(c: Call, bs: seq<Bundle>, more: seq<Verdict>, redacted: bool)
    ensures ByOutcomes(Decide(InProcess(c, bs) + more, redacted), c, bs, more, redacted)
  {
    OutcomesReach(c, bs);
    ReachesAppend(InProcess(c, bs), more, 1);
    ReachesAppend(InProcess(c, bs), more, 2);
    ReachesAppend(InProcess(c, bs), more, 3);
  }

  lemma FindingsDecide(c: Call, bs: seq<Bundle>, redacted: bool)
    ensures ByOutcomes(Decide(InProcess(c, bs), redacted), c, bs, [], redacted)
  {
    OutcomesReach(c, bs);
  }

  // ---------------------------------------------------------------- responses

  datatype Redaction = ByCheck(check: string, summary: RC.Summary) | ByRule(category: string, found: Text)

  datatype Response = Response(
    decision: Decision, reason: string, findings: seq<Verdict>, redactions: seq<Redaction>, input: Text, output: Text)

  function CheckRedactions(rs: seq<(string, RC.Summary)>): seq<Redaction> {
    seq(|rs|, i requires 0 <= i < |rs| => ByCheck(rs[i].0, rs[i].1))
  }

  function RuleRedactions(rs: seq<(string, Text)>): seq<Redaction> {
    seq(|rs|, i requires 0 <= i < |rs| => ByRule(rs[i].0, rs[i].1))
  }

  ghost function Redactions(c: Call, bs: seq<Bundle>): seq<Redaction> {
    CheckRedactions(CheckReport(c, bs).redactions)
    + RuleRedactions(LP.Redactions(c.lib, RulePolicies(bs), RC.PickContent(c.request),
                                   LP.ClearedBy(c.lib, RC.PickContent(c.request))))
  }

  /** The text the rules leave of one of the request's texts. */
  ghost function RuleText(c: Call, bs: seq<Bundle>, original: Text): Text {
    LP.Sanitized(c.lib, RulePolicies(bs), RC.PickContent(c.request), LP.ClearedBy(c.lib, RC.PickContent(c.request)),
                 original)
  }

  /** A response over these policies and findings, with the texts merged by `prefer`. */
  ghost predicate Answers(c: Call, bs: seq<Bundle>, found: seq<Verdict>, prefer: (Text, Text, Text) -> Text,
      resp: Response) {
    && resp.findings == found && resp.redactions == Redactions(c, bs)
    && resp.decision == Decide(found, Redactions(c, bs) != [])
    && Explains(resp.reason, found, Redactions(c, bs) != [])
    && resp.input == prefer(c.request.input, CheckReport(c, bs).input, RuleText(c, bs, c.request.input))
    && resp.output == prefer(c.request.output, CheckReport(c, bs).output, RuleText(c, bs, c.request.output))
  }

  function SlowFindings(slow: Slow, cancelled: bool): seq<Verdict> {
    slow.mcp + slow.providers(cancelled) + slow.modality(cancelled)
  }

  /** Everything found over the full policies when the slow paths are cancelled or not. */
  ghost function AllFound(c: Call, slow: Slow, cancelled: bool): seq<Verdict> {
    InProcess(c, FullPolicies(c)) + SlowFindings(slow, cancelled)
  }

  /** A fast path already blocks. */
  ghost predicate Settled(c: Call) {
    Reaches(InProcess(c, FullPolicies(c)), 2)
  }

  method ChoosePolicies(c: Call) returns (policies: seq<Bundle>)
    ensures policies == FullPolicies(c)
  {
    policies := c.own;
    if c.hasBundle {
      if |c.requested| > 0 {
        policies := MergePolicies(c.requested, policies);
        if c.mergeTenant {
          policies := MergePolicies(policies, c.defaults);
          policies := MergePolicies(policies, c.matched);
        }
      } else if |policies| == 0 {
        if !c.skipTenant {
          policies := MergePolicies(c.defaults, c.matched);
        }
      }
    }
    if |policies| == 0 && !c.hasBundle && |c.own| == 0 {
      policies := [c.builtin];
    }
  }

  /** Runs both in-process paths. */
  method RunInProcess(c: Call, bs: seq<Bundle>) returns (checks: RC.Report, rules: LP.LocalReport)
    requires Sound(c)
    ensures checks == CheckReport(c, bs)
    ensures LP.Reports(rules, c.lib, RulePolicies(bs), c.request, c.tool,
                       LP.ClearedBy(c.lib, RC.PickContent(c.request)))
  {
    checks := RC.Evaluate(c.engine, c.request, CheckPolicies(bs), Skips(c));
    rules := LP.EvaluateLocal(c.lib, RulePolicies(bs), c.request, c.tool);
  }

  /** The response from both paths' reports and everything found. */
  method Respond(c: Call, ghost bs: seq<Bundle>, checks: RC.Report, rules: LP.LocalReport, found: seq<Verdict>,
      prefer: (Text, Text, Text) -> Text) returns (resp: Response)
    requires checks == CheckReport(c, bs)
    requires LP.Reports(rules, c.lib, RulePolicies(bs), c.request, c.tool,
                        LP.ClearedBy(c.lib, RC.PickContent(c.request)))
    ensures Answers(c, bs, found, prefer, resp)
  {
    var redactions := CheckRedactions(checks.redactions) + RuleRedactions(rules.redactions);
    var decision, reason := ResolveDecision(found, |redactions|);
    resp := Response(decision, reason, found, redactions, prefer(c.request.input, checks.input, rules.input),
                     prefer(c.request.output, checks.output, rules.output));
  }

  /** The text a pre-flight reports: the checks' rewriting if there is one, else the rules'. */
  function PreferChecks(original: Text, checks: Text, rules: Text): Text {
    if !RC.Blank(checks) && checks != original then checks
    else if rules != original then rules
    else []
  }

  /** The text a full evaluation reports: the rules' rewriting if there is one, else the checks'. */
  function PreferRules(original: Text, checks: Text, rules: Text): Text {
    if rules != original then rules
    else if !RC.Blank(checks) && checks != original then checks
    else []
  }

  lemma NothingToEvaluate(c: Call)
    ensures InProcess(c, []) == [] && Redactions(c, []) == []
    ensures CheckReport(c, []).input == c.request.input && CheckReport(c, []).output == c.request.output
    ensures RuleText(c, [], c.request.input) == c.request.input && RuleText(c, [], c.request.output) == c.request.output
  {
    assert CheckPolicies([]) == [] && RulePolicies([]) == [];
  }

  /** The answer to a request no policy applies to. */
  const UNTOUCHED := Response(Allowed, "No guardrail violations detected", [], [], [], [])

  lemma NothingAnswers(c: Call)
    ensures Answers(c, [], InProcess(c, []), PreferChecks, UNTOUCHED)
  {
    NothingToEvaluate(c);
  }

  method EvaluateFastOnly(c: Call) returns (resp: Response)
    requires Sound(c)
    ensures Answers(c, FastPolicies(c), InProcess(c, FastPolicies(c)), PreferChecks, resp)
    ensures ByOutcomes(resp.decision, c, FastPolicies(c), [], resp.redactions != [])
  {
    FindingsDecide(c, FastPolicies(c), Redactions(c, FastPolicies(c)) != []);
    resp := UNTOUCHED;
    var policies := c.own;
    if c.hasBundle {
      if |c.requested| > 0 {
        policies := MergePolicies(c.requested, policies);
      } else if |policies| == 0 && !c.skipTenant {
        policies := MergePolicies(c.defaults, c.matched);
      }
    }
    if |policies| == 0 {
      NothingAnswers(c);
      return;
    }
    var checks, rules := RunInProcess(c, policies);
    resp := Respond(c, policies, checks, rules, FromChecks(checks.findings) + FromRules(rules.findings), PreferChecks);
  }

  /** What the slow paths deliver; the providers and detectors may stop early once cancelled. */
  datatype Slow = Slow(mcp: seq<Verdict>, providers: bool -> seq<Verdict>, modality: bool -> seq<Verdict>)

  /** Some in-process finding blocks by its own outcome. */
  ghost predicate FastBlock(c: Call) {
    Judges(c, FullPolicies(c), RC.Sandbox) || Judges(c, FullPolicies(c), RC.Deny)
  }

  /** The full evaluation of a stage other than RAG; the slow paths are cancelled exactly when a fast path blocks. */
  method Evaluate(c: Call, slow: Slow) returns (resp: Response)
    requires Sound(c)
    ensures Answers(c, FullPolicies(c), AllFound(c, slow, Settled(c)), PreferRules, resp)
    ensures Settled(c) <==> FastBlock(c)
    ensures ByOutcomes(resp.decision, c, FullPolicies(c), SlowFindings(slow, FastBlock(c)), resp.redactions != [])
  {
    OutcomesReach(c, FullPolicies(c));
    OutcomesDecide(c, FullPolicies(c), SlowFindings(slow, Settled(c)), Redactions(c, FullPolicies(c)) != []);
    var policies := ChoosePolicies(c);
    var checks, rules := RunInProcess(c, policies);
    var byChecks := HasGatingDeny(FromChecks(checks.findings));
    var byRules := HasGatingDeny(FromRules(rules.findings));
    var decided := byChecks || byRules;
    ReachesAppend(FromChecks(checks.findings), FromRules(rules.findings), 2);
    var found := FromChecks(checks.findings) + FromRules(rules.findings) + SlowFindings(slow, decided);
    resp := Respond(c, policies, checks, rules, found, PreferRules);
  }
}
