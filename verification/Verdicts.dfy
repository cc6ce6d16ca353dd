/** What policies in monitor mode can do to a request, and how words of the slow paths turn into verdicts. */
module Verdicts {
  import opened Options
  import opened Strings
  import opened CheckOutcomes
  import opened GuardDecision
  import RC = RuntimeChecks
  import LP = LocalPolicies
  import Trimming

  // ---------------------------------------------------------------- monitoring

  lemma MonitoredCheck(c: Call, bs: seq<Bundle>, f: RC.Finding)
    requires (forall b :: b in bs ==> Lower(b.checks.mode) == "monitor") && f in CheckReport(c, bs).findings
    ensures f.outcome == RC.Allow
  {
    forall p | p in CheckPolicies(bs)
      ensures Lower(p.mode) == "monitor"
    {
      var i :| 0 <= i < |bs| && p == bs[i].checks;
    }
    MonitorAllows(c.engine, c.request, CheckPolicies(bs), Skips(c));
  }

  lemma MonitoredSays(c: Call, p: LP.LocalPolicy, f: LP.LocalFinding)
    requires Normal(p.mode) == "monitor" && LP.Says(f, c.lib, p, RC.PickContent(c.request), c.tool)
    ensures f.outcome == RC.Allow
  {
  }

  lemma RulesMonitored(bs: seq<Bundle>, p: LP.LocalPolicy)
    requires (forall b :: b in bs ==> Normal(b.rules.mode) == "monitor") && p in RulePolicies(bs)
    ensures Normal(p.mode) == "monitor"
  {
    var i :| 0 <= i < |bs| && p == bs[i].rules;
    assert bs[i] in bs;
  }

  lemma MonitoredRule(c: Call, bs: seq<Bundle>, f: LP.LocalFinding)
    requires (forall b :: b in bs ==> Normal(b.rules.mode) == "monitor") && f in RuleFindings(c, bs)
    ensures f.outcome == RC.Allow
  {
    var target := RC.PickContent(c.request);
    LP.FindingStems(c.lib, RulePolicies(bs), target, c.tool, LP.ClearedBy(c.lib, target), f);
    var p :| p in RulePolicies(bs) && LP.Says(f, c.lib, p, target, c.tool);
    RulesMonitored(bs, p);
    MonitoredSays(c, p, f);
  }

  lemma OnlyReported(c: Call, bs: seq<Bundle>, o: Outcome)
    requires (forall b :: b in bs ==> Lower(b.checks.mode) == "monitor" && Normal(b.rules.mode) == "monitor")
             && o != RC.Allow
    ensures !Judges(c, bs, o)
  {
    var checks, rules := CheckReport(c, bs).findings, RuleFindings(c, bs);
    if i :| 0 <= i < |checks| && checks[i].outcome == o {
      MonitoredCheck(c, bs, checks[i]);
    }
    if i :| 0 <= i < |rules| && rules[i].outcome == o {
      MonitoredRule(c, bs, rules[i]);
    }
  }

  /** Policies that only monitor never block: the most they do to a request is redact it. */
  lemma MonitorNeverBlocks(c: Call, bs: seq<Bundle>)
    requires forall b :: b in bs ==> Lower(b.checks.mode) == "monitor" && Normal(b.rules.mode) == "monitor"
    ensures var redacted := Redactions(c, bs) != [];
            Decide(InProcess(c, bs), redacted) == if redacted then AllowedWithRedaction else Allowed
  {
    OnlyReported(c, bs, RC.Redact);
    OnlyReported(c, bs, RC.Sandbox);
    OnlyReported(c, bs, RC.Deny);
    OutcomesReach(c, bs);
  }

  /** The check evaluator ignores the case of a mode but not the blanks around it, the rule evaluator ignores both. */
  lemma MonitorsAgreeExactly(mode: string)
    ensures (Lower(mode) == "monitor" <==> Normal(mode) == "monitor") <==>
            (Normal(mode) == "monitor" ==> Trim(mode) == mode)
  {
    if Lower(mode) == "monitor" {
      LowerIs(mode, "monitor");
      assert SameButCase(mode[0], 'm') && SameButCase(mode[6], 'r');
      Trimming.TrimFixed(IsBlank, mode);
    }
  }

  const PADDED := " monitor"

  lemma PaddedMonitors()
    ensures Normal(PADDED) == "monitor" && Lower(PADDED) != "monitor"
  {
    assert |Lower(PADDED)| == 8;
    assert PADDED == " " + "monitor" + "";
    NormalFinds(" ", "monitor", "", "monitor");
  }

  /** A policy in a padded monitor mode: the same wish to deny is a report from a rule and a denial from a check. */
  lemma PaddedMonitorDenies(p: RC.Policy, k: RC.Check, a: RC.Answer, q: LP.LocalPolicy, f: RC.Finding,
      g: LP.LocalFinding)
    requires p.mode == q.mode == PADDED && !k.action.async && !k.action.passThrough && k.action.onFail == RC.Deny
    requires Stems(f, p, k, a) && a.result.override == None && LP.Outcomes(g, q, RC.Deny)
    ensures f.outcome == RC.Deny && g.outcome == RC.Allow
  {
    PaddedMonitors();
  }

  // ---------------------------------------------------------------- words of the slow paths

  /** The words that ask for a denial. */
  const DENIALS: set<string> := {"block", "deny", "approval", "human_approval", "review"}

  /** The words that ask for a redaction. */
  const REDACTIONS: set<string> := {"redact", "allow_with_redaction"}

  lemma WordIsSolid(core: string, word: string)
    requires (word in DENIALS || word in REDACTIONS || word == "sandbox") && Recased(core, word)
    ensures Trimming.Solid(IsBlank, core) && Lowercase(word)
  {
    assert SameButCase(core[0], word[0]) && SameButCase(core[|core| - 1], word[|word| - 1]);
  }

  lemma WordRanks(a: string, core: string, b: string, word: string, summary: string)
    requires (word in DENIALS || word in REDACTIONS || word == "sandbox") && Recased(core, word)
    requires Trimming.AllBlank(IsBlank, a) && Trimming.AllBlank(IsBlank, b)
    ensures RankOf(Verdict(a + core + b, summary)) == if word in DENIALS then 3 else if word == "sandbox" then 2 else 1
  {
    WordIsSolid(core, word);
    NormalFinds(a, core, b, word);
  }

  lemma GravestDenies(c: Call, slow: Slow, cancelled: bool, v: Verdict)
    requires v in SlowFindings(slow, cancelled) && RankOf(v) == 3
    ensures Decide(AllFound(c, slow, cancelled), Redactions(c, FullPolicies(c)) != []) == Denied
  {
    var found := SlowFindings(slow, cancelled);
    var i :| 0 <= i < |found| && found[i] == v;
    ReachesAppend(InProcess(c, FullPolicies(c)), found, 3);
  }

  /** A slow path that spells one of them, in any casing and padding, denies the request. */
  lemma WordDenies(c: Call, slow: Slow, cancelled: bool, v: Verdict, a: string, core: string, b: string, word: string)
    requires v in SlowFindings(slow, cancelled) && word in DENIALS && Recased(core, word)
    requires v.outcome == a + core + b && Trimming.AllBlank(IsBlank, a) && Trimming.AllBlank(IsBlank, b)
    ensures Decide(AllFound(c, slow, cancelled), Redactions(c, FullPolicies(c)) != []) == Denied
  {
    WordRanks(a, core, b, word, v.summary);
    GravestDenies(c, slow, cancelled, v);
  }
}
