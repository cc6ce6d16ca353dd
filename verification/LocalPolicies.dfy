/**
 The guard's local evaluator: one union pattern in front of a policy's rules, the rules themselves, and the
 checks of the tool context. The reference is the same evaluator without the union.
 */
module LocalPolicies {
  import opened Options
  import opened Bytes
  import opened RegexLiterals
  import opened Strings
  import opened RuntimeChecks

  datatype Rule = Rule(category: string, pattern: Regex, severity: string, outcome: Outcome, summary: string)

  /** `defaults` are the built-in rules, used when the policy's definition yields none; the shipped ones are empty. */
  datatype LocalPolicy = LocalPolicy(
    id: string, name: string, mode: string, rules: seq<Rule>, defaults: seq<Rule>, blocked: seq<string>,
    allowed: seq<string>, denied: seq<string>)

  datatype ToolContext = ToolContext(domains: seq<string>, actionClass: string)

  datatype LocalFinding = LocalFinding(policyId: string, category: string, severity: string, outcome: Outcome,
      summary: string, matches: seq<Text>)

  datatype LocalChain =
    UnionMissed(policy: string) | RuleMatched(policy: string, category: string) | ToolBlocked(category: string)

  datatype LocalReport = LocalReport(findings: seq<LocalFinding>, redactions: seq<(string, Text)>, input: Text,
      output: Text, chain: seq<LocalChain>)

  /** The regex library and the byte scanners some categories use instead of it. */
  datatype Library = Library(
    unionCompiles: seq<Regex> -> bool, matchString: (Regex, Text) -> bool, findAll: (Regex, Text) -> seq<Text>,
    replaceAll: (Regex, Text) -> Text, scanner: string -> Option<Text -> seq<Text>>)

  ghost predicate Exact(lib: Library) {
    && (forall re, t :: lib.matchString(re, t) <==> Matches(re, t))
    && (forall re, t :: lib.findAll(re, t) != [] <==> Matches(re, t))
  }

  // ---------------------------------------------------------------- one policy

  function RulesOf(p: LocalPolicy): seq<Rule> {
    if p.rules == [] then p.defaults else p.rules
  }

  function OutcomeFor(p: LocalPolicy, o: Outcome): Outcome {
    if Normal(p.mode) == "monitor" then Allow else o
  }

  function Hits(lib: Library, rule: Rule, target: Text): seq<Text> {
    match lib.scanner(rule.category)
    case Some(scan) => scan(target)
    case None => lib.findAll(rule.pattern, target)
  }

  function RuleFinding(lib: Library, p: LocalPolicy, rule: Rule, target: Text): LocalFinding {
    LocalFinding(p.id, rule.category, rule.severity, OutcomeFor(p, rule.outcome), rule.summary, Hits(lib, rule, target))
  }

  function RuleFindings(lib: Library, p: LocalPolicy, rules: seq<Rule>, target: Text): seq<LocalFinding> {
    if rules == [] then []
    else
      var last := rules[|rules| - 1];
      RuleFindings(lib, p, rules[..|rules| - 1], target)
          + if Hits(lib, last, target) == [] then [] else [RuleFinding(lib, p, last, target)]
  }

  function RuleRedactions(lib: Library, rules: seq<Rule>, target: Text): seq<(string, Text)> {
    if rules == [] then []
    else
      var last := rules[|rules| - 1];
      var hits := Hits(lib, last, target);
      RuleRedactions(lib, rules[..|rules| - 1], target)
          + if hits == [] || last.outcome != Redact then [] else [(last.category, hits[0])]
  }

  /** What the redacting rules leave of a text; an empty request text stays as it is. */
  function Redacted(lib: Library, rules: seq<Rule>, target: Text, original: Text, text: Text): Text {
    if rules == [] || original == [] then text
    else
      var last := rules[|rules| - 1];
      var before := Redacted(lib, rules[..|rules| - 1], target, original, text);
      if Hits(lib, last, target) == [] || last.outcome != Redact then before else lib.replaceAll(last.pattern, before)
  }

  predicate Listed(names: seq<string>, name: string) {
    exists i :: 0 <= i < |names| && Normal(names[i]) == Normal(name)
  }

  function ToolFinding(p: LocalPolicy, category: string, severity: string, subject: string): LocalFinding {
    LocalFinding(p.id, category, severity, OutcomeFor(p, Deny), subject, [])
  }

  function BlockedIn(p: LocalPolicy, blocked: string, domains: seq<string>): seq<LocalFinding> {
    if domains == [] then []
    else
      var d := domains[|domains| - 1];
      BlockedIn(p, blocked, domains[..|domains| - 1])
          + if Normal(d) == Normal(blocked) then [ToolFinding(p, "blocked_domain", "high", d)] else []
  }

  function BlockedFindings(p: LocalPolicy, blocked: seq<string>, domains: seq<string>): seq<LocalFinding> {
    if blocked == [] then []
    else BlockedFindings(p, blocked[..|blocked| - 1], domains) + BlockedIn(p, blocked[|blocked| - 1], domains)
  }

  function ToolFindings(p: LocalPolicy, tool: Option<ToolContext>): seq<LocalFinding> {
    match tool
    case None => []
    case Some(t) =>
      BlockedFindings(p, p.blocked, t.domains)
      + (if p.allowed == [] || Listed(p.allowed, t.actionClass) then []
         else [ToolFinding(p, "action_scope", "critical", t.actionClass)])
      + (if Listed(p.denied, t.actionClass) then [ToolFinding(p, "denied_action_class", "high", t.actionClass)] else [])
  }

  // ---------------------------------------------------------------- what findings say

  /** A monitored policy only reports. */
  predicate Outcomes(f: LocalFinding, p: LocalPolicy, wanted: Outcome) {
    f.outcome == if Normal(p.mode) == "monitor" then Allow else wanted
  }

  /** The finding of a rule that hits: by its category's byte scanner if there is one, else by its pattern. */
  predicate RuleSays(f: LocalFinding, lib: Library, p: LocalPolicy, rule: Rule, target: Text) {
    && f.policyId == p.id && f.category == rule.category && f.severity == rule.severity && f.summary == rule.summary
    && Outcomes(f, p, rule.outcome) && f.matches != []
    && (lib.scanner(rule.category).Some? ==> f.matches == lib.scanner(rule.category).value(target))
    && (lib.scanner(rule.category).None? ==> f.matches == lib.findAll(rule.pattern, target))
  }

  ghost predicate SameName(names: seq<string>, name: string) {
    exists n :: n in names && Normal(n) == Normal(name)
  }

  /** A tool finding: a domain the policy blocks, a class outside its allowed ones, or a class it denies. */
  ghost predicate ToolSays(f: LocalFinding, p: LocalPolicy, t: ToolContext) {
    && f.policyId == p.id && f.matches == [] && Outcomes(f, p, Deny)
    && (|| (f.category == "blocked_domain" && f.severity == "high" && f.summary in t.domains
            && SameName(p.blocked, f.summary))
        || (f.category == "action_scope" && f.severity == "critical" && f.summary == t.actionClass
            && p.allowed != [] && !SameName(p.allowed, t.actionClass))
        || (f.category == "denied_action_class" && f.severity == "high" && f.summary == t.actionClass
            && SameName(p.denied, t.actionClass)))
  }

  ghost predicate Says(f: LocalFinding, lib: Library, p: LocalPolicy, target: Text, tool: Option<ToolContext>) {
    || (exists rule :: (rule in p.rules || (p.rules == [] && rule in p.defaults)) && RuleSays(f, lib, p, rule, target))
    || (tool.Some? && ToolSays(f, p, tool.value))
  }

  /** The findings of some rules are what those of them that hit say. */
  lemma {:induction false} RuleFindingsAre(lib: Library, p: LocalPolicy, rules: seq<Rule>, target: Text,
      f: LocalFinding)
    ensures f in RuleFindings(lib, p, rules, target) <==>
            exists rule :: rule in rules && RuleSays(f, lib, p, rule, target)
  {
    if rules != [] {
      var before, last := rules[..|rules| - 1], rules[|rules| - 1];
      RuleFindingsAre(lib, p, before, target, f);
      assert rules == before + [last];
      assert f in RuleFindings(lib, p, rules, target) <==>
             f in RuleFindings(lib, p, before, target) || RuleSays(f, lib, p, last, target);
    }
  }

  lemma {:induction false} BlockedInHas(p: LocalPolicy, blocked: string, domains: seq<string>, f: LocalFinding)
    ensures f in BlockedIn(p, blocked, domains) <==>
            f.summary in domains && Normal(f.summary) == Normal(blocked)
                && f == ToolFinding(p, "blocked_domain", "high", f.summary)
  {
    if domains != [] {
      var before, d := domains[..|domains| - 1], domains[|domains| - 1];
      BlockedInHas(p, blocked, before, f);
      assert domains == before + [d];
    }
  }

  lemma SameNameNext(names: seq<string>, n: string, name: string)
    ensures SameName(names + [n], name) <==> SameName(names, name) || Normal(n) == Normal(name)
  {
  }

  lemma BlockedNext(p: LocalPolicy, before: seq<string>, b: string, domains: seq<string>)
    ensures BlockedFindings(p, before + [b], domains) == BlockedFindings(p, before, domains) + BlockedIn(p, b, domains)
  {
    assert (before + [b])[..|before|] == before;
  }

  /** `f` is the finding for a domain of the call. */
  predicate AboutDomain(p: LocalPolicy, domains: seq<string>, f: LocalFinding) {
    f.summary in domains && f == ToolFinding(p, "blocked_domain", "high", f.summary)
  }

  lemma {:induction false} BlockedHas(p: LocalPolicy, blocked: seq<string>, domains: seq<string>, f: LocalFinding)
    ensures f in BlockedFindings(p, blocked, domains) <==> AboutDomain(p, domains, f) && SameName(blocked, f.summary)
  {
    if blocked != [] {
      var before, b := blocked[..|blocked| - 1], blocked[|blocked| - 1];
      assert blocked == before + [b];
      BlockedNext(p, before, b, domains);
      BlockedHas(p, before, domains, f);
      BlockedInHas(p, b, domains, f);
      SameNameNext(before, b, f.summary);
    }
  }

  lemma ListedIs(names: seq<string>, name: string)
    ensures Listed(names, name) <==> SameName(names, name)
  {
    if n :| n in names && Normal(n) == Normal(name) {
      var i :| 0 <= i < |names| && names[i] == n;
    }
  }

  /** The tool findings are the policy's objections to the tool context. */
  lemma ToolFindingsAre(p: LocalPolicy, t: ToolContext, f: LocalFinding)
    ensures f in ToolFindings(p, Some(t)) <==> ToolSays(f, p, t)
  {
    BlockedHas(p, p.blocked, t.domains, f);
    ListedIs(p.allowed, t.actionClass);
    ListedIs(p.denied, t.actionClass);
  }

  // ---------------------------------------------------------------- the union in front of the rules

  function Patterns(rules: seq<Rule>): seq<Regex> {
    seq(|rules|, i requires 0 <= i < |rules| => rules[i].pattern)
  }

  /** The union is tried, misses, and no rule relies on a byte scanner. */
  ghost predicate Cleared(lib: Library, p: LocalPolicy, target: Text) {
    var rules := RulesOf(p);
    && rules != [] && lib.unionCompiles(Patterns(rules))
    && !Matches(Alternate(Patterns(rules)), target)
    && forall i :: 0 <= i < |rules| ==> lib.scanner(rules[i].category).None?
  }

  // ---------------------------------------------------------------- all policies; `clears` says which are cut short

  ghost function Findings(lib: Library, policies: seq<LocalPolicy>, target: Text, tool: Option<ToolContext>,
      clears: LocalPolicy -> bool): seq<LocalFinding> {
    if policies == [] then []
    else
      var p := policies[|policies| - 1];
      Findings(lib, policies[..|policies| - 1], target, tool, clears)
      + if clears(p) then [] else RuleFindings(lib, p, RulesOf(p), target) + ToolFindings(p, tool)
  }

  ghost function Redactions(lib: Library, policies: seq<LocalPolicy>, target: Text,
      clears: LocalPolicy -> bool): seq<(string, Text)> {
    if policies == [] then []
    else
      var p := policies[|policies| - 1];
      Redactions(lib, policies[..|policies| - 1], target, clears)
          + if clears(p) then [] else RuleRedactions(lib, RulesOf(p), target)
  }

  ghost function Sanitized(lib: Library, policies: seq<LocalPolicy>, target: Text, clears: LocalPolicy -> bool,
      original: Text): Text {
    if policies == [] then original
    else
      var p := policies[|policies| - 1];
      var before := Sanitized(lib, policies[..|policies| - 1], target, clears, original);
      if clears(p) then before else Redacted(lib, RulesOf(p), target, original, before)
  }

  ghost function ClearedBy(lib: Library, target: Text): LocalPolicy -> bool {
    p => Cleared(lib, p, target)
  }

  ghost function Never(): LocalPolicy -> bool {
    p => false
  }

  /** A report without its chain. */
  function Visible(rep: LocalReport): (seq<LocalFinding>, seq<(string, Text)>, Text, Text) {
    (rep.findings, rep.redactions, rep.input, rep.output)
  }

  /** The report's visible part for these policies. */
  ghost predicate Reports(rep: LocalReport, lib: Library, policies: seq<LocalPolicy>, r: Request,
      tool: Option<ToolContext>, clears: LocalPolicy -> bool) {
    var target := PickContent(r);
    Visible(rep) == (Findings(lib, policies, target, tool, clears), Redactions(lib, policies, target, clears),
                     Sanitized(lib, policies, target, clears, r.input),
                     Sanitized(lib, policies, target, clears, r.output))
  }

  // ---------------------------------------------------------------- the evaluator

  method UnionClears(lib: Library, p: LocalPolicy, target: Text) returns (clear: bool)
    requires Exact(lib)
    ensures clear <==> Cleared(lib, p, target)
  {
    var rules := RulesOf(p);
    if |rules| == 0 || !lib.unionCompiles(Patterns(rules)) || lib.matchString(Alternate(Patterns(rules)), target) {
      return false;
    }
    for i := 0 to |rules|
      invariant forall j :: 0 <= j < i ==> lib.scanner(rules[j].category).None?
    {
      if lib.scanner(rules[i].category).Some? {
        return false;
      }
    }
    return true;
  }

  ghost predicate AfterRules(lib: Library, p: LocalPolicy, r: Request, rules: seq<Rule>, rep0: LocalReport,
      rep: LocalReport) {
    var target := PickContent(r);
    Visible(rep) ==
    (rep0.findings + RuleFindings(lib, p, rules, target), rep0.redactions + RuleRedactions(lib, rules, target),
     Redacted(lib, rules, target, r.input, rep0.input),
     Redacted(lib, rules, target, r.output, rep0.output))
  }

  ghost predicate AfterRule(lib: Library, p: LocalPolicy, r: Request, rule: Rule, rep0: LocalReport, rep: LocalReport) {
    var hits := Hits(lib, rule, PickContent(r));
    var redacts := hits != [] && rule.outcome == Redact;
    Visible(rep) == (rep0.findings + (if hits == [] then [] else [RuleFinding(lib, p, rule, PickContent(r))]),
                     rep0.redactions + (if redacts then [(rule.category, hits[0])] else []),
                     if redacts && r.input != [] then lib.replaceAll(rule.pattern, rep0.input) else rep0.input,
                     if redacts && r.output != [] then lib.replaceAll(rule.pattern, rep0.output) else rep0.output)
  }

  method ApplyRule(lib: Library, p: LocalPolicy, r: Request, rule: Rule, rep0: LocalReport) returns (rep: LocalReport)
    ensures AfterRule(lib, p, r, rule, rep0, rep)
  {
    rep := rep0;
    assert rep0.findings + [] == rep0.findings && rep0.redactions + [] == rep0.redactions;
    var hits := Hits(lib, rule, PickContent(r));
    if |hits| == 0 {
      return;
    }
    rep := rep.(findings := rep.findings + [RuleFinding(lib, p, rule, PickContent(r))],
                chain := rep.chain + [RuleMatched(p.name, rule.category)]);
    if rule.outcome == Redact {
      rep := rep.(redactions := rep.redactions + [(rule.category, hits[0])]);
      if r.input != [] {
        rep := rep.(input := lib.replaceAll(rule.pattern, rep.input));
      }
      if r.output != [] {
        rep := rep.(output := lib.replaceAll(rule.pattern, rep.output));
      }
    }
  }

  lemma RulesNext(lib: Library, p: LocalPolicy, r: Request, rules: seq<Rule>, i: nat, rep0: LocalReport,
      before: LocalReport, rep: LocalReport)
    requires i < |rules| && AfterRules(lib, p, r, rules[..i], rep0, before)
             && AfterRule(lib, p, r, rules[i], before, rep)
    ensures AfterRules(lib, p, r, rules[..i + 1], rep0, rep)
  {
    assert rules[..i + 1][..i] == rules[..i];
    assert rep.findings == rep0.findings + RuleFindings(lib, p, rules[..i + 1], PickContent(r));
    assert rep.redactions == rep0.redactions + RuleRedactions(lib, rules[..i + 1], PickContent(r));
  }

  method EvaluateRules(lib: Library, p: LocalPolicy, r: Request, rep0: LocalReport) returns (rep: LocalReport)
    ensures AfterRules(lib, p, r, RulesOf(p), rep0, rep)
  {
    var rules, target := RulesOf(p), PickContent(r);
    rep := rep0;
    assert rep0.findings + [] == rep0.findings && rep0.redactions + [] == rep0.redactions;
    for i := 0 to |rules|
      invariant AfterRules(lib, p, r, rules[..i], rep0, rep)
    {
      ghost var before := rep;
      rep := ApplyRule(lib, p, r, rules[i], rep);
      RulesNext(lib, p, r, rules, i, rep0, before, rep);
    }
    assert rules[..|rules|] == rules;
  }

  method BlockedBy(p: LocalPolicy, blocked: string, domains: seq<string>) returns (found: seq<LocalFinding>)
    ensures found == BlockedIn(p, blocked, domains)
  {
    found := [];
    for j := 0 to |domains|
      invariant found == BlockedIn(p, blocked, domains[..j])
    {
      assert domains[..j + 1][..j] == domains[..j];
      if Normal(domains[j]) == Normal(blocked) {
        found := found + [ToolFinding(p, "blocked_domain", "high", domains[j])];
      }
    }
    assert domains[..|domains|] == domains;
  }

  method BlockedDomains(p: LocalPolicy, domains: seq<string>) returns (found: seq<LocalFinding>)
    ensures found == BlockedFindings(p, p.blocked, domains)
  {
    found := [];
    for i := 0 to |p.blocked|
      invariant found == BlockedFindings(p, p.blocked[..i], domains)
    {
      assert p.blocked[..i + 1][..i] == p.blocked[..i];
      var more := BlockedBy(p, p.blocked[i], domains);
      found := found + more;
    }
    assert p.blocked[..|p.blocked|] == p.blocked;
  }

  method EvaluateTool(p: LocalPolicy, tool: Option<ToolContext>, rep0: LocalReport) returns (rep: LocalReport)
    ensures rep.findings == rep0.findings + ToolFindings(p, tool)
    ensures rep.redactions == rep0.redactions && rep.input == rep0.input && rep.output == rep0.output
  {
    rep := rep0;
    if tool.None? {
      return;
    }
    var t := tool.value;
    var found := BlockedDomains(p, t.domains);
    var scope := p.allowed != [] && !Listed(p.allowed, t.actionClass);
    if scope {
      found := found + [ToolFinding(p, "action_scope", "critical", t.actionClass)];
    }
    var denied := Listed(p.denied, t.actionClass);
    if denied {
      found := found + [ToolFinding(p, "denied_action_class", "high", t.actionClass)];
    }
    rep := rep.(findings := rep.findings + found,
                chain := rep.chain + seq(|found|, i requires 0 <= i < |found| => ToolBlocked(found[i].category)));
  }

  lemma ReportsNext(lib: Library, policies: seq<LocalPolicy>, i: nat, r: Request, tool: Option<ToolContext>,
      clears: LocalPolicy -> bool, before: LocalReport, rep: LocalReport)
    requires i < |policies| && Reports(before, lib, policies[..i], r, tool, clears)
    requires var p, target := policies[i], PickContent(r);
             if clears(p) then rep.(chain := before.chain) == before
             else
               && rep.findings == before.findings + (RuleFindings(lib, p, RulesOf(p), target) + ToolFindings(p, tool))
               && rep.redactions == before.redactions + RuleRedactions(lib, RulesOf(p), target)
               && rep.input == Redacted(lib, RulesOf(p), target, r.input, before.input)
               && rep.output == Redacted(lib, RulesOf(p), target, r.output, before.output)
    ensures Reports(rep, lib, policies[..i + 1], r, tool, clears)
  {
    assert policies[..i + 1][..i] == policies[..i];
    assert rep.findings == Findings(lib, policies[..i + 1], PickContent(r), tool, clears);
    assert rep.redactions == Redactions(lib, policies[..i + 1], PickContent(r), clears);
  }

  method EvaluatePolicyRules(lib: Library, p: LocalPolicy, r: Request, tool: Option<ToolContext>, rep0: LocalReport)
    returns (rep: LocalReport)
    ensures rep.findings == rep0.findings + (RuleFindings(lib, p, RulesOf(p), PickContent(r)) + ToolFindings(p, tool))
    ensures rep.redactions == rep0.redactions + RuleRedactions(lib, RulesOf(p), PickContent(r))
    ensures rep.input == Redacted(lib, RulesOf(p), PickContent(r), r.input, rep0.input)
    ensures rep.output == Redacted(lib, RulesOf(p), PickContent(r), r.output, rep0.output)
  {
    rep := EvaluateRules(lib, p, r, rep0);
    assert rep.findings == rep0.findings + RuleFindings(lib, p, RulesOf(p), PickContent(r));
    rep := EvaluateTool(p, tool, rep);
    assert rep.findings == rep0.findings + RuleFindings(lib, p, RulesOf(p), PickContent(r)) + ToolFindings(p, tool);
  }

  /** The evaluator with its union fast path. */
  method EvaluateLocal(lib: Library, policies: seq<LocalPolicy>, r: Request, tool: Option<ToolContext>)
      returns (rep: LocalReport)
    requires Exact(lib)
    ensures Reports(rep, lib, policies, r, tool, ClearedBy(lib, PickContent(r)))
  {
    ghost var clears := ClearedBy(lib, PickContent(r));
    rep := LocalReport([], [], r.input, r.output, []);
    for i := 0 to |policies|
      invariant Reports(rep, lib, policies[..i], r, tool, clears)
    {
      ghost var before := rep;
      var clear := UnionClears(lib, policies[i], PickContent(r));
      if clear {
        rep := rep.(chain := rep.chain + [UnionMissed(policies[i].name)]);
      } else {
        rep := EvaluatePolicyRules(lib, policies[i], r, tool, rep);
      }
      ReportsNext(lib, policies, i, r, tool, clears, before, rep);
    }
    assert policies[..|policies|] == policies;
  }

  // ---------------------------------------------------------------- the union against the rules

  lemma UnionSilent(lib: Library, p: LocalPolicy, target: Text, i: nat)
    requires Exact(lib) && Cleared(lib, p, target) && i < |RulesOf(p)|
    ensures Hits(lib, RulesOf(p)[i], target) == []
  {
    UnionMatches(Patterns(RulesOf(p)), target);
    assert Patterns(RulesOf(p))[i] == RulesOf(p)[i].pattern;
  }

  lemma {:induction false} SilentRules(lib: Library, p: LocalPolicy, rules: seq<Rule>, target: Text, original: Text,
      text: Text)
    requires forall i :: 0 <= i < |rules| ==> Hits(lib, rules[i], target) == []
    ensures RuleFindings(lib, p, rules, target) == [] && RuleRedactions(lib, rules, target) == []
    ensures Redacted(lib, rules, target, original, text) == text
  {
    if rules != [] {
      SilentRules(lib, p, rules[..|rules| - 1], target, original, text);
    }
  }

  /** A cleared policy loses exactly its tool findings. */
  lemma ClearedLoses(lib: Library, p: LocalPolicy, target: Text, original: Text, text: Text)
    requires Exact(lib) && Cleared(lib, p, target)
    ensures RuleFindings(lib, p, RulesOf(p), target) == [] && RuleRedactions(lib, RulesOf(p), target) == []
    ensures Redacted(lib, RulesOf(p), target, original, text) == text
  {
    forall i | 0 <= i < |RulesOf(p)|
      ensures Hits(lib, RulesOf(p)[i], target) == []
    {
      UnionSilent(lib, p, target, i);
    }
    SilentRules(lib, p, RulesOf(p), target, original, text);
  }

  /** Redactions and texts never depend on the union. */
  lemma {:induction false} TextsAgree(lib: Library, policies: seq<LocalPolicy>, target: Text, original: Text)
    requires Exact(lib)
    ensures Redactions(lib, policies, target, ClearedBy(lib, target)) == Redactions(lib, policies, target, Never())
    ensures Sanitized(lib, policies, target, ClearedBy(lib, target), original) ==
            Sanitized(lib, policies, target, Never(), original)
  {
    if policies != [] {
      TextsAgree(lib, policies[..|policies| - 1], target, original);
      var p := policies[|policies| - 1];
      if Cleared(lib, p, target) {
        ClearedLoses(lib, p, target, original, Sanitized(lib, policies[..|policies| - 1], target, Never(), original));
      }
    }
  }

  /** No cleared policy has anything to say about the tool context. */
  ghost predicate NothingLost(lib: Library, policies: seq<LocalPolicy>, target: Text, tool: Option<ToolContext>) {
    forall p :: p in policies && Cleared(lib, p, target) ==> ToolFindings(p, tool) == []
  }

  /** What a policy adds in the per-rule loop. */
  function PolicyAdds(lib: Library, target: Text, tool: Option<ToolContext>): LocalPolicy -> seq<LocalFinding> {
    (p: LocalPolicy) => RuleFindings(lib, p, RulesOf(p), target) + ToolFindings(p, tool)
  }

  ghost function Collected(adds: LocalPolicy -> seq<LocalFinding>, policies: seq<LocalPolicy>,
      clears: LocalPolicy -> bool): seq<LocalFinding> {
    if policies == [] then []
    else
      var p := policies[|policies| - 1];
      Collected(adds, policies[..|policies| - 1], clears) + if clears(p) then [] else adds(p)
  }

  lemma {:induction false} FindingsCollected(lib: Library, policies: seq<LocalPolicy>, target: Text,
      tool: Option<ToolContext>, clears: LocalPolicy -> bool)
    ensures Findings(lib, policies, target, tool, clears) == Collected(PolicyAdds(lib, target, tool), policies, clears)
  {
    if policies != [] {
      FindingsCollected(lib, policies[..|policies| - 1], target, tool, clears);
    }
  }

  ghost predicate Contributes(adds: LocalPolicy -> seq<LocalFinding>, policies: seq<LocalPolicy>,
      clears: LocalPolicy -> bool, f: LocalFinding) {
    exists p :: p in policies && !clears(p) && f in adds(p)
  }

  /** A finding is one of a policy that is not cut short. */
  lemma {:induction false} CollectedHas(adds: LocalPolicy -> seq<LocalFinding>, policies: seq<LocalPolicy>,
      clears: LocalPolicy -> bool, f: LocalFinding)
    ensures f in Collected(adds, policies, clears) <==> Contributes(adds, policies, clears, f)
  {
    if policies != [] {
      var before, last := policies[..|policies| - 1], policies[|policies| - 1];
      CollectedHas(adds, before, clears, f);
      assert policies == before + [last];
      assert Contributes(adds, policies, clears, f) <==>
             Contributes(adds, before, clears, f) || (!clears(last) && f in adds(last));
    }
  }

  /** A finding over some policies is what a rule or the tool context makes one of those not cut short say. */
  lemma FindingStems(lib: Library, policies: seq<LocalPolicy>, target: Text, tool: Option<ToolContext>,
      clears: LocalPolicy -> bool, f: LocalFinding)
    ensures f in Findings(lib, policies, target, tool, clears) <==>
            exists p :: p in policies && !clears(p) && Says(f, lib, p, target, tool)
  {
    var adds := PolicyAdds(lib, target, tool);
    FindingsCollected(lib, policies, target, tool, clears);
    CollectedHas(adds, policies, clears, f);
    forall p
      ensures f in adds(p) <==> Says(f, lib, p, target, tool)
    {
      RuleFindingsAre(lib, p, RulesOf(p), target, f);
      if tool.Some? {
        ToolFindingsAre(p, tool.value, f);
      }
    }
    assert (exists p :: p in policies && !clears(p) && Says(f, lib, p, target, tool)) ==>
           Contributes(adds, policies, clears, f);
  }

  lemma CollectedSnoc(adds: LocalPolicy -> seq<LocalFinding>, ps: seq<LocalPolicy>, q: LocalPolicy,
      clears: LocalPolicy -> bool)
    ensures Collected(adds, ps + [q], clears) == Collected(adds, ps, clears) + if clears(q) then [] else adds(q)
  {
    assert (ps + [q])[..|ps|] == ps;
  }

  lemma {:induction false} CollectedAppend(adds: LocalPolicy -> seq<LocalFinding>, ps: seq<LocalPolicy>,
      qs: seq<LocalPolicy>, clears: LocalPolicy -> bool)
    ensures Collected(adds, ps + qs, clears) == Collected(adds, ps, clears) + Collected(adds, qs, clears)
    decreases |qs|
  {
    if qs == [] {
      assert ps + qs == ps;
    } else {
      var before, q := qs[..|qs| - 1], qs[|qs| - 1];
      assert qs == before + [q] && ps + qs == (ps + before) + [q];
      CollectedAppend(adds, ps, before, clears);
      CollectedSnoc(adds, before, q, clears);
      CollectedSnoc(adds, ps + before, q, clears);
    }
  }

  ghost predicate DropsNothing(adds: LocalPolicy -> seq<LocalFinding>, policies: seq<LocalPolicy>,
      clears: LocalPolicy -> bool) {
    forall p :: p in policies && clears(p) ==> adds(p) == []
  }

  lemma {:induction false} CollectedAgree(adds: LocalPolicy -> seq<LocalFinding>, policies: seq<LocalPolicy>,
      clears: LocalPolicy -> bool)
    ensures var cut, whole := Collected(adds, policies, clears), Collected(adds, policies, Never());
            if DropsNothing(adds, policies, clears) then cut == whole else |cut| < |whole|
  {
    if policies != [] {
      var before, p := policies[..|policies| - 1], policies[|policies| - 1];
      CollectedAgree(adds, before, clears);
      assert policies == before + [p];
      assert DropsNothing(adds, policies, clears) <==>
             DropsNothing(adds, before, clears) && (clears(p) ==> adds(p) == []);
    }
  }

  lemma ClearedAdds(lib: Library, p: LocalPolicy, target: Text, tool: Option<ToolContext>)
    requires Exact(lib) && Cleared(lib, p, target)
    ensures PolicyAdds(lib, target, tool)(p) == ToolFindings(p, tool)
  {
    ClearedLoses(lib, p, target, [], []);
  }

  lemma DropsExactly(lib: Library, policies: seq<LocalPolicy>, target: Text, tool: Option<ToolContext>)
    requires Exact(lib)
    ensures DropsNothing(PolicyAdds(lib, target, tool), policies, ClearedBy(lib, target)) <==>
            NothingLost(lib, policies, target, tool)
  {
    forall p | Cleared(lib, p, target)
      ensures PolicyAdds(lib, target, tool)(p) == ToolFindings(p, tool)
    {
      ClearedAdds(lib, p, target, tool);
    }
  }

  lemma FindingsAgree(lib: Library, policies: seq<LocalPolicy>, target: Text, tool: Option<ToolContext>)
    requires Exact(lib)
    ensures var cut, whole :=
          Findings(lib, policies, target, tool, ClearedBy(lib, target)), Findings(lib, policies, target, tool, Never());
            if NothingLost(lib, policies, target, tool) then cut == whole else |cut| < |whole|
  {
    var adds, clears := PolicyAdds(lib, target, tool), ClearedBy(lib, target);
    FindingsCollected(lib, policies, target, tool, clears);
    FindingsCollected(lib, policies, target, tool, Never());
    CollectedAgree(adds, policies, clears);
    DropsExactly(lib, policies, target, tool);
  }

  /** The fast path changes a report exactly when a policy it clears would have refused the tool context. */
  lemma UnionExactly(lib: Library, policies: seq<LocalPolicy>, r: Request, tool: Option<ToolContext>, rep: LocalReport)
    requires Exact(lib) && Reports(rep, lib, policies, r, tool, ClearedBy(lib, PickContent(r)))
    ensures Reports(rep, lib, policies, r, tool, Never()) <==> NothingLost(lib, policies, PickContent(r), tool)
  {
    TextsAgree(lib, policies, PickContent(r), r.input);
    TextsAgree(lib, policies, PickContent(r), r.output);
    FindingsAgree(lib, policies, PickContent(r), tool);
  }

  /** Without a tool context the fast path is exact. */
  lemma UnionPreserves(lib: Library, policies: seq<LocalPolicy>, r: Request, rep: LocalReport)
    requires Exact(lib) && Reports(rep, lib, policies, r, None, ClearedBy(lib, PickContent(r)))
    ensures Reports(rep, lib, policies, r, None, Never())
  {
    UnionExactly(lib, policies, r, None, rep);
  }

  /**
   A policy of one rule that matches nothing and one blocked domain: called on that domain, it is cleared and its
   finding lost.
   */
  lemma LostToolFinding(r: Request) returns (lib: Library, p: LocalPolicy, tool: Option<ToolContext>)
    ensures Exact(lib) && Cleared(lib, p, PickContent(r))
    ensures forall rep :: Reports(rep, lib, [p], r, tool, ClearedBy(lib, PickContent(r))) ==>
            !Reports(rep, lib, [p], r, tool, Never())
  {
    lib := Library(parts => true, (re, t) => Matches(re, t), (re, t) => if Matches(re, t) then [t] else [],
                   (re, t) => t, category => None);
    p := LocalPolicy("id", "name", "block", [Rule("none", NoMatch, "low", Deny, "none")], [], ["bad"], [], []);
    tool := Some(ToolContext(["bad"], "read"));
    var target := PickContent(r);
    UnionMatches(Patterns(p.rules), target);
    assert BlockedIn(p, "bad", ["bad"]) == [ToolFinding(p, "blocked_domain", "high", "bad")];
    assert BlockedFindings(p, ["bad"], ["bad"]) == BlockedFindings(p, [], ["bad"]) + BlockedIn(p, "bad", ["bad"]);
    assert ToolFindings(p, tool) != [];
    assert p in [p] && !NothingLost(lib, [p], target, tool);
    forall rep | Reports(rep, lib, [p], r, tool, ClearedBy(lib, target))
      ensures !Reports(rep, lib, [p], r, tool, Never())
    {
      UnionExactly(lib, [p], r, tool, rep);
    }
  }
}
