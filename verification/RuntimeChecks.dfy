/**
 The guard's check evaluator: checks run policy by policy, with a literal automaton and a union
 pattern deciding up front whether a policy's regex checks can be skipped, and a per-request memo
 of regex scans. The reference is the same evaluator without those three layers.
 */
module RuntimeChecks {
  import opened Options
  import opened Bytes
  import opened RegexLiterals
  import AC = AhoCorasick
  import S = Strings
  import Trimming

  datatype Stage = InputStage | OutputStage | ActionStage | McpStage | RagStage

  datatype Outcome = Allow | Redact | Sandbox | Deny

  datatype Request = Request(stage: Stage, input: Text, output: Text, toolInput: Text)

  datatype Action = Action(
    onFail: Outcome, deny: bool, async: bool, passThrough: bool, feedback: Text, successMessage: Text)

  datatype Check = Check(name: string, fingerprint: string, rule: Text, summary: Text, action: Action)

  datatype Policy = Policy(id: string, name: string, mode: string, checks: seq<Check>)

  datatype Result = Result(
    triggered: bool, summary: Text, sanitizedInput: Text, sanitizedOutput: Text, override: Option<Outcome>,
    overrideSeverity: string, confidence: real, matches: seq<Text>)

  datatype Summary = Told(text: Text) | Untold(check: string)

  datatype Answer = Done(result: Result) | Failed(message: string)

  datatype Finding = Finding(
    policyId: string, check: string, severity: string, confidence: real, outcome: Outcome, summary: Summary,
    matches: seq<Text>, async: bool, passThrough: bool, feedback: Text)

  datatype ChainEntry = CheckFailed(check: string, message: string) | CheckFired(policy: string, check: string)

  /** What the evaluator accumulates. */
  datatype Report = Report(
    findings: seq<Finding>, redactions: seq<(string, Summary)>, chain: seq<ChainEntry>, input: Text, output: Text)

  datatype Progress = Progress(report: Report, seen: set<string>, hooks: seq<(Policy, Check)>)

  /** Everything outside the evaluator: the regex library, the other local checks, the webhooks. */
  datatype Engine = Engine(
    compile: Text -> Option<Regex>,
    unionCompiles: seq<Regex> -> bool,
    matchString: (Regex, Text) -> bool,
    findAll: (Regex, Text) -> seq<Text>,
    replaceAll: (Regex, Text, Action) -> Text,
    local: Check -> Answer,
    webhook: Check -> Answer)

  /** The regex library answers as the trees' meaning says. */
  ghost predicate Faithful(e: Engine) {
    && (forall re, t :: e.matchString(re, t) <==> Matches(re, t))
    && (forall re, t :: e.findAll(re, t) != [] <==> Matches(re, t))
  }

  // ---------------------------------------------------------------- trimming and feedback

  predicate Space(b: Byte) {
    9 <= b <= 13 || b == 32
  }

  /** The blanks of texts are those of names. */
  lemma SpacesAre(b: Byte)
    ensures Space(b) <==> b as char in S.BLANKS
  {
    S.BlanksAre(b as char);
  }

  function Trim(t: Text): Text {
    Trimming.TrimBoth(Space, t)
  }

  predicate Blank(t: Text) {
    Trim(t) == []
  }

  lemma BlankMeans(t: Text)
    ensures Blank(t) <==> Trimming.AllBlank(Space, t)
  {
    Trimming.TrimsAway(Space, t);
  }

  function PickContent(r: Request): Text {
    if r.stage == OutputStage && !Blank(r.output) then r.output
    else if (r.stage == ActionStage || r.stage == McpStage) && !Blank(r.toolInput) then r.toolInput
    else if !Blank(r.input) then r.input
    else if !Blank(r.output) then r.output
    else r.toolInput
  }

  predicate Shows(t: Text) {
    !Trimming.AllBlank(Space, t)
  }

  /** The stage's own text is scanned if it shows anything, else the first that does of input, output and tool input. */
  lemma PickContentIs(r: Request)
    ensures var t := PickContent(r);
            && (r.stage == OutputStage && Shows(r.output) ==> t == r.output)
            && (r.stage in {ActionStage, McpStage} && Shows(r.toolInput) ==> t == r.toolInput)
            && (r.stage in {InputStage, RagStage} && Shows(r.input) ==> t == r.input)
            && (!Shows(t) ==> !Shows(r.input) && !Shows(r.output) && !Shows(r.toolInput))
            && (Shows(r.input) && t != r.input ==>
                  (r.stage == OutputStage && t == r.output) || (r.stage in {ActionStage, McpStage} && t == r.toolInput))
            && (!Shows(r.input) && Shows(r.output) && t != r.output ==>
                r.stage in {ActionStage, McpStage} && t == r.toolInput)
  {
    BlankMeans(r.input);
    BlankMeans(r.output);
    BlankMeans(r.toolInput);
  }

  function Append(t: Text, feedback: Text): Text {
    Trim(Trim(t) + [10, 10] + Trim(feedback))
  }

  function Feedback(stage: Stage, input: Text, output: Text, feedback: Text): (Text, Text) {
    if Blank(feedback) then (input, output)
    else if stage == OutputStage then (input, Append(output, feedback))
    else (Append(input, feedback), output)
  }

  // ---------------------------------------------------------------- one check

  const NOTHING := Result(false, [], [], [], None, "", 0.0, [])

  /** Anything but the three named severities is "low", the absent one included. */
  function NormalizeSeverity(value: string): string {
    var s := S.Normal(value);
    if s == "critical" || s == "high" || s == "medium" then s else "low"
  }

  function ResolveOutcome(p: Policy, c: Check, override: Option<Outcome>): Outcome {
    var wanted := if override.Some? then override.value else c.action.onFail;
    var strict :=
      if wanted != Allow then wanted
      else if c.action.deny then Deny
      else if S.Normal(p.mode) == "redact" then Redact
      else if S.Normal(p.mode) == "sandbox" then Sandbox
      else Deny;
    if c.action.async || c.action.passThrough || S.Lower(p.mode) == "monitor" then Allow else strict
  }

  /** The regex check, scanning through `scan`. */
  function RegexAnswer(e: Engine, r: Request, c: Check, scan: Regex -> seq<Text>): Answer {
    if c.rule == [] then Done(NOTHING)
    else
      match e.compile(c.rule)
      case None => Failed("compile")
      case Some(re) =>
        var matches := scan(re);
        if matches == [] then Done(NOTHING)
        else
          var redacted := e.replaceAll(re, PickContent(r), c.action);
          Done(Result(true, c.summary,
                      if Blank(r.input) then [] else redacted,
                      if Blank(r.output) then [] else redacted, None, "", 0.95, matches))
  }

  function Apply(p: Policy, c: Check, result: Result, stage: Stage, rep: Report): Report {
    if !result.triggered then
      var texts := Feedback(stage, rep.input, rep.output, c.action.successMessage);
      rep.(input := texts.0, output := texts.1)
    else
      var outcome := ResolveOutcome(p, c, result.override);
      var summary := if Blank(result.summary) then Untold(c.name) else Told(Trim(result.summary));
      var confidence := if result.confidence <= 0.0 then 0.9 else result.confidence;
      var nextInput := if Blank(result.sanitizedInput) then rep.input else result.sanitizedInput;
      var nextOutput := if Blank(result.sanitizedOutput) then rep.output else result.sanitizedOutput;
      var texts := Feedback(stage, nextInput, nextOutput, c.action.feedback);
      Report(
        rep.findings + [Finding(p.id, c.name, NormalizeSeverity(result.overrideSeverity), confidence, outcome, summary,
                                result.matches, c.action.async, c.action.passThrough, c.action.feedback)],
        if outcome == Redact then rep.redactions + [(c.name, summary)] else rep.redactions,
        rep.chain + [CheckFired(p.name, c.name)],
        texts.0, texts.1)
  }

  function Record(p: Policy, c: Check, a: Answer, stage: Stage, rep: Report): Report {
    match a
    case Failed(message) => rep.(chain := rep.chain + [CheckFailed(c.name, message)])
    case Done(result) => Apply(p, c, result, stage, rep)
  }

  // ---------------------------------------------------------------- the reference evaluator

  function Answered(e: Engine, r: Request, c: Check): Answer {
    if c.name == "regex_match" then RegexAnswer(e, r, c, re => e.findAll(re, PickContent(r))) else e.local(c)
  }

  /** What identifies a check among those of all policies. */
  function CheckKey(p: Policy, c: Check): string {
    S.Normal(p.mode) + "::" + c.fingerprint
  }

  /**
   Two checks are the same exactly under modes of the same name, in modes without a colon, and with the same
   fingerprint.
   */
  lemma CheckKeyTells(p: Policy, c: Check, q: Policy, k: Check)
    requires ':' !in S.Normal(p.mode) && ':' !in S.Normal(q.mode)
    ensures CheckKey(p, c) == CheckKey(q, k) <==> S.Normal(p.mode) == S.Normal(q.mode) && c.fingerprint == k.fingerprint
  {
    if CheckKey(p, c) == CheckKey(q, k) {
      var m, n := S.Normal(p.mode), S.Normal(q.mode);
      assert CheckKey(p, c) == m + ":" + (":" + c.fingerprint);
      assert CheckKey(q, k) == n + ":" + (":" + k.fingerprint);
      S.FirstColonSplits(m, ":" + c.fingerprint, n, ":" + k.fingerprint);
      assert c.fingerprint == (":" + c.fingerprint)[1..] == (":" + k.fingerprint)[1..] == k.fingerprint;
    }
  }

  /** One check; `skip` drops regex checks of the policy unevaluated. */
  function Step(e: Engine, r: Request, p: Policy, skip: bool, c: Check, s: Progress): Progress {
    var key := CheckKey(p, c);
    if key in s.seen then s
    else
      var s1 := s.(seen := s.seen + {key});
      if c.name == "webhook" then s1.(hooks := s1.hooks + [(p, c)])
      else if skip && c.name == "regex_match" then s1
      else s1.(report := Record(p, c, Answered(e, r, c), r.stage, s1.report))
  }

  function RunChecks(e: Engine, r: Request, p: Policy, skip: bool, checks: seq<Check>, s: Progress): Progress {
    if checks == [] then s else RunChecks(e, r, p, skip, checks[1..], Step(e, r, p, skip, checks[0], s))
  }

  function RunPolicies(e: Engine, r: Request, policies: seq<Policy>, skips: Policy -> bool, s: Progress): Progress {
    if policies == [] then s
    else RunPolicies(e, r, policies[1..], skips,
                     RunChecks(e, r, policies[0], skips(policies[0]), policies[0].checks, s))
  }

  function MergeHooks(e: Engine, r: Request, hooks: seq<(Policy, Check)>, rep: Report): Report {
    if hooks == [] then rep
    else MergeHooks(e, r, hooks[1..], Record(hooks[0].0, hooks[0].1, e.webhook(hooks[0].1), r.stage, rep))
  }

  function Start(r: Request): Progress {
    Progress(Report([], [], [], r.input, r.output), {}, [])
  }

  function Run(e: Engine, r: Request, policies: seq<Policy>, skips: Policy -> bool): Report {
    var s := RunPolicies(e, r, policies, skips, Start(r));
    MergeHooks(e, r, s.hooks, s.report)
  }

  /** The evaluator without a runtime: nothing is skipped. */
  function Reference(e: Engine, r: Request, policies: seq<Policy>): Report {
    Run(e, r, policies, p => false)
  }

  // ---------------------------------------------------------------- when a policy is skipped

  predicate Scans(c: Check) {
    c.name == "regex_match" && c.rule != []
  }

  /** The literals the automaton is built from; none when some pattern offers no anchor. */
  function Literals(e: Engine, checks: seq<Check>): Option<seq<Text>> {
    if checks == [] then Some([])
    else if !Scans(checks[0]) then Literals(e, checks[1..])
    else
      var parsed := e.compile(checks[0].rule);
      if parsed.None? || ExtractAll(parsed.value) == [] then None
      else
        match Literals(e, checks[1..])
        case None => None
        case Some(rest) => Some(ExtractAll(parsed.value) + rest)
  }

  /** The parts of the union pattern; none when some pattern does not compile. */
  function UnionParts(e: Engine, checks: seq<Check>): Option<seq<Regex>> {
    if checks == [] then Some([])
    else if !Scans(checks[0]) then UnionParts(e, checks[1..])
    else
      var parsed := e.compile(checks[0].rule);
      if parsed.None? then None
      else
        match UnionParts(e, checks[1..])
        case None => None
        case Some(rest) => Some([parsed.value] + rest)
  }

  /** Only regex checks with a pattern bear on the artifacts. */
  lemma OthersIgnored(e: Engine, c: Check, checks: seq<Check>)
    requires c.name != "regex_match" || c.rule == []
    ensures Literals(e, [c] + checks) == Literals(e, checks) && UnionParts(e, [c] + checks) == UnionParts(e, checks)
  {
    assert ([c] + checks)[1..] == checks;
  }

  ghost predicate AutomatonMisses(e: Engine, r: Request, checks: seq<Check>) {
    match Literals(e, checks)
    case None => false
    case Some(lits) => lits != [] && !AC.AnyOccurs(AC.Words(lits), Lower(PickContent(r)))
  }

  ghost predicate UnionMisses(e: Engine, r: Request, checks: seq<Check>) {
    match UnionParts(e, checks)
    case None => false
    case Some(parts) => parts != [] && e.unionCompiles(parts) && !Matches(Alternate(parts), PickContent(r))
  }

  ghost predicate Skipped(e: Engine, r: Request, p: Policy) {
    AutomatonMisses(e, r, p.checks) || UnionMisses(e, r, p.checks)
  }

  // ---------------------------------------------------------------- the evaluator itself

  method ExtendLiterals(e: Engine, checks: seq<Check>) returns (lits: Option<seq<Text>>)
    ensures lits == Literals(e, checks)
  {
    var acc: seq<Text> := [];
    assert checks[0..] == checks && forall rest: seq<Text> :: acc + rest == rest;
    for i := 0 to |checks|
      invariant Literals(e, checks) ==
                (match Literals(e, checks[i..]) case None => None case Some(rest) => Some(acc + rest))
    {
      var c := checks[i];
      assert checks[i..][1..] == checks[i + 1..];
      if Scans(c) {
        var parsed := e.compile(c.rule);
        if parsed.None? {
          return None;
        }
        var anchors := ExtractAll(parsed.value);
        if anchors == [] {
          return None;
        }
        assert forall rest: seq<Text> :: acc + (anchors + rest) == acc + anchors + rest;
        acc := acc + anchors;
      }
    }
    assert acc + [] == acc;
    return Some(acc);
  }

  method ExtendUnion(e: Engine, checks: seq<Check>) returns (parts: Option<seq<Regex>>)
    ensures parts == UnionParts(e, checks)
  {
    var acc: seq<Regex> := [];
    assert checks[0..] == checks && forall rest: seq<Regex> :: acc + rest == rest;
    for i := 0 to |checks|
      invariant UnionParts(e, checks) ==
                (match UnionParts(e, checks[i..]) case None => None case Some(rest) => Some(acc + rest))
    {
      var c := checks[i];
      assert checks[i..][1..] == checks[i + 1..];
      if Scans(c) {
        var parsed := e.compile(c.rule);
        if parsed.None? {
          return None;
        }
        assert forall rest: seq<Regex> :: acc + ([parsed.value] + rest) == acc + [parsed.value] + rest;
        acc := acc + [parsed.value];
      }
    }
    assert acc + [] == acc;
    return Some(acc);
  }

  /**
   The two-stage no-match test over ready artifacts: the anchors of an automaton and the parts of a union, if there
   are any.
   */
  ghost predicate SkippedWith(r: Request, anchors: Option<seq<Text>>, parts: Option<seq<Regex>>) {
    || (anchors.Some? && !AC.AnyOccurs(AC.Words(anchors.value), Lower(PickContent(r))))
    || (parts.Some? && !Matches(Alternate(parts.value), PickContent(r)))
  }

  /** The automaton's anchors, or none when it must not be used. */
  function Anchors(e: Engine, checks: seq<Check>): Option<seq<Text>> {
    if Literals(e, checks) == Some([]) then None else Literals(e, checks)
  }

  function Union(e: Engine, checks: seq<Check>): Option<seq<Regex>> {
    var parts := UnionParts(e, checks);
    if parts.Some? && parts.value != [] && e.unionCompiles(parts.value) then parts else None
  }

  method TestSkip(e: Engine, r: Request, anchors: Option<seq<Text>>, parts: Option<seq<Regex>>) returns (skip: bool)
    requires Faithful(e)
    ensures skip <==> SkippedWith(r, anchors, parts)
  {
    var target := PickContent(r);
    skip := false;
    if anchors.Some? {
      var ac, path := AC.Build(anchors.value);
      var hit, hops := AC.Matches(ac, Lower(target), path, AC.Words(anchors.value));
      skip := !hit;
    }
    if !skip && parts.Some? {
      skip := !e.matchString(Alternate(parts.value), target);
    }
  }

  /** The no-match test in front of a policy's regex checks. */
  method DecideSkip(e: Engine, r: Request, p: Policy) returns (skip: bool)
    requires Faithful(e)
    ensures skip <==> Skipped(e, r, p)
  {
    var anchors := ExtendLiterals(e, p.checks);
    if anchors == Some([]) {
      anchors := None;
    }
    var parts := ExtendUnion(e, p.checks);
    if parts.Some? && (parts.value == [] || !e.unionCompiles(parts.value)) {
      parts := None;
    }
    skip := TestSkip(e, r, anchors, parts);
  }

  ghost predicate MemoSound(e: Engine, target: Text, memo: map<Text, seq<Text>>) {
    forall rule :: rule in memo ==> e.compile(rule).Some? && memo[rule] == e.findAll(e.compile(rule).value, target)
  }

  method RegexCheckCached(e: Engine, r: Request, c: Check, memo0: map<Text, seq<Text>>)
      returns (a: Answer, memo: map<Text, seq<Text>>)
    requires MemoSound(e, PickContent(r), memo0)
    ensures a == RegexAnswer(e, r, c, re => e.findAll(re, PickContent(r)))
    ensures MemoSound(e, PickContent(r), memo)
  {
    memo := memo0;
    if c.rule == [] {
      return Done(NOTHING), memo;
    }
    var compiled := e.compile(c.rule);
    if compiled.None? {
      return Failed("compile"), memo;
    }
    var target := PickContent(r);
    var matches;
    if c.rule in memo {
      matches := memo[c.rule];
    } else {
      matches := e.findAll(compiled.value, target);
      memo := memo[c.rule := matches];
    }
    a := RegexAnswer(e, r, c, re => matches);
  }

  /** A policy's checks, with the memo, once the skip is decided. */
  method EvaluatePolicy(e: Engine, r: Request, p: Policy, skip: bool, s0: Progress, memo0: map<Text, seq<Text>>)
      returns (s: Progress, memo: map<Text, seq<Text>>)
    requires MemoSound(e, PickContent(r), memo0)
    ensures MemoSound(e, PickContent(r), memo)
    ensures s == RunChecks(e, r, p, skip, p.checks, s0)
  {
    s, memo := s0, memo0;
    for j := 0 to |p.checks|
      invariant MemoSound(e, PickContent(r), memo)
      invariant RunChecks(e, r, p, skip, p.checks[j..], s) == RunChecks(e, r, p, skip, p.checks, s0)
    {
      var c := p.checks[j];
      assert p.checks[j..][0] == c && p.checks[j..][1..] == p.checks[j + 1..];
      ghost var before := s;
      var key := CheckKey(p, c);
      if key !in s.seen {
        s := s.(seen := s.seen + {key});
        if c.name == "webhook" {
          s := s.(hooks := s.hooks + [(p, c)]);
        } else if !(skip && c.name == "regex_match") {
          var a;
          if c.name == "regex_match" {
            a, memo := RegexCheckCached(e, r, c, memo);
          } else {
            a := e.local(c);
          }
          s := s.(report := Record(p, c, a, r.stage, s.report));
        }
      }
      assert s == Step(e, r, p, skip, c, before);
    }
    assert p.checks[|p.checks|..] == [];
  }

  method EvaluateHooks(e: Engine, r: Request, s: Progress) returns (rep: Report)
    ensures rep == MergeHooks(e, r, s.hooks, s.report)
  {
    rep := s.report;
    for i := 0 to |s.hooks|
      invariant MergeHooks(e, r, s.hooks[i..], rep) == MergeHooks(e, r, s.hooks, s.report)
    {
      var hook := s.hooks[i];
      assert s.hooks[i..][1..] == s.hooks[i + 1..];
      rep := Record(hook.0, hook.1, e.webhook(hook.1), r.stage, rep);
    }
    assert s.hooks[|s.hooks|..] == [];
  }

  /** The evaluator with its runtime: the report of the run that skips exactly the policies the pre-filters clear. */
  method Evaluate(e: Engine, r: Request, policies: seq<Policy>, ghost skips: Policy -> bool) returns (rep: Report)
    requires Faithful(e)
    requires forall p :: p in policies ==> skips(p) == Skipped(e, r, p)
    ensures rep == Run(e, r, policies, skips)
  {
    var s := Start(r);
    var memo: map<Text, seq<Text>> := map[];
    for i := 0 to |policies|
      invariant MemoSound(e, PickContent(r), memo)
      invariant RunPolicies(e, r, policies[i..], skips, s) == RunPolicies(e, r, policies, skips, Start(r))
    {
      var p := policies[i];
      assert policies[i..][0] == p && policies[i..][1..] == policies[i + 1..];
      var skip := DecideSkip(e, r, p);
      s, memo := EvaluatePolicy(e, r, p, skip, s, memo);
    }
    assert policies[|policies|..] == [];
    rep := EvaluateHooks(e, r, s);
  }

  // ---------------------------------------------------------------- skipping changes nothing

  /** A regex check that can neither fire nor fail. */
  ghost predicate Quiet(e: Engine, r: Request, c: Check) {
    && c.name == "regex_match"
    && (c.rule != [] ==> e.compile(c.rule).Some? && !Matches(e.compile(c.rule).value, PickContent(r)))
  }

  /** The policy's patterns keep the extractor's promise. */
  ghost predicate Agreeable(e: Engine, p: Policy) {
    forall c :: c in p.checks && c.name == "regex_match" && c.rule != [] && e.compile(c.rule).Some? ==>
      AgreeingPattern(e.compile(c.rule).value)
  }

  predicate Silent(c: Check) {
    Blank(c.action.successMessage)
  }

  /** What the pre-filters ask of a policy: agreeing patterns and silent success. */
  ghost predicate Fit(e: Engine, p: Policy) {
    Agreeable(e, p) && forall c :: c in p.checks && c.name == "regex_match" ==> Silent(c)
  }

  lemma {:induction false} LiteralsCover(e: Engine, checks: seq<Check>, c: Check)
    requires Literals(e, checks).Some? && c in checks && Scans(c)
    ensures e.compile(c.rule).Some? && ExtractAll(e.compile(c.rule).value) != []
    ensures forall x :: x in ExtractAll(e.compile(c.rule).value) ==> x in Literals(e, checks).value
  {
    if checks[0] != c {
      LiteralsCover(e, checks[1..], c);
    }
  }

  lemma {:induction false} PartsCover(e: Engine, checks: seq<Check>, c: Check)
    requires UnionParts(e, checks).Some? && c in checks && Scans(c)
    ensures e.compile(c.rule).Some? && e.compile(c.rule).value in UnionParts(e, checks).value
  {
    if checks[0] != c {
      PartsCover(e, checks[1..], c);
    }
  }

  /** A cleared policy holds no regex check that could still match. */
  lemma SkippedIsQuiet(e: Engine, r: Request, p: Policy, c: Check)
    requires Skipped(e, r, p) && Agreeable(e, p) && c in p.checks && c.name == "regex_match"
    ensures Quiet(e, r, c)
  {
    var target := PickContent(r);
    if c.rule != [] {
      if AutomatonMisses(e, r, p.checks) {
        LiteralsCover(e, p.checks, c);
        var re := e.compile(c.rule).value;
        if Matches(re, target) {
          var anchor := AnchorRequired(re, target);
          AnchorsUsable(re, anchor);
          LowerIs(anchor, anchor);
        }
      } else {
        PartsCover(e, p.checks, c);
        var parts := UnionParts(e, p.checks).value;
        UnionMatches(parts, target);
      }
    }
  }

  lemma QuietAnswers(e: Engine, r: Request, c: Check)
    requires Faithful(e) && Quiet(e, r, c)
    ensures Answered(e, r, c) == Done(NOTHING)
  {
  }

  lemma {:induction false} ChecksAgree(e: Engine, r: Request, p: Policy, skip: bool, checks: seq<Check>, s: Progress)
    requires Faithful(e)
    requires skip ==> forall c :: c in checks && c.name == "regex_match" ==> Quiet(e, r, c) && Silent(c)
    ensures RunChecks(e, r, p, skip, checks, s) == RunChecks(e, r, p, false, checks, s)
  {
    if checks != [] {
      var c := checks[0];
      assert Step(e, r, p, skip, c, s) == Step(e, r, p, false, c, s) by {
        if skip && c.name == "regex_match" {
          QuietAnswers(e, r, c);
        }
      }
      ChecksAgree(e, r, p, skip, checks[1..], Step(e, r, p, false, c, s));
    }
  }

  lemma {:induction false} PoliciesAgree(e: Engine, r: Request, policies: seq<Policy>, skips: Policy -> bool,
      s: Progress)
    requires Faithful(e)
    requires forall p :: p in policies ==> Fit(e, p) && (skips(p) ==> Skipped(e, r, p))
    ensures RunPolicies(e, r, policies, skips, s) == RunPolicies(e, r, policies, p => false, s)
  {
    if policies != [] {
      var p := policies[0];
      if skips(p) {
        forall c | c in p.checks && c.name == "regex_match"
          ensures Quiet(e, r, c)
        {
          SkippedIsQuiet(e, r, p, c);
        }
      }
      ChecksAgree(e, r, p, skips(p), p.checks, s);
      PoliciesAgree(e, r, policies[1..], skips, RunChecks(e, r, p, false, p.checks, s));
    }
  }

  /** The pre-filters and the memo change no report: findings, redactions, chain and texts are the reference's. */
  lemma PrefiltersPreserve(e: Engine, r: Request, policies: seq<Policy>, skips: Policy -> bool)
    requires Faithful(e)
    requires forall p :: p in policies ==> Fit(e, p) && (skips(p) ==> Skipped(e, r, p))
    ensures Run(e, r, policies, skips) == Reference(e, r, policies)
  {
    PoliciesAgree(e, r, policies, skips, Start(r));
  }

  /** The evaluator with its runtime against the evaluator without one. */
  method EvaluateMatchesReference(e: Engine, r: Request, policies: seq<Policy>) returns (rep: Report)
    requires Faithful(e)
    requires forall p :: p in policies ==> Fit(e, p)
    ensures rep == Reference(e, r, policies)
  {
    ghost var skips := p => Skipped(e, r, p);
    rep := Evaluate(e, r, policies, skips);
    PrefiltersPreserve(e, r, policies, skips);
  }
}
