/**
 What the check evaluator reports, told from its policies: which checks are evaluated at all, that each finding stems
 from one of them, and the outcome a finding carries.
 */
module CheckOutcomes {
  import opened Options
  import opened Bytes
  import opened Dedup
  import opened RegexLiterals
  import opened RuntimeChecks
  import S = Strings
  import Trimming

  type Pair = (Policy, Check)

  // ---------------------------------------------------------------- findings, check by check

  /** What one answer adds to the findings; it does not depend on what was found before. */
  function Adds(p: Policy, k: Check, a: Answer, stage: Stage): seq<Finding> {
    Record(p, k, a, stage, Report([], [], [], [], [])).findings
  }

  lemma RecordAdds(p: Policy, k: Check, a: Answer, stage: Stage, rep: Report)
    ensures Record(p, k, a, stage, rep).findings == rep.findings + Adds(p, k, a, stage)
  {
  }

  function FlatMap(f: Pair -> seq<Finding>, xs: seq<Pair>): seq<Finding> {
    if xs == [] then [] else f(xs[0]) + FlatMap(f, xs[1..])
  }

  lemma {:induction false} FlatMapAppend(f: Pair -> seq<Finding>, a: seq<Pair>, b: seq<Pair>)
    ensures FlatMap(f, a + b) == FlatMap(f, a) + FlatMap(f, b)
  {
    if a == [] {
      assert a + b == b;
    } else {
      FlatMapAppend(f, a[1..], b);
      assert (a + b)[1..] == a[1..] + b;
      Associate(f(a[0]), FlatMap(f, a[1..]), FlatMap(f, b));
    }
  }

  lemma {:induction false} FlatMapHas(f: Pair -> seq<Finding>, xs: seq<Pair>, x: Finding)
    ensures x in FlatMap(f, xs) <==> exists i :: 0 <= i < |xs| && x in f(xs[i])
  {
    if xs != [] {
      var rest := xs[1..];
      FlatMapHas(f, rest, x);
      if i :| 0 <= i < |xs| && x in f(xs[i]) {
        if i > 0 {
          assert rest[i - 1] == xs[i];
        }
      }
      if i :| 0 <= i < |rest| && x in f(rest[i]) {
        assert xs[i + 1] == rest[i];
      }
    }
  }

  // ---------------------------------------------------------------- which checks are evaluated

  function Pairs(p: Policy, ks: seq<Check>): seq<Pair> {
    if ks == [] then [] else [(p, ks[0])] + Pairs(p, ks[1..])
  }

  /** The checks of all policies in order. */
  function AllPairs(ps: seq<Policy>): seq<Pair> {
    if ps == [] then [] else Pairs(ps[0], ps[0].checks) + AllPairs(ps[1..])
  }

  function PairKey(): Pair -> string {
    (x: Pair) => CheckKey(x.0, x.1)
  }

  function IsHook(): Pair -> bool {
    (x: Pair) => x.1.name == "webhook"
  }

  /** What a check evaluated in its place finds: not the webhooks, nor the regex checks of a skipped policy. */
  function FoundLocally(e: Engine, r: Request, skips: Policy -> bool): Pair -> seq<Finding> {
    (x: Pair) =>
      if x.1.name == "webhook" || (skips(x.0) && x.1.name == "regex_match") then []
      else Adds(x.0, x.1, Answered(e, r, x.1), r.stage)
  }

  function FoundByHook(e: Engine, r: Request): Pair -> seq<Finding> {
    (x: Pair) => if x.1.name == "webhook" then Adds(x.0, x.1, e.webhook(x.1), r.stage) else []
  }

  /** Progress after these checks, told by those whose key is fresh. */
  ghost predicate Accounts(e: Engine, r: Request, skips: Policy -> bool, xs: seq<Pair>, s: Progress, t: Progress) {
    var first := Fresh(PairKey(), s.seen, xs);
    && t.report.findings == s.report.findings + FlatMap(FoundLocally(e, r, skips), first)
    && t.hooks == s.hooks + Keep(IsHook(), first)
    && t.seen == s.seen + Keys(PairKey(), xs)
  }

  lemma FreshOne(seen: set<string>, x: Pair)
    ensures Fresh(PairKey(), seen, [x]) == if PairKey()(x) in seen then [] else [x]
    ensures Keys(PairKey(), [x]) == {PairKey()(x)}
    ensures Keep(IsHook(), [x]) == if IsHook()(x) then [x] else []
  {
    assert [x][..|[x]| - 1] == [];
  }

  lemma FlatMapOne(f: Pair -> seq<Finding>, x: Pair)
    ensures FlatMap(f, [x]) == f(x)
  {
    assert [x][1..] == [];
    assert FlatMap(f, [x]) == f(x) + FlatMap(f, []);
  }

  lemma StepAccounts(e: Engine, r: Request, skips: Policy -> bool, x: Pair, s: Progress)
    ensures Accounts(e, r, skips, [x], s, Step(e, r, x.0, skips(x.0), x.1, s))
  {
    FreshOne(s.seen, x);
    FlatMapOne(FoundLocally(e, r, skips), x);
    RecordAdds(x.0, x.1, Answered(e, r, x.1), r.stage, s.report);
  }

  lemma AccountsThen(e: Engine, r: Request, skips: Policy -> bool, xs: seq<Pair>, ys: seq<Pair>, s: Progress,
      t: Progress, u: Progress)
    requires Accounts(e, r, skips, xs, s, t) && Accounts(e, r, skips, ys, t, u)
    ensures Accounts(e, r, skips, xs + ys, s, u)
  {
    var f, key := FoundLocally(e, r, skips), PairKey();
    var a, b := Fresh(key, s.seen, xs), Fresh(key, t.seen, ys);
    FreshAppend(key, s.seen, xs, ys);
    FlatMapAppend(f, a, b);
    KeepAppend(IsHook(), a, b);
    Associate(s.report.findings, FlatMap(f, a), FlatMap(f, b));
    Associate(s.hooks, Keep(IsHook(), a), Keep(IsHook(), b));
  }

  lemma {:induction false} ChecksAccount(e: Engine, r: Request, skips: Policy -> bool, p: Policy, ks: seq<Check>,
      s: Progress)
    ensures Accounts(e, r, skips, Pairs(p, ks), s, RunChecks(e, r, p, skips(p), ks, s))
  {
    if ks != [] {
      var t := Step(e, r, p, skips(p), ks[0], s);
      StepAccounts(e, r, skips, (p, ks[0]), s);
      ChecksAccount(e, r, skips, p, ks[1..], t);
      AccountsThen(e, r, skips, [(p, ks[0])], Pairs(p, ks[1..]), s, t, RunChecks(e, r, p, skips(p), ks, s));
    }
  }

  lemma {:induction false} PoliciesAccount(e: Engine, r: Request, skips: Policy -> bool, ps: seq<Policy>, s: Progress)
    ensures Accounts(e, r, skips, AllPairs(ps), s, RunPolicies(e, r, ps, skips, s))
  {
    if ps != [] {
      var t := RunChecks(e, r, ps[0], skips(ps[0]), ps[0].checks, s);
      ChecksAccount(e, r, skips, ps[0], ps[0].checks, s);
      PoliciesAccount(e, r, skips, ps[1..], t);
      AccountsThen(e, r, skips, Pairs(ps[0], ps[0].checks), AllPairs(ps[1..]), s, t, RunPolicies(e, r, ps, skips, s));
    }
  }

  lemma {:induction false} HooksAdd(e: Engine, r: Request, hooks: seq<Pair>, rep: Report)
    requires forall i :: 0 <= i < |hooks| ==> IsHook()(hooks[i])
    ensures MergeHooks(e, r, hooks, rep).findings == rep.findings + FlatMap(FoundByHook(e, r), hooks)
  {
    if hooks != [] {
      var h := hooks[0];
      var next := Record(h.0, h.1, e.webhook(h.1), r.stage, rep);
      assert next.findings == rep.findings + FoundByHook(e, r)(h) by {
        RecordAdds(h.0, h.1, e.webhook(h.1), r.stage, rep);
      }
      HooksAdd(e, r, hooks[1..], next);
      Associate(rep.findings, FoundByHook(e, r)(h), FlatMap(FoundByHook(e, r), hooks[1..]));
    }
  }

  lemma {:induction false} HooksKept(e: Engine, r: Request, xs: seq<Pair>)
    ensures FlatMap(FoundByHook(e, r), Keep(IsHook(), xs)) == FlatMap(FoundByHook(e, r), xs)
    ensures forall i :: 0 <= i < |Keep(IsHook(), xs)| ==> IsHook()(Keep(IsHook(), xs)[i])
  {
    if xs != [] {
      var before, last := xs[..|xs| - 1], xs[|xs| - 1];
      HooksKept(e, r, before);
      assert xs == before + [last];
      FlatMapAppend(FoundByHook(e, r), before, [last]);
      FlatMapAppend(FoundByHook(e, r), Keep(IsHook(), before), [last]);
      FlatMapOne(FoundByHook(e, r), last);
    }
  }

  lemma NothingBefore<T>(a: seq<T>, b: seq<T>)
    requires a == []
    ensures a + b == b
  {
  }

  lemma FromStart(e: Engine, r: Request, ps: seq<Policy>, skips: Policy -> bool, s: Progress)
    requires s == RunPolicies(e, r, ps, skips, Start(r))
    ensures s.report.findings == FlatMap(FoundLocally(e, r, skips), First(PairKey(), AllPairs(ps)))
    ensures s.hooks == Keep(IsHook(), First(PairKey(), AllPairs(ps)))
  {
    var xs := First(PairKey(), AllPairs(ps));
    PoliciesAccount(e, r, skips, ps, Start(r));
    NothingBefore(Start(r).report.findings, FlatMap(FoundLocally(e, r, skips), xs));
    NothingBefore(Start(r).hooks, Keep(IsHook(), xs));
  }

  /**
   Each check is evaluated once, at its first occurrence among all policies: the findings are those of the checks run in
   place, in order, and behind them those of the webhooks, in order.
   */
  lemma FindingsInOrder(e: Engine, r: Request, ps: seq<Policy>, skips: Policy -> bool)
    ensures var xs := First(PairKey(), AllPairs(ps));
            Run(e, r, ps, skips).findings == FlatMap(FoundLocally(e, r, skips), xs) + FlatMap(FoundByHook(e, r), xs)
  {
    var xs := First(PairKey(), AllPairs(ps));
    var s := RunPolicies(e, r, ps, skips, Start(r));
    FromStart(e, r, ps, skips, s);
    HooksKept(e, r, xs);
    HooksAdd(e, r, s.hooks, s.report);
  }

  // ---------------------------------------------------------------- where findings come from

  lemma {:induction false} PairsHave(p: Policy, ks: seq<Check>, x: Pair)
    ensures x in Pairs(p, ks) <==> x.0 == p && x.1 in ks
  {
    if ks != [] {
      PairsHave(p, ks[1..], x);
    }
  }

  lemma {:induction false} AllPairsHave(ps: seq<Policy>, x: Pair)
    ensures x in AllPairs(ps) <==> x.0 in ps && x.1 in x.0.checks
  {
    if ps != [] {
      PairsHave(ps[0], ps[0].checks, x);
      AllPairsHave(ps[1..], x);
    }
  }

  /** The check's answer: a webhook is asked over the network, a regex check scans, the others run in place. */
  function AnswerOf(e: Engine, r: Request, k: Check): Answer {
    if k.name == "webhook" then e.webhook(k) else Answered(e, r, k)
  }

  predicate Fires(a: Answer) {
    a.Done? && a.result.triggered
  }

  /** A monitored policy, an asynchronous check and one that passes through only report. */
  predicate OnlyReports(p: Policy, k: Check) {
    S.Lower(p.mode) == "monitor" || k.action.async || k.action.passThrough
  }

  /** Neither the answer nor the check asks for an outcome. */
  predicate NothingAsked(k: Check, result: Result) {
    (result.override.None? || result.override == Some(Allow)) && (result.override.Some? || k.action.onFail == Allow)
  }

  /**
   The outcome of a firing check: nothing but a report, or else what the answer asks for, or the check, or a denial
   where the check says so, or what the policy's mode says.
   */
  ghost predicate Judged(o: Outcome, p: Policy, k: Check, result: Result) {
    && (o == Allow <==> OnlyReports(p, k))
    && (o != Allow ==>
         && (forall w :: w != Allow && result.override == Some(w) ==> o == w)
         && (result.override.None? && k.action.onFail != Allow ==> o == k.action.onFail)
         && (NothingAsked(k, result) && k.action.deny ==> o == Deny)
         && (NothingAsked(k, result) && !k.action.deny ==>
               && (o == Redact <==> S.Normal(p.mode) == "redact")
               && (o == Sandbox <==> S.Normal(p.mode) == "sandbox")))
  }

  /** How a finding describes the firing: its confidence is never below zero and its severity one of four. */
  predicate Describes(f: Finding, k: Check, result: Result) {
    && f.confidence > 0.0 && (result.confidence > 0.0 ==> f.confidence == result.confidence)
    && f.severity in {"critical", "high", "medium", "low"}
    && (S.Normal(result.overrideSeverity) in {"critical", "high", "medium"} ==>
        f.severity == S.Normal(result.overrideSeverity))
    && (f.severity != "low" ==> f.severity == S.Normal(result.overrideSeverity))
    && (match f.summary
        case Untold(check) => check == k.name && Trimming.AllBlank(Space, result.summary)
        case Told(text) => text == Trim(result.summary) && !Trimming.AllBlank(Space, result.summary))
  }

  /** A finding is what policy `p` makes of its check's firing. */
  ghost predicate Stems(f: Finding, p: Policy, k: Check, a: Answer) {
    && Fires(a)
    && f.policyId == p.id && f.check == k.name && f.matches == a.result.matches && f.feedback == k.action.feedback
    && f.async == k.action.async && f.passThrough == k.action.passThrough
    && Judged(f.outcome, p, k, a.result) && Describes(f, k, a.result)
  }

  lemma AddsStem(p: Policy, k: Check, a: Answer, stage: Stage)
    ensures if Fires(a) then |Adds(p, k, a, stage)| == 1 && Stems(Adds(p, k, a, stage)[0], p, k, a)
            else Adds(p, k, a, stage) == []
  {
    if a.Done? {
      BlankMeans(a.result.summary);
    }
  }

  /**
   A regex check fires exactly when its pattern compiles and matches the scanned text; it rewrites the texts that show
   anything.
   */
  lemma RegexFiresExactly(e: Engine, r: Request, k: Check)
    requires Faithful(e) && k.name == "regex_match"
    ensures Fires(Answered(e, r, k)) <==>
            k.rule != [] && e.compile(k.rule).Some? && Matches(e.compile(k.rule).value, PickContent(r))
    ensures Fires(Answered(e, r, k)) ==>
            var result, rewritten :=
                Answered(e, r, k).result, e.replaceAll(e.compile(k.rule).value, PickContent(r), k.action);
            && result.sanitizedInput == (if Shows(r.input) then rewritten else [])
            && result.sanitizedOutput == (if Shows(r.output) then rewritten else [])
            && result.matches == e.findAll(e.compile(k.rule).value, PickContent(r))
  {
    BlankMeans(r.input);
    BlankMeans(r.output);
  }

  /** What a text is after a rewriting: the rewriting if it shows anything. */
  function Rewriting(t: Text, rewritten: Text): Text {
    if Shows(rewritten) then rewritten else t
  }

  /**
   The texts after an answer: rewritten if the check fired, with the message for the case put behind the stage's text.
   */
  lemma TextsAre(p: Policy, k: Check, a: Answer, stage: Stage, rep: Report)
    ensures var n := Record(p, k, a, stage, rep);
            match a
            case Failed(_) => n.input == rep.input && n.output == rep.output
            case Done(result) =>
              if result.triggered then
                (n.input, n.output) == Feedback(stage, Rewriting(rep.input, result.sanitizedInput),
                                                Rewriting(rep.output, result.sanitizedOutput), k.action.feedback)
              else (n.input, n.output) == Feedback(stage, rep.input, rep.output, k.action.successMessage)
  {
    if a.Done? {
      BlankMeans(a.result.sanitizedInput);
      BlankMeans(a.result.sanitizedOutput);
    }
  }

  /** A finding is one of a kept check, run in place or over the network. */
  lemma FindingKept(e: Engine, r: Request, ps: seq<Policy>, skips: Policy -> bool, f: Finding) returns (x: Pair)
    requires f in Run(e, r, ps, skips).findings
    ensures x in First(PairKey(), AllPairs(ps)) && f in Adds(x.0, x.1, AnswerOf(e, r, x.1), r.stage)
  {
    var xs := First(PairKey(), AllPairs(ps));
    FindingsInOrder(e, r, ps, skips);
    FlatMapHas(FoundLocally(e, r, skips), xs, f);
    FlatMapHas(FoundByHook(e, r), xs, f);
    var i :| 0 <= i < |xs| && (f in FoundLocally(e, r, skips)(xs[i]) || f in FoundByHook(e, r)(xs[i]));
    x := xs[i];
  }

  /** Every finding of a report stems from a check of one of the policies that fired. */
  lemma FindingStems(e: Engine, r: Request, ps: seq<Policy>, skips: Policy -> bool, f: Finding)
      returns (p: Policy, k: Check)
    requires f in Run(e, r, ps, skips).findings
    ensures p in ps && k in p.checks && Stems(f, p, k, AnswerOf(e, r, k))
  {
    var x := FindingKept(e, r, ps, skips, f);
    FreshFrom(PairKey(), {}, AllPairs(ps), x);
    AllPairsHave(ps, x);
    p, k := x.0, x.1;
    AddsStem(p, k, AnswerOf(e, r, k), r.stage);
  }

  /** Every check that is the first of its key, fires and is not skipped has its finding in the report. */
  lemma FiringIsFound(e: Engine, r: Request, ps: seq<Policy>, skips: Policy -> bool, x: Pair) returns (f: Finding)
    requires x in First(PairKey(), AllPairs(ps)) && Fires(AnswerOf(e, r, x.1))
    requires x.1.name == "regex_match" ==> !skips(x.0)
    ensures f in Run(e, r, ps, skips).findings && Stems(f, x.0, x.1, AnswerOf(e, r, x.1))
  {
    var xs := First(PairKey(), AllPairs(ps));
    var found := Adds(x.0, x.1, AnswerOf(e, r, x.1), r.stage);
    AddsStem(x.0, x.1, AnswerOf(e, r, x.1), r.stage);
    f := found[0];
    assert f in found;
    FindingsInOrder(e, r, ps, skips);
    FlatMapHas(FoundLocally(e, r, skips), xs, f);
    FlatMapHas(FoundByHook(e, r), xs, f);
    var i :| 0 <= i < |xs| && xs[i] == x;
    assert f in FoundLocally(e, r, skips)(xs[i]) || f in FoundByHook(e, r)(xs[i]);
  }

  /** Monitored policies only report, their webhooks included. */
  lemma MonitorAllows(e: Engine, r: Request, ps: seq<Policy>, skips: Policy -> bool)
    requires forall p :: p in ps ==> S.Lower(p.mode) == "monitor"
    ensures forall f :: f in Run(e, r, ps, skips).findings ==> f.outcome == Allow
  {
    forall f | f in Run(e, r, ps, skips).findings
      ensures f.outcome == Allow
    {
      var p, k := FindingStems(e, r, ps, skips, f);
    }
  }
}
