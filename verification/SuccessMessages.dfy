/**
 What skipping a cleared policy's regex checks can lose: their success messages, which the evaluator without
 pre-filters appends to the text. Both evaluators are run side by side.
 */
module SuccessMessages {
  import opened Options
  import opened Bytes
  import opened RegexLiterals
  import opened RuntimeChecks
  import Trimming

  // ---------------------------------------------------------------- appending feedback

  lemma TrimSkipsBreaks(t: Text)
    requires t != [] && !Space(t[0])
    ensures Trimming.TrimLeft(Space, [10, 10] + t) == t
  {
    var breaks: Text := [10, 10];
    assert (breaks + t)[1..] == [10] + t;
    assert (breaks + t)[1..][1..] == t;
    assert Trimming.TrimLeft(Space, [10] + t) == Trimming.TrimLeft(Space, t);
  }

  /** What appending leaves: both trimmed, with a blank line between them, or the feedback alone if there is no text. */
  lemma AppendIs(t: Text, feedback: Text)
    requires !Blank(feedback)
    ensures Append(t, feedback) == if Blank(t) then Trim(feedback) else Trim(t) + [10, 10] + Trim(feedback)
  {
    var head, tail := Trim(t), Trim(feedback);
    Trimming.TrimEnds(Space, t);
    Trimming.TrimEnds(Space, feedback);
    var whole := head + [10, 10] + tail;
    if head == [] {
      assert whole == [10, 10] + tail;
      TrimSkipsBreaks(tail);
      Trimming.TrimFixed(Space, tail);
    } else {
      assert whole[0] == head[0] && whole[|whole| - 1] == tail[|tail| - 1];
      Trimming.TrimFixed(Space, whole);
    }
  }

  /** A message goes to the text of the stage: to the output at the output stage, else to the input. */
  lemma FeedbackGoes(stage: Stage, input: Text, output: Text, feedback: Text)
    ensures var (a, b) := Feedback(stage, input, output, feedback);
            && (Blank(feedback) ==> a == input && b == output)
            && (!Blank(feedback) && stage == OutputStage ==>
                a == input && |b| == |Trim(feedback)| + if Blank(output) then 0 else |Trim(output)| + 2)
            && (!Blank(feedback) && stage != OutputStage ==>
                b == output && |a| == |Trim(feedback)| + if Blank(input) then 0 else |Trim(input)| + 2)
  {
    if !Blank(feedback) {
      AppendIs(input, feedback);
      AppendIs(output, feedback);
    }
  }

  /** Feedback that is not blank lengthens the trimmed text by itself and the break before it, if there was a text. */
  lemma AppendGrows(t: Text, feedback: Text)
    requires !Blank(feedback)
    ensures |Trim(Append(t, feedback))| == |Trim(feedback)| + if Blank(t) then 0 else |Trim(t)| + 2
  {
    AppendIs(t, feedback);
    Trimming.TrimTwice(Space, Trim(t) + [10, 10] + Trim(feedback));
  }

  // ---------------------------------------------------------------- the checks in one row

  /** A check with its policy and whether that policy was cleared. */
  datatype Item = Item(policy: Policy, check: Check, cleared: bool)

  function Tag(p: Policy, checks: seq<Check>, cleared: bool): seq<Item> {
    if checks == [] then [] else [Item(p, checks[0], cleared)] + Tag(p, checks[1..], cleared)
  }

  function Items(policies: seq<Policy>, skips: Policy -> bool): seq<Item> {
    if policies == [] then []
    else Tag(policies[0], policies[0].checks, skips(policies[0])) + Items(policies[1..], skips)
  }

  /** Runs the row; `honour` says whether cleared policies are skipped. */
  function RunItems(e: Engine, r: Request, items: seq<Item>, honour: bool, s: Progress): Progress {
    if items == [] then s
    else RunItems(e, r, items[1..], honour, Step(e, r, items[0].policy, honour && items[0].cleared, items[0].check, s))
  }

  lemma {:induction false} TagRun(e: Engine, r: Request, p: Policy, checks: seq<Check>, cleared: bool,
      rest: seq<Item>, honour: bool, s: Progress)
    ensures RunItems(e, r, Tag(p, checks, cleared) + rest, honour, s)
         == RunItems(e, r, rest, honour, RunChecks(e, r, p, honour && cleared, checks, s))
  {
    if checks == [] {
      assert Tag(p, checks, cleared) + rest == rest;
    } else {
      assert (Tag(p, checks, cleared) + rest)[1..] == Tag(p, checks[1..], cleared) + rest;
      TagRun(e, r, p, checks[1..], cleared, rest, honour, Step(e, r, p, honour && cleared, checks[0], s));
    }
  }

  lemma {:induction false} ItemsRun(e: Engine, r: Request, policies: seq<Policy>, skips: Policy -> bool, honour: bool,
      f: Policy -> bool, s: Progress)
    requires forall p :: f(p) == (honour && skips(p))
    ensures RunPolicies(e, r, policies, f, s) == RunItems(e, r, Items(policies, skips), honour, s)
  {
    if policies != [] {
      var p := policies[0];
      TagRun(e, r, p, p.checks, skips(p), Items(policies[1..], skips), honour, s);
      ItemsRun(e, r, policies[1..], skips, honour, f, RunChecks(e, r, p, f(p), p.checks, s));
    }
  }

  lemma {:induction false} TagFrom(p: Policy, checks: seq<Check>, cleared: bool, item: Item)
    requires item in Tag(p, checks, cleared)
    ensures item.policy == p && item.check in checks && item.cleared == cleared
  {
    if item != Tag(p, checks, cleared)[0] {
      TagFrom(p, checks[1..], cleared, item);
    }
  }

  lemma {:induction false} ItemsFrom(policies: seq<Policy>, skips: Policy -> bool, item: Item)
    requires item in Items(policies, skips)
    ensures item.policy in policies && item.check in item.policy.checks && item.cleared == skips(item.policy)
  {
    var p := policies[0];
    if item in Tag(p, p.checks, skips(p)) {
      TagFrom(p, p.checks, skips(p), item);
    } else {
      ItemsFrom(policies[1..], skips, item);
    }
  }

  // ---------------------------------------------------------------- side by side

  /** The text the stage's feedback goes to. */
  function StageText(stage: Stage, rep: Report): Text {
    if stage == OutputStage then rep.output else rep.input
  }

  function OtherText(stage: Stage, rep: Report): Text {
    if stage == OutputStage then rep.input else rep.output
  }

  /** Everything in a report but the stage's text. */
  function Rest(stage: Stage, rep: Report): (seq<Finding>, seq<(string, Summary)>, seq<ChainEntry>, Text) {
    (rep.findings, rep.redactions, rep.chain, OtherText(stage, rep))
  }

  /** The two reports agree, but for a longer text in the second one when they are `apart`. */
  ghost predicate Abreast(stage: Stage, a: Report, b: Report, apart: bool) {
    && Rest(stage, a) == Rest(stage, b)
    && if apart then |Trim(StageText(stage, a))| < |Trim(StageText(stage, b))|
       else StageText(stage, a) == StageText(stage, b)
  }

  /** The answer replaces the stage's text. */
  predicate Rewrites(stage: Stage, a: Answer) {
    a.Done? && a.result.triggered
        && !Blank(if stage == OutputStage then a.result.sanitizedOutput else a.result.sanitizedInput)
  }

  lemma FeedbackAbreast(stage: Stage, a: (Text, Text), b: (Text, Text), feedback: Text)
    requires stage == OutputStage ==> |Trim(a.1)| < |Trim(b.1)|
    requires stage != OutputStage ==> |Trim(a.0)| < |Trim(b.0)|
    ensures stage == OutputStage ==>
            |Trim(Feedback(stage, a.0, a.1, feedback).1)| < |Trim(Feedback(stage, b.0, b.1, feedback).1)|
    ensures stage != OutputStage ==>
            |Trim(Feedback(stage, a.0, a.1, feedback).0)| < |Trim(Feedback(stage, b.0, b.1, feedback).0)|
  {
    if !Blank(feedback) {
      AppendGrows(a.0, feedback);
      AppendGrows(a.1, feedback);
      AppendGrows(b.0, feedback);
      AppendGrows(b.1, feedback);
    }
  }

  /** The same answer on both sides keeps them abreast, and brings them together when it replaces the text. */
  lemma RecordAbreast(p: Policy, c: Check, answer: Answer, stage: Stage, a: Report, b: Report, apart: bool)
    requires Abreast(stage, a, b, apart)
    ensures Abreast(stage, Record(p, c, answer, stage, a), Record(p, c, answer, stage, b),
                    apart && !Rewrites(stage, answer))
  {
    if answer.Done? && apart && !Rewrites(stage, answer) {
      var result := answer.result;
      if !result.triggered {
        FeedbackAbreast(stage, (a.input, a.output), (b.input, b.output), c.action.successMessage);
      } else {
        var aIn := if Blank(result.sanitizedInput) then a.input else result.sanitizedInput;
        var aOut := if Blank(result.sanitizedOutput) then a.output else result.sanitizedOutput;
        var bIn := if Blank(result.sanitizedInput) then b.input else result.sanitizedInput;
        var bOut := if Blank(result.sanitizedOutput) then b.output else result.sanitizedOutput;
        FeedbackAbreast(stage, (aIn, aOut), (bIn, bOut), c.action.feedback);
      }
    }
  }

  /** A check that finds nothing, run on the second side alone, sets them apart exactly by its success message. */
  lemma MessageParts(p: Policy, c: Check, stage: Stage, a: Report, b: Report, apart: bool)
    requires Abreast(stage, a, b, apart)
    ensures Abreast(stage, a, Record(p, c, Done(NOTHING), stage, b), apart || !Silent(c))
  {
    if !Silent(c) {
      AppendGrows(b.input, c.action.successMessage);
      AppendGrows(b.output, c.action.successMessage);
    }
  }

  function Key(item: Item): string {
    CheckKey(item.policy, item.check)
  }

  predicate Dropped(item: Item) {
    item.cleared && item.check.name == "regex_match"
  }

  /** Whether the sides are apart after the row: set by a dropped message, reset by a replaced text. */
  function ApartAfter(e: Engine, r: Request, items: seq<Item>, seen: set<string>, apart: bool): bool {
    if items == [] then apart
    else
      var item := items[0];
      var now :=
        if Key(item) in seen || item.check.name == "webhook" then apart
        else if Dropped(item) then apart || !Silent(item.check)
        else apart && !Rewrites(r.stage, Answered(e, r, item.check));
      ApartAfter(e, r, items[1..], seen + {Key(item)}, now)
  }

  function ApartAfterHooks(e: Engine, r: Request, hooks: seq<(Policy, Check)>, apart: bool): bool {
    if hooks == [] then apart else ApartAfterHooks(e, r, hooks[1..], apart && !Rewrites(r.stage, e.webhook(hooks[0].1)))
  }

  ghost predicate DroppedQuiet(e: Engine, r: Request, items: seq<Item>) {
    forall i :: 0 <= i < |items| && Dropped(items[i]) ==> Quiet(e, r, items[i].check)
  }

  lemma {:induction false} ItemsAbreast(e: Engine, r: Request, items: seq<Item>, s: Progress, n: Progress, apart: bool)
    requires Faithful(e) && DroppedQuiet(e, r, items)
    requires s.seen == n.seen && s.hooks == n.hooks && Abreast(r.stage, s.report, n.report, apart)
    ensures var s', n' := RunItems(e, r, items, true, s), RunItems(e, r, items, false, n);
            s'.hooks == n'.hooks && Abreast(r.stage, s'.report, n'.report, ApartAfter(e, r, items, s.seen, apart))
  {
    if items != [] {
      var item := items[0];
      var s1 := Step(e, r, item.policy, item.cleared, item.check, s);
      var n1 := Step(e, r, item.policy, false, item.check, n);
      if Dropped(item) {
        QuietAnswers(e, r, item.check);
        MessageParts(item.policy, item.check, r.stage, s.report, n.report, apart);
      } else {
        RecordAbreast(item.policy, item.check, Answered(e, r, item.check), r.stage, s.report, n.report, apart);
      }
      var now :=
        if Key(item) in s.seen || item.check.name == "webhook" then apart
        else if Dropped(item) then apart || !Silent(item.check)
        else apart && !Rewrites(r.stage, Answered(e, r, item.check));
      assert s1.seen == s.seen + {Key(item)};
      assert Abreast(r.stage, s1.report, n1.report, now);
      ItemsAbreast(e, r, items[1..], s1, n1, now);
    }
  }

  lemma {:induction false} HooksAbreast(e: Engine, r: Request, hooks: seq<(Policy, Check)>, a: Report, b: Report,
      apart: bool)
    requires Abreast(r.stage, a, b, apart)
    ensures Abreast(r.stage, MergeHooks(e, r, hooks, a), MergeHooks(e, r, hooks, b),
                    ApartAfterHooks(e, r, hooks, apart))
  {
    if hooks != [] {
      var answer := e.webhook(hooks[0].1);
      RecordAbreast(hooks[0].0, hooks[0].1, answer, r.stage, a, b, apart);
      HooksAbreast(e, r, hooks[1..], Record(hooks[0].0, hooks[0].1, answer, r.stage, a),
                   Record(hooks[0].0, hooks[0].1, answer, r.stage, b), apart && !Rewrites(r.stage, answer));
    }
  }

  /** Some dropped message outlives every later replacement of the text. */
  ghost predicate MessageLost(e: Engine, r: Request, policies: seq<Policy>, skips: Policy -> bool) {
    ApartAfterHooks(e, r, RunPolicies(e, r, policies, skips, Start(r)).hooks,
                    ApartAfter(e, r, Items(policies, skips), {}, false))
  }

  /** The skips are those the pre-filters decide, on policies whose patterns keep the extractor's promise. */
  ghost predicate Decided(e: Engine, r: Request, policies: seq<Policy>, skips: Policy -> bool) {
    forall p :: p in policies ==> Agreeable(e, p) && skips(p) == Skipped(e, r, p)
  }

  /**
   For every mix of checks and webhooks, skipping shows exactly when a dropped message outlives the later rewritings.
   */
  lemma SkippingExactly(e: Engine, r: Request, policies: seq<Policy>, skips: Policy -> bool)
    requires Faithful(e) && Decided(e, r, policies, skips)
    ensures Run(e, r, policies, skips) == Reference(e, r, policies) <==> !MessageLost(e, r, policies, skips)
  {
    var items := Items(policies, skips);
    ItemsRun(e, r, policies, skips, true, skips, Start(r));
    ItemsRun(e, r, policies, skips, false, p => false, Start(r));
    forall i | 0 <= i < |items| && Dropped(items[i])
      ensures Quiet(e, r, items[i].check)
    {
      ItemsFrom(policies, skips, items[i]);
      SkippedIsQuiet(e, r, items[i].policy, items[i].check);
    }
    ItemsAbreast(e, r, items, Start(r), Start(r), false);
    var s := RunPolicies(e, r, policies, skips, Start(r));
    var n := RunPolicies(e, r, policies, p => false, Start(r));
    HooksAbreast(e, r, s.hooks, s.report, n.report, ApartAfter(e, r, items, {}, false));
  }

  // ---------------------------------------------------------------- when nothing rewrites the text

  /** No earlier check of the row has the same key. */
  predicate FirstOfKey(items: seq<Item>, i: nat)
    requires i < |items|
  {
    forall j :: 0 <= j < i ==> Key(items[j]) != Key(items[i])
  }

  /** A dropped check with a success message, the first of its key. */
  predicate Loud(items: seq<Item>, i: nat) {
    i < |items| && FirstOfKey(items, i) && Dropped(items[i]) && !Silent(items[i].check)
  }

  ghost predicate SomeLoud(items: seq<Item>) {
    exists i: nat :: Loud(items, i)
  }

  /** No other check and no webhook replaces the stage's text. */
  ghost predicate NoRewriting(e: Engine, r: Request, items: seq<Item>) {
    && (forall i :: 0 <= i < |items| && !Dropped(items[i]) ==> !Rewrites(r.stage, Answered(e, r, items[i].check)))
    && (forall c :: !Rewrites(r.stage, e.webhook(c)))
  }

  lemma {:induction false} ApartExactly(e: Engine, r: Request, items: seq<Item>, seen: set<string>,
      apart: bool)
    requires forall i :: 0 <= i < |items| && !Dropped(items[i]) ==> !Rewrites(r.stage, Answered(e, r, items[i].check))
    ensures ApartAfter(e, r, items, seen, apart) <==>
      apart || exists i: nat :: Loud(items, i) && Key(items[i]) !in seen
  {
    if items != [] {
      var item, rest := items[0], items[1..];
      ApartExactly(e, r, rest, seen + {Key(item)}, apart || (Loud(items, 0) && Key(item) !in seen));
      assert forall i :: 0 <= i < |rest| ==> rest[i] == items[i + 1];
      if i: nat :| Loud(items, i) && Key(items[i]) !in seen {
        if i > 0 {
          assert FirstOfKey(rest, i - 1);
          assert Loud(rest, i - 1);
        }
      }
      if i: nat :| Loud(rest, i) && Key(rest[i]) !in seen + {Key(item)} {
        assert Loud(items, i + 1);
      }
    }
  }

  lemma {:induction false} HooksKeepApart(e: Engine, r: Request, hooks: seq<(Policy, Check)>, apart: bool)
    requires forall c :: !Rewrites(r.stage, e.webhook(c))
    ensures ApartAfterHooks(e, r, hooks, apart) == apart
  {
    if hooks != [] {
      HooksKeepApart(e, r, hooks[1..], apart);
    }
  }

  /**
   Where no answer rewrites the text, the two evaluators agree exactly when each regex check of a cleared policy that is
   the first of its key is silent.
   */
  lemma SkippingExactWhenSilent(e: Engine, r: Request, policies: seq<Policy>, skips: Policy -> bool)
    requires Faithful(e) && Decided(e, r, policies, skips) && NoRewriting(e, r, Items(policies, skips))
    ensures Run(e, r, policies, skips) == Reference(e, r, policies) <==> !SomeLoud(Items(policies, skips))
  {
    var items := Items(policies, skips);
    var hooks := RunPolicies(e, r, policies, skips, Start(r)).hooks;
    var none: set<string> := {};
    var apart := ApartAfter(e, r, items, none, false);
    SkippingExactly(e, r, policies, skips);
    ApartExactly(e, r, items, none, false);
    HooksKeepApart(e, r, hooks, apart);
    assert MessageLost(e, r, policies, skips) <==> apart;
    if i: nat :| Loud(items, i) {
      assert Loud(items, i) && Key(items[i]) !in none;
    }
  }

  // ---------------------------------------------------------------- a lost message

  /** One regex check that finds nothing and says "ok" on success. */
  function Chatty(): Check {
    Check("regex_match", "fp", [97], [], Action(Deny, false, false, false, [], [111, 107]))
  }

  /** A policy of that one check is cleared by its union, and the message is gone. */
  lemma LostMessage(r: Request) returns (e: Engine, p: Policy, skips: Policy -> bool)
    ensures Faithful(e) && skips(p) && Skipped(e, r, p) && p.checks == [Chatty()]
    ensures Run(e, r, [p], skips) != Reference(e, r, [p])
  {
    e := Engine(t => Some(NoMatch), parts => true, (re, t) => Matches(re, t),
                (re, t) => if Matches(re, t) then [t] else [],
                (re, t, a) => t, c => Done(NOTHING), c => Done(NOTHING));
    p := Policy("id", "name", "block", [Chatty()]);
    skips := q => true;
    var parts := [NoMatch];
    assert p.checks[1..] == [] && [p][1..] == [];
    assert UnionParts(e, []) == Some([]) && [NoMatch] + [] == parts;
    assert Scans(p.checks[0]) && e.compile(p.checks[0].rule) == Some(NoMatch);
    assert UnionParts(e, p.checks) == Some(parts);
    UnionMatches(parts, PickContent(r));
    assert Skipped(e, r, p);
    var items := Items([p], skips);
    assert Tag(p, [], true) == [] && Items([], skips) == [];
    assert items == [Item(p, Chatty(), true)];
    assert !Silent(Chatty()) by {
      Trimming.TrimFixed(Space, [111, 107]);
    }
    assert Loud(items, 0);
    SkippingExactWhenSilent(e, r, [p], skips);
  }
}
