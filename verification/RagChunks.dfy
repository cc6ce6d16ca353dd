/** Evaluating retrieved chunks: many at a time under a semaphore, and one chunk's decision from its findings. */
module RagChunks {
  import opened Options
  import opened Strings
  import RC = RuntimeChecks
  import Trimming

  datatype Decision = Allow | Redact | Reject | Quarantine

  function Rank(d: Decision): nat {
    match d
    case Allow => 1
    case Redact => 2
    case Reject => 3
    case Quarantine => 4
  }

  function FromOutcome(o: RC.Outcome): Decision {
    match o
    case Deny => Reject
    case Sandbox => Reject
    case Redact => Redact
    case Allow => Allow
  }

  datatype Chunk = Chunk(id: string, sourceId: string, content: string, trust: int, injection: int, pii: seq<string>,
      quarantined: bool)

  /**
   The RAG directives of a policy; `applies` and `patternHits` are its role, app and pattern tests on this request and
   chunk.
   */
  datatype Directives = Directives(
    policy: string, monitor: bool, applies: bool, requireApproval: bool, trusted: seq<string>, minTrust: int,
    maxInjection: int, blockOnPii: bool, patternHits: bool, citation: bool)

  /** Why a decision was taken. */
  datatype Note =
    | NoNote
    | AccessScope
    | RestrictedAccess
    | SourceQuarantine
    | TrustedSourceMiss
    | SourceTrust
    | InjectionScore
    | FlaggedPii
    | BlockedPattern
    | SanitizedByCheck
    | SanitizedByRule
    | PrecomputedPii
    | ShadowMode
    | Told(text: string)

  predicate Blank(n: Note) {
    n.NoNote? || (n.Told? && Trim(n.text) == "")
  }

  lemma BlankIs(n: Note)
    ensures Blank(n) <==> n == NoNote || (n.Told? && Trimming.AllBlank(IsBlank, n.text))
  {
    if n.Told? {
      Trimming.TrimsAway(IsBlank, n.text);
    }
  }

  /** `chunkOnly` findings speak about the chunk they name, the others about the request. */
  datatype Finding = Finding(policy: string, chunkOnly: bool, chunkId: string, decision: Decision, outcome: RC.Outcome,
      summary: Note)

  /** A finding of the shared evaluators; its own details may already name a chunk. */
  datatype Raw = Raw(policy: string, chunkId: Option<string>, outcome: RC.Outcome, summary: string)

  /** What one of the shared evaluators answers for the chunk: findings, redactions and the rewritten text. */
  datatype Evaluated = Evaluated(findings: seq<Raw>, redactions: seq<string>, text: string)

  datatype Outcome = Outcome(decision: Decision, reason: Note, sanitized: string, citation: bool, hits: set<string>)

  // ---------------------------------------------------------------- the directives of one policy

  function About(chunk: Chunk, d: Directives, decision: Decision, summary: Note): Finding {
    Finding(d.policy, true, chunk.id, decision, RC.Allow, summary)
  }

  function Blocking(chunk: Chunk, d: Directives, summary: Note): Finding {
    Finding(d.policy, false, chunk.id, Allow, if d.monitor then RC.Allow else RC.Deny, summary)
  }

  predicate Untrusted(chunk: Chunk, d: Directives) {
    d.trusted != [] && chunk.sourceId != "" && forall i :: 0 <= i < |d.trusted| ==>
        Normal(d.trusted[i]) != Normal(chunk.sourceId)
  }

  predicate LowTrust(chunk: Chunk, d: Directives) {
    d.minTrust > 0 && 0 < chunk.trust < d.minTrust
  }

  predicate Injected(chunk: Chunk, d: Directives) {
    d.maxInjection > 0 && chunk.injection > d.maxInjection
  }

  predicate Leaks(chunk: Chunk, d: Directives) {
    d.blockOnPii && chunk.pii != []
  }

  function ScoreRank(chunk: Chunk, d: Directives): int {
    if Untrusted(chunk, d) || LowTrust(chunk, d) || Injected(chunk, d) || d.patternHits then Rank(Reject)
    else if Leaks(chunk, d) then Rank(Redact)
    else -1
  }

  /** The gravest rank a policy's directives ask for. */
  function Asks(chunk: Chunk, d: Directives): int {
    if !d.applies then -1 else if chunk.quarantined then Rank(Quarantine) else ScoreRank(chunk, d)
  }

  function If(test: bool, f: Finding): seq<Finding> {
    if test then [f] else []
  }

  function ScoreFindings(chunk: Chunk, d: Directives): seq<Finding> {
    If(Untrusted(chunk, d), About(chunk, d, Reject, TrustedSourceMiss))
    + If(LowTrust(chunk, d), About(chunk, d, Reject, SourceTrust))
    + If(Injected(chunk, d), About(chunk, d, Reject, InjectionScore))
    + If(Leaks(chunk, d), About(chunk, d, Redact, FlaggedPii))
    + If(d.patternHits, About(chunk, d, Reject, BlockedPattern))
  }

  /** What the approval and quarantine tests of an applying policy find. */
  function Standing(chunk: Chunk, d: Directives): seq<Finding> {
    If(d.requireApproval, Blocking(chunk, d, RestrictedAccess))
        + If(chunk.quarantined, About(chunk, d, Quarantine, SourceQuarantine))
  }

  /** The findings of one policy's directives, in the order they are raised. */
  function DirectiveFindings(chunk: Chunk, d: Directives): seq<Finding> {
    if !d.applies then If(d.requireApproval, Blocking(chunk, d, AccessScope))
    else Standing(chunk, d) + ScoreFindings(chunk, d)
  }

  function AllDirectiveFindings(chunk: Chunk, ds: seq<Directives>): seq<Finding> {
    if ds == [] then [] else AllDirectiveFindings(chunk, ds[..|ds| - 1]) + DirectiveFindings(chunk, ds[|ds| - 1])
  }

  /** The names of the policies that apply, and whether one of them wants a citation. */
  function Hits(ds: seq<Directives>): set<string> {
    if ds == [] then {} else Hits(ds[..|ds| - 1]) + if ds[|ds| - 1].applies then {ds[|ds| - 1].policy} else {}
  }

  predicate Cites(ds: seq<Directives>) {
    ds != [] && (Cites(ds[..|ds| - 1]) || (ds[|ds| - 1].applies && ds[|ds| - 1].citation))
  }

  /** The quarantined sources: this chunk's, as soon as one policy applies. */
  function Sources(chunk: Chunk, ds: seq<Directives>): set<string> {
    if ds == [] then {}
    else
      Sources(chunk, ds[..|ds| - 1])
      + if ds[|ds| - 1].applies && chunk.quarantined && chunk.sourceId != "" then {chunk.sourceId} else {}
  }

  function Decide(now: (Decision, Note), f: Finding): (Decision, Note) {
    if f.chunkOnly && (f.decision == Quarantine || now.0 == Allow) then (f.decision, f.summary) else now
  }

  /** How findings about the chunk decide, one after the other: the first one stands, but a quarantine always wins. */
  function Deciding(start: (Decision, Note), fs: seq<Finding>): (Decision, Note) {
    if fs == [] then start else Decide(Deciding(start, fs[..|fs| - 1]), fs[|fs| - 1])
  }

  lemma DecidingIf(start: (Decision, Note), fs: seq<Finding>, test: bool, f: Finding)
    ensures Deciding(start, fs + If(test, f)) == if test then Decide(Deciding(start, fs), f) else Deciding(start, fs)
  {
    if test {
      assert (fs + [f])[..|fs|] == fs;
    } else {
      assert fs + [] == fs;
    }
  }

  lemma {:induction false} DecidingAppend(start: (Decision, Note), a: seq<Finding>, b: seq<Finding>)
    ensures Deciding(start, a + b) == Deciding(Deciding(start, a), b)
    decreases |b|
  {
    if b == [] {
      assert a + b == a;
    } else {
      DecidingAppend(start, a, b[..|b| - 1]);
      assert (a + b)[..|a + b| - 1] == a + b[..|b| - 1];
    }
  }

  // ---------------------------------------------------------------- the decision as a maximum

  predicate Counts(chunk: Chunk, f: Finding) {
    f.chunkOnly && Trim(f.chunkId) == Trim(chunk.id)
  }

  /** Some finding about the chunk reaches rank `k`. */
  predicate Reaches(chunk: Chunk, fs: seq<Finding>, k: nat) {
    exists i :: 0 <= i < |fs| && Counts(chunk, fs[i]) && Rank(fs[i].decision) >= k
  }

  lemma ReachesAppend(chunk: Chunk, a: seq<Finding>, b: seq<Finding>, k: nat)
    ensures Reaches(chunk, a + b, k) <==> Reaches(chunk, a, k) || Reaches(chunk, b, k)
  {
    if i :| 0 <= i < |a| && Counts(chunk, a[i]) && Rank(a[i].decision) >= k {
      assert (a + b)[i] == a[i];
    }
    if i :| 0 <= i < |b| && Counts(chunk, b[i]) && Rank(b[i].decision) >= k {
      assert (a + b)[|a| + i] == b[i];
    }
  }

  lemma ReachesOne(chunk: Chunk, f: Finding, k: nat)
    ensures Reaches(chunk, [f], k) <==> Counts(chunk, f) && Rank(f.decision) >= k
  {
    assert [f][0] == f;
  }

  function Now(o: Outcome): (Decision, Note) {
    (o.decision, o.reason)
  }

  /** Nothing but the decision and its reason moves. */
  predicate Same(o0: Outcome, o: Outcome) {
    o == o0.(decision := o.decision, reason := o.reason)
  }

  /** Appends a finding about the chunk and lets it decide while nothing else has. */
  method RaiseIf(test: bool, chunk: Chunk, d: Directives, decision: Decision, summary: Note, fs0: seq<Finding>,
      o0: Outcome, ghost start: (Decision, Note))
      returns (fs: seq<Finding>, o: Outcome)
    requires Now(o0) == Deciding(start, fs0) && decision != Quarantine
    ensures fs == fs0 + If(test, About(chunk, d, decision, summary))
    ensures Now(o) == Deciding(start, fs) && Same(o0, o)
  {
    fs, o := fs0, o0;
    if test {
      fs := fs + [About(chunk, d, decision, summary)];
      if o.decision == Allow {
        o := o.(decision := decision, reason := summary);
      }
    }
    DecidingIf(start, fs0, test, About(chunk, d, decision, summary));
    assert !test ==> fs0 + If(test, About(chunk, d, decision, summary)) == fs0;
  }

  /** The tests by trust, injection score, personal data and pattern. */
  method ApplyScores(chunk: Chunk, d: Directives, o0: Outcome) returns (found: seq<Finding>, o: Outcome)
    ensures found == ScoreFindings(chunk, d)
    ensures Now(o) == Deciding(Now(o0), found) && Same(o0, o)
  {
    found, o := RaiseIf(Untrusted(chunk, d), chunk, d, Reject, TrustedSourceMiss, [], o0, Now(o0));
    found, o := RaiseIf(LowTrust(chunk, d), chunk, d, Reject, SourceTrust, found, o, Now(o0));
    found, o := RaiseIf(Injected(chunk, d), chunk, d, Reject, InjectionScore, found, o, Now(o0));
    found, o := RaiseIf(Leaks(chunk, d), chunk, d, Redact, FlaggedPii, found, o, Now(o0));
    found, o := RaiseIf(d.patternHits, chunk, d, Reject, BlockedPattern, found, o, Now(o0));
  }

  /** The approval and quarantine tests of an applying policy. */
  method ApplyStanding(chunk: Chunk, d: Directives, o0: Outcome, sources0: set<string>)
      returns (found: seq<Finding>, o: Outcome, sources: set<string>)
    ensures found == Standing(chunk, d)
    ensures Now(o) == Deciding(Now(o0), found) && Same(o0, o)
    ensures sources == sources0 + if chunk.quarantined && chunk.sourceId != "" then {chunk.sourceId} else {}
  {
    found, o, sources := [], o0, sources0;
    if d.requireApproval {
      found := [Blocking(chunk, d, RestrictedAccess)];
    }
    ghost var approval := found;
    if chunk.quarantined {
      if chunk.sourceId != "" {
        sources := sources + {chunk.sourceId};
      }
      found := found + [About(chunk, d, Quarantine, SourceQuarantine)];
      o := o.(decision := Quarantine, reason := SourceQuarantine);
    }
    assert [] + If(d.requireApproval, Blocking(chunk, d, RestrictedAccess)) == approval;
    DecidingIf(Now(o0), [], d.requireApproval, Blocking(chunk, d, RestrictedAccess));
    DecidingIf(Now(o0), approval, chunk.quarantined, About(chunk, d, Quarantine, SourceQuarantine));
  }

  /** One pass of the directive loop. */
  method ApplyDirectives(chunk: Chunk, d: Directives, o0: Outcome, sources0: set<string>)
      returns (found: seq<Finding>, o: Outcome, sources: set<string>)
    ensures found == DirectiveFindings(chunk, d) && Now(o) == Deciding(Now(o0), found)
    ensures o.sanitized == o0.sanitized && o.citation == (o0.citation || (d.applies && d.citation))
    ensures o.hits == o0.hits + if d.applies then {d.policy} else {}
    ensures sources == sources0
            + if d.applies && chunk.quarantined && chunk.sourceId != "" then {chunk.sourceId} else {}
  {
    found, o, sources := [], o0, sources0;
    if !d.applies {
      if d.requireApproval {
        found := [Blocking(chunk, d, AccessScope)];
      }
      return;
    }
    o := o.(hits := o.hits + {d.policy});
    found, o, sources := ApplyStanding(chunk, d, o, sources);
    var scored;
    ghost var standing := found;
    scored, o := ApplyScores(chunk, d, o);
    DecidingAppend(Now(o0), standing, scored);
    found := found + scored;
    if d.citation {
      o := o.(citation := true);
    }
  }

  lemma ReachesIf(chunk: Chunk, a: seq<Finding>, test: bool, f: Finding, k: nat)
    ensures Reaches(chunk, a + If(test, f), k) <==>
            Reaches(chunk, a, k) || (test && Counts(chunk, f) && Rank(f.decision) >= k)
  {
    ReachesAppend(chunk, a, If(test, f), k);
    ReachesOne(chunk, f, k);
  }

  lemma IfReaches(chunk: Chunk, test: bool, f: Finding, k: nat)
    ensures Reaches(chunk, If(test, f), k) <==> test && Counts(chunk, f) && Rank(f.decision) >= k
  {
    ReachesOne(chunk, f, k);
  }

  lemma ScoresReach(chunk: Chunk, d: Directives, k: nat)
    ensures Reaches(chunk, ScoreFindings(chunk, d), k) <==> k <= ScoreRank(chunk, d)
  {
    var a := If(Untrusted(chunk, d), About(chunk, d, Reject, TrustedSourceMiss));
    var b := a + If(LowTrust(chunk, d), About(chunk, d, Reject, SourceTrust));
    var c := b + If(Injected(chunk, d), About(chunk, d, Reject, InjectionScore));
    var e := c + If(Leaks(chunk, d), About(chunk, d, Redact, FlaggedPii));
    assert [] + a == a;
    ReachesIf(chunk, [], Untrusted(chunk, d), About(chunk, d, Reject, TrustedSourceMiss), k);
    ReachesIf(chunk, a, LowTrust(chunk, d), About(chunk, d, Reject, SourceTrust), k);
    ReachesIf(chunk, b, Injected(chunk, d), About(chunk, d, Reject, InjectionScore), k);
    ReachesIf(chunk, c, Leaks(chunk, d), About(chunk, d, Redact, FlaggedPii), k);
    ReachesIf(chunk, e, d.patternHits, About(chunk, d, Reject, BlockedPattern), k);
  }

  lemma StandingReaches(chunk: Chunk, d: Directives, k: nat)
    ensures Reaches(chunk, Standing(chunk, d), k) <==> chunk.quarantined && k <= Rank(Quarantine)
  {
    var approval := If(d.requireApproval, Blocking(chunk, d, RestrictedAccess));
    IfReaches(chunk, d.requireApproval, Blocking(chunk, d, RestrictedAccess), k);
    ReachesIf(chunk, approval, chunk.quarantined, About(chunk, d, Quarantine, SourceQuarantine), k);
  }

  /** The findings of a policy's directives reach exactly the ranks it asks for. */
  lemma DirectivesReach(chunk: Chunk, d: Directives, k: nat)
    ensures Reaches(chunk, DirectiveFindings(chunk, d), k) <==> k <= Asks(chunk, d)
  {
    if !d.applies {
      IfReaches(chunk, d.requireApproval, Blocking(chunk, d, AccessScope), k);
    } else {
      StandingReaches(chunk, d, k);
      ReachesAppend(chunk, Standing(chunk, d), ScoreFindings(chunk, d), k);
      ScoresReach(chunk, d, k);
    }
  }

  /** Some policy's directives ask for rank `k`. */
  predicate AnyAsks(chunk: Chunk, ds: seq<Directives>, k: nat) {
    exists i :: 0 <= i < |ds| && Asks(chunk, ds[i]) >= k
  }

  lemma AsksNext(chunk: Chunk, ds: seq<Directives>, i: nat, k: nat)
    requires i < |ds|
    ensures AnyAsks(chunk, ds[..i + 1], k) <==> AnyAsks(chunk, ds[..i], k) || Asks(chunk, ds[i]) >= k
  {
    var more, less := ds[..i + 1], ds[..i];
    if j :| 0 <= j < |less| && Asks(chunk, less[j]) >= k {
      assert more[j] == less[j];
    }
    if j :| 0 <= j < |more| && Asks(chunk, more[j]) >= k {
      if j < i {
        assert more[j] == less[j];
      }
    }
    assert more[i] == ds[i];
  }

  lemma {:induction false} AllDirectivesReach(chunk: Chunk, ds: seq<Directives>, k: nat)
    ensures Reaches(chunk, AllDirectiveFindings(chunk, ds), k) <==> AnyAsks(chunk, ds, k)
  {
    if ds != [] {
      var n := |ds| - 1;
      AllDirectivesReach(chunk, ds[..n], k);
      DirectivesReach(chunk, ds[n], k);
      ReachesAppend(chunk, AllDirectiveFindings(chunk, ds[..n]), DirectiveFindings(chunk, ds[n]), k);
      AsksNext(chunk, ds, n, k);
      assert ds[..n + 1] == ds;
    }
  }

  function Tag(chunk: Chunk, r: Raw): Finding {
    Finding(r.policy, true, if r.chunkId.Some? then r.chunkId.value else chunk.id, FromOutcome(r.outcome), r.outcome,
            Told(r.summary))
  }

  function TagAll(chunk: Chunk, rs: seq<Raw>): seq<Finding> {
    seq(|rs|, i requires 0 <= i < |rs| => Tag(chunk, rs[i]))
  }

  predicate Rewritten(chunk: Chunk, e: Evaluated) {
    Trim(e.text) != "" && e.text != chunk.content
  }

  predicate Flagged(chunk: Chunk, checks: Evaluated, rules: Evaluated) {
    Rewritten(chunk, checks) || Rewritten(chunk, rules) || chunk.pii != []
  }

  /** The first summary with something to say among the findings about the chunk with this decision. */
  function FirstTold(chunk: Chunk, d: Decision, fs: seq<Finding>): (told: Option<Note>)
    ensures told.Some? ==> !Blank(told.value)
  {
    if fs == [] then None
    else
      var before, f := FirstTold(chunk, d, fs[..|fs| - 1]), fs[|fs| - 1];
      if before.Some? then before
      else if Counts(chunk, f) && f.decision == d && !Blank(f.summary) then Some(f.summary)
      else None
  }

  lemma {:induction false} NothingTold(chunk: Chunk, d: Decision, fs: seq<Finding>)
    requires forall j :: 0 <= j < |fs| && Counts(chunk, fs[j]) ==> fs[j].decision != d
    ensures FirstTold(chunk, d, fs) == None
  {
    if fs != [] {
      NothingTold(chunk, d, fs[..|fs| - 1]);
    }
  }

  lemma ToldNext(chunk: Chunk, d: Decision, fs: seq<Finding>, i: nat)
    requires i < |fs|
    ensures FirstTold(chunk, d, fs[..i + 1])
         == if FirstTold(chunk, d, fs[..i]).Some? then FirstTold(chunk, d, fs[..i])
            else if Counts(chunk, fs[i]) && fs[i].decision == d && !Blank(fs[i].summary) then Some(fs[i].summary)
            else None
  {
    assert fs[..i + 1][..i] == fs[..i];
  }

  /**
   An earlier reason for the final decision stands; otherwise the first finding with that decision that says something
   gives it.
   */
  predicate ReasonFrom(chunk: Chunk, o0: Outcome, fs: seq<Finding>, o: Outcome) {
    if o.decision == o0.decision && !Blank(o0.reason) then o.reason == o0.reason
    else if FirstTold(chunk, o.decision, fs).Some? then o.reason == FirstTold(chunk, o.decision, fs).value
    else Blank(o.reason)
  }

  ghost predicate Reconciled(chunk: Chunk, o0: Outcome, fs: seq<Finding>, o: Outcome) {
    && (forall k: nat :: Rank(o.decision) >= k <==> Rank(o0.decision) >= k || Reaches(chunk, fs, k))
    && ReasonFrom(chunk, o0, fs, o)
    && Same(o0.(sanitized := if o.decision == Redact && Trim(o0.sanitized) == "" then "[REDACTED]" else o0.sanitized),
            o)
  }

  /** The last step: the gravest finding about the chunk wins over what was decided before. */
  method Reconcile(chunk: Chunk, o0: Outcome, fs: seq<Finding>) returns (o: Outcome)
    ensures Reconciled(chunk, o0, fs, o) && (o.decision == Redact ==> Trim(o.sanitized) != "")
  {
    Trimming.TrimFixed(IsBlank, "[REDACTED]");
    o := o0;
    for i := 0 to |fs|
      invariant Same(o0, o) && Rank(o.decision) >= Rank(o0.decision)
      invariant forall j :: 0 <= j < i && Counts(chunk, fs[j]) ==> Rank(fs[j].decision) <= Rank(o.decision)
      invariant o.decision == o0.decision || Reaches(chunk, fs, Rank(o.decision))
      invariant ReasonFrom(chunk, o0, fs[..i], o)
    {
      var f := fs[i];
      if !Counts(chunk, f) {
        ToldNext(chunk, o.decision, fs, i);
        continue;
      }
      if Rank(f.decision) > Rank(o.decision) {
        NothingTold(chunk, f.decision, fs[..i]);
        o := o.(decision := f.decision, reason := f.summary);
      }
      ToldNext(chunk, o.decision, fs, i);
      if Blank(o.reason) && f.decision == o.decision {
        o := o.(reason := f.summary);
      }
    }
    assert fs[..|fs|] == fs;
    if o.decision == Redact && Trim(o.sanitized) == "" {
      o := o.(sanitized := "[REDACTED]");
    }
  }

  /** Lets a rewriting by one of the shared evaluators decide while nothing else has. */
  function Noted(chunk: Chunk, o: Outcome, e: Evaluated, reason: Note): Outcome {
    if Rewritten(chunk, e) && o.decision == Allow then o.(decision := Redact, sanitized := e.text, reason := reason)
    else o
  }

  /** Everything that can make the chunk's decision at least as grave as `k`. */
  predicate Deserves(chunk: Chunk, ds: seq<Directives>, checks: Evaluated, rules: Evaluated, providers: seq<Raw>,
      shadow: bool, k: nat) {
    || k <= 1
    || AnyAsks(chunk, ds, k)
    || Reaches(chunk, TagAll(chunk, checks.findings) + TagAll(chunk, rules.findings) + TagAll(chunk, providers), k)
    || (k <= 2 && !shadow && Flagged(chunk, checks, rules))
  }

  /** What a policy may say: about the chunk, leaving the request alone, or that the request needs an approval. */
  predicate Says(d: Directives, f: Finding) {
    && f.policy == d.policy
    && if f.chunkOnly then d.applies && f.outcome == RC.Allow
       else d.requireApproval && f.decision == Allow && f.outcome == if d.monitor then RC.Allow else RC.Deny
  }

  predicate AllSay(d: Directives, fs: seq<Finding>) {
    forall i :: 0 <= i < |fs| ==> Says(d, fs[i])
  }

  lemma AllSayJoin(d: Directives, a: seq<Finding>, b: seq<Finding>)
    requires AllSay(d, a) && AllSay(d, b)
    ensures AllSay(d, a + b)
  {
  }

  lemma StandingSays(chunk: Chunk, d: Directives)
    requires d.applies
    ensures AllSay(d, Standing(chunk, d))
  {
    AllSayJoin(d, If(d.requireApproval, Blocking(chunk, d, RestrictedAccess)),
               If(chunk.quarantined, About(chunk, d, Quarantine, SourceQuarantine)));
  }

  lemma ScoresSay(chunk: Chunk, d: Directives)
    requires d.applies
    ensures AllSay(d, ScoreFindings(chunk, d))
  {
    var a := If(Untrusted(chunk, d), About(chunk, d, Reject, TrustedSourceMiss));
    var b := If(LowTrust(chunk, d), About(chunk, d, Reject, SourceTrust));
    var c := If(Injected(chunk, d), About(chunk, d, Reject, InjectionScore));
    var e := If(Leaks(chunk, d), About(chunk, d, Redact, FlaggedPii));
    AllSayJoin(d, a, b);
    AllSayJoin(d, a + b, c);
    AllSayJoin(d, a + b + c, e);
    AllSayJoin(d, a + b + c + e, If(d.patternHits, About(chunk, d, Reject, BlockedPattern)));
  }

  /**
   A policy's findings about the chunk leave the request alone; a required approval denies the request, unless the
   policy monitors, and whether or not the policy applies to the chunk.
   */
  lemma DirectiveFindingsSay(chunk: Chunk, d: Directives)
    ensures AllSay(d, DirectiveFindings(chunk, d))
  {
    if d.applies {
      StandingSays(chunk, d);
      ScoresSay(chunk, d);
      AllSayJoin(d, Standing(chunk, d), ScoreFindings(chunk, d));
    }
  }

  lemma ApprovalIsFound(chunk: Chunk, d: Directives)
    requires d.requireApproval
    ensures exists f :: f in DirectiveFindings(chunk, d) && !f.chunkOnly
  {
    var f := Blocking(chunk, d, if d.applies then RestrictedAccess else AccessScope);
    if d.applies {
      assert f in Standing(chunk, d);
    }
    assert f in DirectiveFindings(chunk, d);
  }

  // ---------------------------------------------------------------- the decision told from the chunk itself

  /** Something about the chunk this policy refuses: its source, its trust, its injection score, or a pattern in it. */
  ghost predicate Refuses(d: Directives, chunk: Chunk) {
    || d.patternHits
    || (d.trusted != [] && chunk.sourceId != "" && forall s :: s in d.trusted ==> Normal(s) != Normal(chunk.sourceId))
    || (chunk.trust > 0 && chunk.trust < d.minTrust)
    || (d.maxInjection > 0 && chunk.injection > d.maxInjection)
  }

  ghost predicate SaidOf(chunk: Chunk, rs: seq<Raw>, outcomes: set<RC.Outcome>) {
    exists i :: 0 <= i < |rs| && rs[i].outcome in outcomes
        && (rs[i].chunkId.None? || Trim(rs[i].chunkId.value) == Trim(chunk.id))
  }

  ghost predicate SaidByAny(chunk: Chunk, checks: Evaluated, rules: Evaluated, providers: seq<Raw>,
      outcomes: set<RC.Outcome>) {
    SaidOf(chunk, checks.findings, outcomes) || SaidOf(chunk, rules.findings, outcomes)
        || SaidOf(chunk, providers, outcomes)
  }

  ghost predicate Held(chunk: Chunk, ds: seq<Directives>) {
    chunk.quarantined && exists d :: d in ds && d.applies
  }

  ghost predicate Refused(chunk: Chunk, ds: seq<Directives>, checks: Evaluated, rules: Evaluated, providers: seq<Raw>) {
    || (exists d :: d in ds && d.applies && Refuses(d, chunk))
    || SaidByAny(chunk, checks, rules, providers, {RC.Deny, RC.Sandbox})
  }

  ghost predicate Rewrites(chunk: Chunk, e: Evaluated) {
    Trim(e.text) != "" && e.text != chunk.content
  }

  ghost predicate Cleaned(chunk: Chunk, ds: seq<Directives>, checks: Evaluated, rules: Evaluated, providers: seq<Raw>,
      shadow: bool) {
    || (chunk.pii != [] && exists d :: d in ds && d.applies && d.blockOnPii)
    || SaidByAny(chunk, checks, rules, providers, {RC.Redact})
    || (!shadow && (chunk.pii != [] || Rewrites(chunk, checks) || Rewrites(chunk, rules)))
  }

  /**
   Quarantined if it is and some policy applies; else rejected if a policy refuses it or an evaluator denies or
   sandboxes it; else redacted if anything asks for it; else allowed.
   */
  ghost predicate Settles(o: Decision, chunk: Chunk, ds: seq<Directives>, checks: Evaluated, rules: Evaluated,
      providers: seq<Raw>, shadow: bool) {
    o == if Held(chunk, ds) then Quarantine
         else if Refused(chunk, ds, checks, rules, providers) then Reject
         else if Cleaned(chunk, ds, checks, rules, providers, shadow) then Redact
         else Allow
  }

  lemma AsksAre(chunk: Chunk, d: Directives)
    ensures Asks(chunk, d) >= 4 <==> d.applies && chunk.quarantined
    ensures Asks(chunk, d) >= 3 <==> d.applies && (chunk.quarantined || Refuses(d, chunk))
    ensures Asks(chunk, d) >= 2 <==>
            d.applies && (chunk.quarantined || Refuses(d, chunk) || (d.blockOnPii && chunk.pii != []))
  {
    if forall i :: 0 <= i < |d.trusted| ==> Normal(d.trusted[i]) != Normal(chunk.sourceId) {
      assert forall s :: s in d.trusted ==> Normal(s) != Normal(chunk.sourceId);
    } else {
      var i :| 0 <= i < |d.trusted| && Normal(d.trusted[i]) == Normal(chunk.sourceId);
      assert d.trusted[i] in d.trusted;
    }
  }

  lemma AnyAsksAre(chunk: Chunk, ds: seq<Directives>)
    ensures AnyAsks(chunk, ds, 4) <==> Held(chunk, ds)
    ensures AnyAsks(chunk, ds, 3) <==> Held(chunk, ds) || exists d :: d in ds && d.applies && Refuses(d, chunk)
    ensures AnyAsks(chunk, ds, 2) <==>
            || Held(chunk, ds) || (exists d :: d in ds && d.applies && Refuses(d, chunk))
            || (chunk.pii != [] && exists d :: d in ds && d.applies && d.blockOnPii)
  {
    forall d
      ensures Asks(chunk, d) >= 4 <==> d.applies && chunk.quarantined
      ensures Asks(chunk, d) >= 3 <==> d.applies && (chunk.quarantined || Refuses(d, chunk))
      ensures Asks(chunk, d) >= 2 <==>
              d.applies && (chunk.quarantined || Refuses(d, chunk) || (d.blockOnPii && chunk.pii != []))
    {
      AsksAre(chunk, d);
    }
    forall k: nat
      ensures AnyAsks(chunk, ds, k) <==> exists d :: d in ds && Asks(chunk, d) >= k
    {
      if d :| d in ds && Asks(chunk, d) >= k {
        var i :| 0 <= i < |ds| && ds[i] == d;
      }
    }
  }

  lemma TaggedReach(chunk: Chunk, rs: seq<Raw>)
    ensures !Reaches(chunk, TagAll(chunk, rs), 4)
    ensures Reaches(chunk, TagAll(chunk, rs), 3) <==> SaidOf(chunk, rs, {RC.Deny, RC.Sandbox})
    ensures Reaches(chunk, TagAll(chunk, rs), 2) <==>
            SaidOf(chunk, rs, {RC.Deny, RC.Sandbox}) || SaidOf(chunk, rs, {RC.Redact})
  {
    forall i | 0 <= i < |rs|
      ensures var f := TagAll(chunk, rs)[i];
              && (Counts(chunk, f) <==> rs[i].chunkId.None? || Trim(rs[i].chunkId.value) == Trim(chunk.id))
              && Rank(f.decision) < 4 && (Rank(f.decision) >= 3 <==> rs[i].outcome in {RC.Deny, RC.Sandbox})
              && (Rank(f.decision) >= 2 <==> rs[i].outcome in {RC.Deny, RC.Sandbox} || rs[i].outcome in {RC.Redact})
    {
    }
  }

  lemma AllTaggedReach(chunk: Chunk, checks: Evaluated, rules: Evaluated, providers: seq<Raw>, k: nat)
    ensures var tagged := TagAll(chunk, checks.findings) + TagAll(chunk, rules.findings) + TagAll(chunk, providers);
            Reaches(chunk, tagged, k) <==>
            || Reaches(chunk, TagAll(chunk, checks.findings), k) || Reaches(chunk, TagAll(chunk, rules.findings), k)
            || Reaches(chunk, TagAll(chunk, providers), k)
  {
    ReachesAppend(chunk, TagAll(chunk, checks.findings), TagAll(chunk, rules.findings), k);
    ReachesAppend(chunk, TagAll(chunk, checks.findings) + TagAll(chunk, rules.findings), TagAll(chunk, providers), k);
  }

  lemma DeservesAre(chunk: Chunk, ds: seq<Directives>, checks: Evaluated, rules: Evaluated, providers: seq<Raw>,
      shadow: bool)
    ensures Deserves(chunk, ds, checks, rules, providers, shadow, 4) <==> Held(chunk, ds)
    ensures Deserves(chunk, ds, checks, rules, providers, shadow, 3) <==>
            Held(chunk, ds) || Refused(chunk, ds, checks, rules, providers)
    ensures Deserves(chunk, ds, checks, rules, providers, shadow, 2) <==>
            || Held(chunk, ds) || Refused(chunk, ds, checks, rules, providers)
            || Cleaned(chunk, ds, checks, rules, providers, shadow)
  {
    AnyAsksAre(chunk, ds);
    AllTaggedReach(chunk, checks, rules, providers, 2);
    AllTaggedReach(chunk, checks, rules, providers, 3);
    AllTaggedReach(chunk, checks, rules, providers, 4);
    TaggedReach(chunk, checks.findings);
    TaggedReach(chunk, rules.findings);
    TaggedReach(chunk, providers);
  }

  /** What the directive loop leaves. */
  function AfterLoop(chunk: Chunk, ds: seq<Directives>): Outcome {
    var now := Deciding((Allow, NoNote), AllDirectiveFindings(chunk, ds));
    Outcome(now.0, now.1, "", Cites(ds), Hits(ds))
  }

  lemma LoopNext(chunk: Chunk, ds: seq<Directives>, i: nat)
    requires i < |ds|
    ensures AllDirectiveFindings(chunk, ds[..i + 1]) ==
            AllDirectiveFindings(chunk, ds[..i]) + DirectiveFindings(chunk, ds[i])
    ensures Now(AfterLoop(chunk, ds[..i + 1])) ==
            Deciding(Now(AfterLoop(chunk, ds[..i])), DirectiveFindings(chunk, ds[i]))
    ensures Cites(ds[..i + 1]) == (Cites(ds[..i]) || (ds[i].applies && ds[i].citation))
    ensures Hits(ds[..i + 1]) == Hits(ds[..i]) + if ds[i].applies then {ds[i].policy} else {}
    ensures Sources(chunk, ds[..i + 1])
         == Sources(chunk, ds[..i])
             + if ds[i].applies && chunk.quarantined && chunk.sourceId != "" then {chunk.sourceId} else {}
  {
    assert ds[..i + 1][..i] == ds[..i];
    DecidingAppend((Allow, NoNote), AllDirectiveFindings(chunk, ds[..i]), DirectiveFindings(chunk, ds[i]));
  }

  method ApplyAll(chunk: Chunk, ds: seq<Directives>) returns (fs: seq<Finding>, o: Outcome, sources: set<string>)
    ensures fs == AllDirectiveFindings(chunk, ds) && o == AfterLoop(chunk, ds) && sources == Sources(chunk, ds)
  {
    fs, o, sources := [], Outcome(Allow, NoNote, "", false, {}), {};
    for i := 0 to |ds|
      invariant fs == AllDirectiveFindings(chunk, ds[..i]) && o == AfterLoop(chunk, ds[..i])
                && sources == Sources(chunk, ds[..i])
    {
      LoopNext(chunk, ds, i);
      var found;
      found, o, sources := ApplyDirectives(chunk, ds[i], o, sources);
      fs := fs + found;
    }
    assert ds[..|ds|] == ds;
  }

  /** Nothing is decided that no finding about the chunk bears out. */
  lemma {:induction false} DecidingReaches(chunk: Chunk, fs: seq<Finding>)
    requires forall i :: 0 <= i < |fs| && fs[i].chunkOnly ==> fs[i].chunkId == chunk.id
    ensures var now := Deciding((Allow, NoNote), fs).0; now == Allow || Reaches(chunk, fs, Rank(now))
  {
    if fs != [] {
      var before, f := fs[..|fs| - 1], fs[|fs| - 1];
      var now := Deciding((Allow, NoNote), fs).0;
      DecidingReaches(chunk, before);
      assert fs == before + [f];
      ReachesAppend(chunk, before, [f], Rank(now));
      ReachesOne(chunk, f, Rank(now));
    }
  }

  predicate Own(chunk: Chunk, fs: seq<Finding>) {
    forall i :: 0 <= i < |fs| ==> fs[i].chunkId == chunk.id
  }

  lemma OwnJoin(chunk: Chunk, a: seq<Finding>, b: seq<Finding>)
    requires Own(chunk, a) && Own(chunk, b)
    ensures Own(chunk, a + b)
  {
  }

  lemma ScoresOwn(chunk: Chunk, d: Directives)
    ensures Own(chunk, ScoreFindings(chunk, d))
  {
    var a := If(Untrusted(chunk, d), About(chunk, d, Reject, TrustedSourceMiss));
    var b := If(LowTrust(chunk, d), About(chunk, d, Reject, SourceTrust));
    var c := If(Injected(chunk, d), About(chunk, d, Reject, InjectionScore));
    var e := If(Leaks(chunk, d), About(chunk, d, Redact, FlaggedPii));
    OwnJoin(chunk, a, b);
    OwnJoin(chunk, a + b, c);
    OwnJoin(chunk, a + b + c, e);
    OwnJoin(chunk, a + b + c + e, If(d.patternHits, About(chunk, d, Reject, BlockedPattern)));
  }

  lemma DirectiveOwn(chunk: Chunk, d: Directives)
    ensures Own(chunk, DirectiveFindings(chunk, d))
  {
    if d.applies {
      var a := If(d.requireApproval, Blocking(chunk, d, RestrictedAccess));
      var b := If(chunk.quarantined, About(chunk, d, Quarantine, SourceQuarantine));
      ScoresOwn(chunk, d);
      OwnJoin(chunk, a, b);
      OwnJoin(chunk, a + b, ScoreFindings(chunk, d));
    }
  }

  lemma {:induction false} DirectivesOwn(chunk: Chunk, ds: seq<Directives>)
    ensures Own(chunk, AllDirectiveFindings(chunk, ds))
  {
    if ds != [] {
      DirectivesOwn(chunk, ds[..|ds| - 1]);
      DirectiveOwn(chunk, ds[|ds| - 1]);
    }
  }

  /** The loop's decision is one its policies ask for. */
  lemma LoopAsked(chunk: Chunk, ds: seq<Directives>)
    ensures var d := AfterLoop(chunk, ds).decision; d == Allow || AnyAsks(chunk, ds, Rank(d))
  {
    var fs := AllDirectiveFindings(chunk, ds);
    DirectivesOwn(chunk, ds);
    DecidingReaches(chunk, fs);
    AllDirectivesReach(chunk, ds, Rank(AfterLoop(chunk, ds).decision));
  }

  lemma {:induction false} DecidingSome(chunk: Chunk, fs: seq<Finding>)
    requires Reaches(chunk, fs, 2)
    ensures Deciding((Allow, NoNote), fs).0 != Allow
  {
    if fs != [] {
      var before, f := fs[..|fs| - 1], fs[|fs| - 1];
      assert fs == before + [f];
      ReachesAppend(chunk, before, [f], 2);
      ReachesOne(chunk, f, 2);
      if Reaches(chunk, before, 2) {
        DecidingSome(chunk, before);
      }
    }
  }

  /** Some applying policy has something to say against the chunk. */
  ghost predicate Objects(chunk: Chunk, ds: seq<Directives>) {
    || Held(chunk, ds) || (exists d :: d in ds && d.applies && Refuses(d, chunk))
    || (chunk.pii != [] && exists d :: d in ds && d.applies && d.blockOnPii)
  }

  lemma LoopDecides(chunk: Chunk, ds: seq<Directives>)
    ensures AfterLoop(chunk, ds).decision == Allow <==> !Objects(chunk, ds)
  {
    AnyAsksAre(chunk, ds);
    LoopAsked(chunk, ds);
    AllDirectivesReach(chunk, ds, 2);
    if AnyAsks(chunk, ds, 2) {
      DecidingSome(chunk, AllDirectiveFindings(chunk, ds));
    }
    if AfterLoop(chunk, ds).decision != Allow {
      var i :| 0 <= i < |ds| && Asks(chunk, ds[i]) >= Rank(AfterLoop(chunk, ds).decision);
      assert Asks(chunk, ds[i]) >= 2;
    }
  }

  /** The text a chunk is reported with: a rewriting only if no directive objects, the checks' before the rules'. */
  ghost function Reported(chunk: Chunk, ds: seq<Directives>, checks: Evaluated, rules: Evaluated, o: Decision): string {
    if !Objects(chunk, ds) && Rewrites(chunk, checks) then checks.text
    else if !Objects(chunk, ds) && Rewrites(chunk, rules) then rules.text
    else if o == Redact then "[REDACTED]"
    else ""
  }

  /** What the evaluators' rewritings, the flags and shadow mode make of the loop's outcome. */
  function BeforeReconciling(chunk: Chunk, o: Outcome, checks: Evaluated, rules: Evaluated, shadow: bool): Outcome {
    var noted := Noted(chunk, Noted(chunk, o, checks, SanitizedByCheck), rules, SanitizedByRule);
    var flagged :=
      if noted.decision == Allow && chunk.pii != [] then noted.(decision := Redact, reason := PrecomputedPii)
      else noted;
    if !shadow then flagged
    else flagged.(decision := Allow, reason := if Blank(flagged.reason) then ShadowMode else flagged.reason)
  }

  /** What is decided before the reconciliation is either asked for by a directive or a flag. */
  lemma NotedRank(chunk: Chunk, ds: seq<Directives>, before: Outcome, checks: Evaluated, rules: Evaluated,
      noted: Outcome, shadow: bool, k: nat)
    requires before.decision == Allow || AnyAsks(chunk, ds, Rank(before.decision))
    requires noted.decision ==
      if shadow then Allow else if before.decision == Allow && Flagged(chunk, checks, rules) then Redact
      else before.decision
    ensures k >= 2 && Rank(noted.decision) >= k ==>
            AnyAsks(chunk, ds, k) || (k <= 2 && !shadow && Flagged(chunk, checks, rules))
    ensures k == 2 && !shadow && Flagged(chunk, checks, rules) ==> Rank(noted.decision) >= 2
  {
    if before.decision != Allow {
      var i :| 0 <= i < |ds| && Asks(chunk, ds[i]) >= Rank(before.decision);
      assert Rank(before.decision) >= k ==> Asks(chunk, ds[i]) >= k;
    }
  }

  /** The chunk's text, and the reason where nothing but a rewriting or a flag redacts it. */
  ghost predicate ReportsText(chunk: Chunk, ds: seq<Directives>, checks: Evaluated, rules: Evaluated, shadow: bool,
      o: Outcome) {
    && o.sanitized == Reported(chunk, ds, checks, rules, o.decision)
    && (o.decision == Redact && !shadow && !Objects(chunk, ds) ==>
          && (Rewrites(chunk, checks) ==> o.reason == SanitizedByCheck)
          && (!Rewrites(chunk, checks) && Rewrites(chunk, rules) ==> o.reason == SanitizedByRule)
          && (!Rewrites(chunk, checks) && !Rewrites(chunk, rules) && chunk.pii != [] ==> o.reason == PrecomputedPii))
  }

  lemma TextReported(chunk: Chunk, ds: seq<Directives>, checks: Evaluated, rules: Evaluated, shadow: bool,
      fs: seq<Finding>, o: Outcome)
    requires Reconciled(chunk, BeforeReconciling(chunk, AfterLoop(chunk, ds), checks, rules, shadow), fs, o)
    ensures ReportsText(chunk, ds, checks, rules, shadow, o)
  {
    LoopDecides(chunk, ds);
  }

  /** One chunk: its decision is the gravest thing said about it, in or out of shadow mode. */
  method EvaluateChunk(chunk: Chunk, ds: seq<Directives>, checks: Evaluated, rules: Evaluated, providers: seq<Raw>,
      shadow: bool)
      returns (o: Outcome, fs: seq<Finding>, redactions: seq<string>, sources: set<string>)
    ensures forall k: nat :: Rank(o.decision) >= k <==> Deserves(chunk, ds, checks, rules, providers, shadow, k)
    ensures Settles(o.decision, chunk, ds, checks, rules, providers, shadow)
    ensures Reconciled(chunk, BeforeReconciling(chunk, AfterLoop(chunk, ds), checks, rules, shadow), fs, o)
    ensures fs == AllDirectiveFindings(chunk, ds)
            + (TagAll(chunk, checks.findings) + TagAll(chunk, rules.findings) + TagAll(chunk, providers))
    ensures redactions == checks.redactions + rules.redactions && sources == Sources(chunk, ds)
    ensures o.decision == Redact ==> Trim(o.sanitized) != ""
    ensures ReportsText(chunk, ds, checks, rules, shadow, o)
  {
    var directive, before;
    directive, before, sources := ApplyAll(chunk, ds);
    var tagged := TagAll(chunk, checks.findings) + TagAll(chunk, rules.findings) + TagAll(chunk, providers);
    fs, redactions := directive + tagged, checks.redactions + rules.redactions;
    var noted := Noted(chunk, before, checks, SanitizedByCheck);
    noted := Noted(chunk, noted, rules, SanitizedByRule);
    if noted.decision == Allow && |chunk.pii| > 0 {
      noted := noted.(decision := Redact, reason := PrecomputedPii);
    }
    if shadow {
      noted := noted.(decision := Allow);
      if Blank(noted.reason) {
        noted := noted.(reason := ShadowMode);
      }
    }
    o := Reconcile(chunk, noted, fs);
    forall k: nat
      ensures Rank(o.decision) >= k <==> Deserves(chunk, ds, checks, rules, providers, shadow, k)
    {
      ReachesAppend(chunk, directive, tagged, k);
      AllDirectivesReach(chunk, ds, k);
      LoopAsked(chunk, ds);
      NotedRank(chunk, ds, before, checks, rules, noted, shadow, k);
    }
    DeservesAre(chunk, ds, checks, rules, providers, shadow);
    TextReported(chunk, ds, checks, rules, shadow, fs, o);
  }

  /** A chunk more trusted and less suspect is never treated worse. */
  lemma SaferNoWorse(a: Chunk, b: Chunk, ds: seq<Directives>, checks: Evaluated, rules: Evaluated, providers: seq<Raw>,
      shadow: bool, x: Decision, y: Decision)
    requires 0 < a.trust <= b.trust && a.injection >= b.injection && b == a.(trust := b.trust, injection := b.injection)
    requires Settles(x, a, ds, checks, rules, providers, shadow) && Settles(y, b, ds, checks, rules, providers, shadow)
    ensures x == y || (y == Allow && x == Reject) || (y == Redact && x == Reject)
  {
    assert forall d :: Refuses(d, b) ==> Refuses(d, a);
  }

  /** Shadow mode does not keep a chunk with too high an injection score from being rejected. */
  method ShadowStillRejects() returns (o: Outcome)
    ensures o.decision == Reject
  {
    var chunk := Chunk("c", "", "text", 0, 9, [], false);
    var d := Directives("p", false, true, false, [], 0, 5, false, false, false);
    var quiet := Evaluated([], [], "");
    var fs, redactions, sources;
    o, fs, redactions, sources := EvaluateChunk(chunk, [d], quiet, quiet, [], true);
    assert Asks(chunk, [d][0]) == 3;
    assert AnyAsks(chunk, [d], 3);
    assert Deserves(chunk, [d], quiet, quiet, [], true, 3);
    assert !Deserves(chunk, [d], quiet, quiet, [], true, 4);
  }

  lemma AsksPermuted(chunk: Chunk, ds: seq<Directives>, ds': seq<Directives>, k: nat)
    requires multiset(ds) == multiset(ds')
    ensures AnyAsks(chunk, ds, k) ==> AnyAsks(chunk, ds', k)
  {
    if i :| 0 <= i < |ds| && Asks(chunk, ds[i]) >= k {
      assert ds[i] in multiset(ds');
      var j :| 0 <= j < |ds'| && ds'[j] == ds[i];
    }
  }

  /** The decision is the same for every order of the directive loop's policies. */
  method OrderIrrelevant(chunk: Chunk, ds: seq<Directives>, ds': seq<Directives>, checks: Evaluated, rules: Evaluated,
      providers: seq<Raw>, shadow: bool)
      returns (o: Outcome, o': Outcome)
    requires multiset(ds) == multiset(ds')
    ensures o.decision == o'.decision
  {
    var fs, redactions, sources;
    o, fs, redactions, sources := EvaluateChunk(chunk, ds, checks, rules, providers, shadow);
    o', fs, redactions, sources := EvaluateChunk(chunk, ds', checks, rules, providers, shadow);
    AsksPermuted(chunk, ds, ds', Rank(o.decision));
    AsksPermuted(chunk, ds', ds, Rank(o'.decision));
    assert Deserves(chunk, ds, checks, rules, providers, shadow, Rank(o.decision));
    assert Deserves(chunk, ds', checks, rules, providers, shadow, Rank(o.decision));
    assert Deserves(chunk, ds', checks, rules, providers, shadow, Rank(o'.decision));
    assert Deserves(chunk, ds, checks, rules, providers, shadow, Rank(o'.decision));
  }

  // ---------------------------------------------------------------- many chunks under a semaphore

  /** How many chunks may be evaluated at once. */
  function Parallelism(configured: int, chunks: nat): (p: nat)
    ensures p >= 1 && (chunks > 0 ==> p <= chunks) && p <= (if configured > 0 then configured else 8)
    ensures p == chunks || p == (if configured > 0 then configured else 8) || chunks == 0
  {
    var most := if configured <= 0 then 8 else configured;
    var p := if chunks > most then most else chunks;
    if p < 1 then 1 else p
  }

  /** A routine waits for a token, evaluates its chunk into its own slot, and gives the token back. */
  datatype Pc = Waiting | Evaluating | Written | Done

  datatype Pool<T> = Pool(pcs: seq<Pc>, tokens: nat, slots: seq<Option<T>>)

  datatype Event = Acquire(i: nat) | Write(i: nat) | Release(i: nat)

  function Launch<T>(n: nat): Pool<T> {
    Pool(seq(n, _ => Waiting), 0, seq(n, _ => None))
  }

  predicate Enabled<T>(s: Pool<T>, capacity: nat, e: Event) {
    && e.i < |s.pcs|
    && match e
       case Acquire(i) => s.pcs[i].Waiting? && s.tokens < capacity
       case Write(i) => s.pcs[i].Evaluating?
       case Release(i) => s.pcs[i].Written? && s.tokens > 0
  }

  function Step<T>(s: Pool<T>, capacity: nat, eval: nat -> T, e: Event): Pool<T>
    requires Enabled(s, capacity, e) && |s.slots| == |s.pcs|
  {
    match e
    case Acquire(i) => s.(pcs := s.pcs[i := Evaluating], tokens := s.tokens + 1)
    case Write(i) => s.(pcs := s.pcs[i := Written], slots := s.slots[i := Some(eval(i))])
    case Release(i) => s.(pcs := s.pcs[i := Done], tokens := s.tokens - 1)
  }

  predicate Holds(pc: Pc) {
    pc.Evaluating? || pc.Written?
  }

  function Holders(pcs: seq<Pc>): nat {
    if pcs == [] then 0 else Holders(pcs[..|pcs| - 1]) + if Holds(pcs[|pcs| - 1]) then 1 else 0
  }

  lemma {:induction false} HoldersAt(pcs: seq<Pc>, i: nat, pc: Pc)
    requires i < |pcs|
    ensures Holders(pcs[i := pc]) == Holders(pcs) - (if Holds(pcs[i]) then 1 else 0) + (if Holds(pc) then 1 else 0)
    ensures Holds(pcs[i]) ==> Holders(pcs) > 0
  {
    var n := |pcs| - 1;
    if i < n {
      HoldersAt(pcs[..n], i, pc);
      assert pcs[i := pc][..n] == pcs[..n][i := pc];
    } else {
      assert pcs[i := pc][..n] == pcs[..n];
    }
  }

  lemma {:induction false} NoHolders(pcs: seq<Pc>)
    requires forall i :: 0 <= i < |pcs| ==> !Holds(pcs[i])
    ensures Holders(pcs) == 0
  {
    if pcs != [] {
      NoHolders(pcs[..|pcs| - 1]);
    }
  }

  ghost predicate Inv<T>(s: Pool<T>, capacity: nat, eval: nat -> T) {
    && |s.slots| == |s.pcs|
    && s.tokens == Holders(s.pcs) <= capacity
    && forall i :: 0 <= i < |s.pcs| ==>
       s.slots[i] == if s.pcs[i].Written? || s.pcs[i].Done? then Some(eval(i)) else None
  }

  lemma InvStep<T>(s: Pool<T>, capacity: nat, eval: nat -> T, e: Event)
    requires Inv(s, capacity, eval) && Enabled(s, capacity, e)
    ensures Inv(Step(s, capacity, eval, e), capacity, eval)
  {
    HoldersAt(s.pcs, e.i, match e case Acquire(_) => Evaluating case Write(_) => Written case Release(_) => Done);
  }

  ghost predicate CanRun<T>(s: Pool<T>, capacity: nat, eval: nat -> T, es: seq<Event>)
    requires |s.slots| == |s.pcs|
    decreases |es|
  {
    es == [] || (Enabled(s, capacity, es[0]) && CanRun(Step(s, capacity, eval, es[0]), capacity, eval, es[1..]))
  }

  ghost function Run<T>(s: Pool<T>, capacity: nat, eval: nat -> T, es: seq<Event>): Pool<T>
    requires |s.slots| == |s.pcs| && CanRun(s, capacity, eval, es)
    decreases |es|
  {
    if es == [] then s else Run(Step(s, capacity, eval, es[0]), capacity, eval, es[1..])
  }

  lemma {:induction false} InvRun<T>(s: Pool<T>, capacity: nat, eval: nat -> T, es: seq<Event>)
    requires Inv(s, capacity, eval) && CanRun(s, capacity, eval, es)
    ensures Inv(Run(s, capacity, eval, es), capacity, eval) && |Run(s, capacity, eval, es).pcs| == |s.pcs|
    decreases |es|
  {
    if es != [] {
      InvStep(s, capacity, eval, es[0]);
      InvRun(Step(s, capacity, eval, es[0]), capacity, eval, es[1..]);
    }
  }

  lemma LaunchInv<T>(n: nat, capacity: nat, eval: nat -> T)
    ensures Inv(Launch<T>(n), capacity, eval)
  {
    NoHolders(Launch<T>(n).pcs);
  }

  /** Under every schedule at most `capacity` chunks are evaluated at once. */
  lemma BoundedParallelism<T>(n: nat, capacity: nat, eval: nat -> T, es: seq<Event>)
    requires CanRun(Launch<T>(n), capacity, eval, es)
    ensures Holders(Run(Launch<T>(n), capacity, eval, es).pcs) <= capacity
  {
    LaunchInv(n, capacity, eval);
    InvRun(Launch<T>(n), capacity, eval, es);
  }

  /** Under every schedule the slots of a finished pool are the chunks' evaluations in input order. */
  lemma ScheduleIrrelevant<T>(n: nat, capacity: nat, eval: nat -> T, es: seq<Event>)
    requires CanRun(Launch<T>(n), capacity, eval, es)
    requires forall i :: 0 <= i < |Run(Launch<T>(n), capacity, eval, es).pcs| ==>
             Run(Launch<T>(n), capacity, eval, es).pcs[i].Done?
    ensures Run(Launch<T>(n), capacity, eval, es).slots == seq(n, i requires 0 <= i < n => Some(eval(i)))
  {
    LaunchInv(n, capacity, eval);
    InvRun(Launch<T>(n), capacity, eval, es);
  }

  /** With at least one token no schedule gets stuck before every chunk is done. */
  lemma NeverStuck<T>(n: nat, capacity: nat, eval: nat -> T, es: seq<Event>) returns (e: Event)
    requires capacity >= 1 && CanRun(Launch<T>(n), capacity, eval, es)
    requires exists i ::
             0 <= i < |Run(Launch<T>(n), capacity, eval, es).pcs| && !Run(Launch<T>(n), capacity, eval, es).pcs[i].Done?
    ensures |Run(Launch<T>(n), capacity, eval, es).slots| == |Run(Launch<T>(n), capacity, eval, es).pcs|
    ensures CanRun(Run(Launch<T>(n), capacity, eval, es), capacity, eval, [e])
  {
    LaunchInv(n, capacity, eval);
    InvRun(Launch<T>(n), capacity, eval, es);
    var s := Run(Launch<T>(n), capacity, eval, es);
    if h :| 0 <= h < |s.pcs| && Holds(s.pcs[h]) {
      HoldersAt(s.pcs, h, Done);
      e := if s.pcs[h].Evaluating? then Write(h) else Release(h);
    } else {
      NoHolders(s.pcs);
      var i :| 0 <= i < |s.pcs| && !s.pcs[i].Done?;
      e := Acquire(i);
    }
    assert [e][1..] == [];
  }
}
