# DeepIntShield: a verified model of the guard and the gateway core

DeepIntShield is a gateway between applications and language-model providers with a policy guard beside
it. This project models the parts of both whose correctness rests on an argument rather than on reading
one function, and proves that argument in Dafny.

| files | what they model |
|---|---|
| `Tries.dfy`, `FailureLinks.dfy`, `AhoCorasick.dfy` | building and scanning the literal automaton, as loops over growing tables |
| `RegexLiterals.dfy` | regular-expression trees with their meaning, and the required-literal extractor |
| `RuntimeChecks.dfy` | the check evaluator with automaton, union pattern and match memo, against the evaluator without them |
| `CheckOutcomes.dfy` | which checks are evaluated, where findings come from and the outcome each carries |
| `SuccessMessages.dfy` | what skipping checks can lose, for every mix of checks and webhooks |
| `LocalPolicies.dfy` | the local rule evaluator with its union fast path, against the per-rule loop |
| `GuardDecision.dfy` | policy selection, the verdict, the pre-flight evaluation and the full one |
| `Verdicts.dfy` | what monitored policies can do to a request, and the words that deny one |
| `Preflight.dfy`, `PreflightWitnesses.dfy` | the two evaluations compared, cancelling the slow paths, and calls on which they part |
| `ArtifactCache.dfy` | the compiled-artifact caches under racing misses, and their keys |
| `GuardCaches.dfy` | what those caches build, and an evaluator that reads its artifacts from them |
| `RagChunks.dfy` | one chunk's decision, and many chunks under a semaphore |
| `CardCompiler.dfy` | compiling builder cards into runtime checks |
| `Scanners.dfy`, `Luhn.dfy` | the SSN and credit-card byte scanners and the checksum |
| `Stickiness.dfy` | session-sticky key selection over a first-write-wins store |
| `Handover.dfy` | replacing a provider's queue under running workers and producers |
| `PluginPipeline.dfy` | pre-hooks, post-hooks and the per-plugin workspace test |
| `CircuitBreaker.dfy` | the per-key load tracker, a class whose methods follow a step function |
| `ToolDispatch.dfy`, `AgentLoop.dfy` | tool-call classification, the dispatch of a batch through a buffered channel, and the agent loop |
| `Bytes.dfy`, `Strings.dfy`, `Trimming.dfy`, `Counting.dfy`, `Dedup.dfy`, `Options.dfy` | shared vocabulary: texts as bytes, names, trimming, counting distinct indices, first occurrences |

Concurrent parts are state machines: a state, the events each routine may take, and `Run` over a sequence
of events. A lemma about every `es` with `CanRun` speaks about every interleaving. Loops of the source are
methods proved against functions; the lemmas are about those functions.

Several behaviours the source's comments promise hold only under a condition. Each is proved with its exact
condition, and a concrete input shows that it can fail:

- The required-literal extractor promises a literal that every match contains. For an alternation inside a
  larger pattern it returns the shortest branch's literal, which the other branches need not contain:
  `x(foo|barbaz)` matches `xbarbaz` without `foo` (`RegexLiterals.InnerAlternationUnsound`). For plain trees
  the anchors are sound exactly when every word of the tree contains one (`PlainSoundExactly`).
- Skipping regex checks is called behaviour-preserving, but it also skips their success message. It shows
  exactly when such a message outlives the later rewritings of the text (`SuccessMessages.SkippingExactly`,
  `LostMessage`).
- The local evaluator's union fast path is called behaviour-preserving, but its `continue` also skips the
  domain and action-class checks of the tool context (`LocalPolicies.UnionExactly`, `LostToolFinding`).
- The pre-flight is said to return the full evaluation's findings and decision. It uses the same policies
  exactly under a guard on the call (`Preflight.SamePoliciesExactly`), and has all findings exactly when the
  extra policies find nothing (`PreflightExactly`). The full decision is the graver of the pre-flight's and the
  extra policies' own (`VerdictsAgree`); a denying tenant policy it never looks at is
  `PreflightWitnesses.MissedTenantDenial`. Where checks and rules rewrite the same text it reports the
  checks' version while the full evaluation reports the rules' (`PreflightWitnesses.TwoTexts`).
- A policy in monitor mode only reports, but the check evaluator recognises the mode without trimming it and the
  rule evaluator with: under ` monitor` a check denies what a rule reports (`Verdicts.MonitorsAgreeExactly`,
  `PaddedMonitorDenies`).
- Cancelling the slow paths is said not to change the verdict. It never lets a blocked request through, but
  unless a fast path denies it can leave a sandbox where a slow path would have denied
  (`Preflight.CancellingExactly`, `LostDenial`).
- The automaton and union keys ignore the stage, and a blank version makes them constant, so different
  sources can share an entry (`GuardCaches.StagesCollide`, `UnversionedCollide`), and the wrong automaton
  skips a check that matches (`WrongAutomatonSkips`); `TrafficTold` says which traffic is safe. The rule
  union's key ignores the scope too, but rightly so: the built-in definition lists no rules
  (`RuleUnionTransparent`).
- Every pre-hook that ran is promised its post-hook, in reverse order (deepintshield_server/core/schemas/plugin.go:188).
  A request abandoned between the two loops (no request left after the hooks, the provider closing, a full
  queue, a cancellation, a timeout) runs no post-hook at all (`PluginPipeline.AbandonedExactly`,
  `AbandonedLosesHooks`). On the other paths a plugin that runs before the workspace is stamped and is tagged
  or shadowed for it breaks the promise (`StampedMirrorExactly`, `StampBreaksMirror`), and so do an empty
  short-circuit (`StableMirrorExactly`, `EmptyRunsMore`) and a plugin list shortened under the request.
- A key with a blank identifier is stored but never found again, so a session's requests can disagree
  (`Stickiness.AgreementExactly`, `BlankIdDisagrees`).
- Requests over an entry for a key that is gone each delete it and store their own: two of them can return different
  keys (`Stickiness.StaleAgreementExactly`, `StaleParts`), while one alone settles the session
  (`LoneRequestSettles`).
- A single builder card that is switched off clears the name lists of a definition, which without any card would stay
  (`CardCompiler.OnlyIdleClears`).
- The overflow branch of the queue hand-over offers a late transfer, but nothing reads the new queue yet, so
  that message always times out (`Handover.OverflowAlwaysFails`, `OverflowReached`).
- A half-open circuit is described as one probe. A success recorded while the circuit was open resets the
  count, so a failed probe need not reopen it (`CircuitBreaker.FailedProbeStaysHalfOpen`).
- Shadow mode is described as non-blocking, yet the reconciliation behind it raises the decision again; it
  only drops the rewriting and personal-data flags (`RagChunks.EvaluateChunk`, `ShadowStillRejects`).

## Model

| member | source | states |
|---|---|---|
| Tries.Insert | deepintshield_guard/internal/engine/aho_corasick.go:58-76 | inserting a pattern keeps a trie whose states are exactly the prefixes met so far and whose terminal states are exactly the words inserted |
| FailureLinks.FollowLinks | deepintshield_guard/internal/engine/aho_corasick.go:95-101 | following failure links skips no state that could read the byte, ends at the root or at one that can, and pays for each hop with depth |
| FailureLinks.LinkTarget | deepintshield_guard/internal/engine/aho_corasick.go:102-111 | the link laid for a child names the longest proper suffix of its path that is a trie path, and the child is terminal exactly when a word ends its path |
| FailureLinks.LayLinks | deepintshield_guard/internal/engine/aho_corasick.go:77-114 | the breadth-first pass handles every non-root state exactly once, shallowest first, and leaves a correct automaton |
| FailureLinks.AllSeen | deepintshield_guard/internal/engine/aho_corasick.go:89-114 | when the queue is empty no state was missed |
| Bytes.LowerIs | deepintshield_guard/internal/engine/aho_corasick.go:59 | lower-casing a text yields the one casing of it without an upper-case letter |
| Bytes.LowerTells | deepintshield_guard/internal/engine/aho_corasick.go:203 | two texts lower-case to the same exactly when they are casings of one text |
| AhoCorasick.Build | deepintshield_guard/internal/engine/aho_corasick.go:49-116 | the automaton is correct for the lower-cased non-empty patterns; only an empty list yields none |
| AhoCorasick.ScanStep | deepintshield_guard/internal/engine/aho_corasick.go:127-142 | after each byte the state is the longest suffix of the input read that is a trie path, and its bit says whether a word ends there |
| AhoCorasick.Matches | deepintshield_guard/internal/engine/aho_corasick.go:122-144 | a hit exactly when some word occurs in the input, with at most as many failure links followed as the input has bytes |
| AhoCorasick.Prefilter | deepintshield_guard/internal/engine/aho_corasick.go:46-144 | built and scanned: a hit exactly when the input holds a lower-case spelling of some non-empty pattern |
| AhoCorasick.CasingIrrelevant | deepintshield_guard/internal/engine/aho_corasick.go:59 | the answer is the same for every casing of the patterns |
| AhoCorasick.LoweredSearch | deepintshield_guard/internal/engine/runtime_checks.go:130 | over a lower-cased text: a hit exactly when the text holds some casing of a pattern |
| RegexLiterals.LiteralRequired | deepintshield_guard/internal/engine/aho_corasick.go:208-271 | for a tree whose alternations agree on their literal, every span it matches contains, lower-cased, the literal returned |
| RegexLiterals.ScanRequired | deepintshield_guard/internal/engine/aho_corasick.go:219-246 | the concatenation scan's accumulators: the best run lies in what was matched and the current run ends it |
| RegexLiterals.RootAlternationAgrees | deepintshield_guard/internal/engine/aho_corasick.go:182-205 | a pattern whose only alternation is at the root, below captures, meets the condition |
| RegexLiterals.AnchorRequired | deepintshield_guard/internal/engine/aho_corasick.go:146-206 | any text the pattern matches contains, lower-cased, one of the anchors returned |
| RegexLiterals.AnchorsUsable | deepintshield_guard/internal/engine/aho_corasick.go:164-205 | every anchor is at least three bytes long and has no upper-case letter |
| RegexLiterals.LiteralSpans | deepintshield_guard/internal/engine/aho_corasick.go:208-218 | a literal matches its own bytes, or any casing of them under `(?i)` |
| RegexLiterals.ConcatLongest | deepintshield_guard/internal/engine/aho_corasick.go:219-246 | a concatenation's literal is at least as long as that of any of its parts |
| RegexLiterals.AlternateShortest | deepintshield_guard/internal/engine/aho_corasick.go:251-268 | an alternation's literal is that of one of its branches and none of them is shorter; it has none if a branch has none |
| RegexLiterals.BranchLiteralsAre | deepintshield_guard/internal/engine/aho_corasick.go:177-206 | a root alternation offers one anchor for each branch, or none if some branch's literal is shorter than three bytes |
| RegexLiterals.PlainSoundExactly | deepintshield_guard/internal/engine/aho_corasick.go:177-271 | for trees of literals, captures, concatenations and alternations every match brings an anchor exactly when every word of the tree contains one |
| RegexLiterals.InnerAlternationUnsound | deepintshield_guard/internal/engine/aho_corasick.go:251-268 | a pattern and an input it matches that lack the extracted literal |
| RegexLiterals.UnionMatches | deepintshield_guard/internal/engine/engine.go:1117-1122 | the union of the patterns matches exactly when one of them does |
| RuntimeChecks.ExtendLiterals | deepintshield_guard/internal/engine/engine.go:1051-1075 | the literals of all regex checks, or none as soon as one pattern offers no anchor |
| RuntimeChecks.ExtendUnion | deepintshield_guard/internal/engine/engine.go:1103-1121 | the parts of the union, or none as soon as one pattern does not compile |
| RuntimeChecks.TestSkip | deepintshield_guard/internal/engine/runtime_checks.go:123-146 | over ready artifacts: skip exactly when the automaton finds no anchor or the union does not match |
| RuntimeChecks.DecideSkip | deepintshield_guard/internal/engine/runtime_checks.go:112-147 | a policy's regex checks are skipped exactly when the automaton or the union rules all of them out |
| RuntimeChecks.RegexCheckCached | deepintshield_guard/internal/engine/runtime_checks.go:406-442 | the memo answers what a fresh scan would and stays sound |
| RuntimeChecks.EvaluatePolicy | deepintshield_guard/internal/engine/runtime_checks.go:148-183 | one policy's checks, with deduplication, deferral of webhooks, skipping and memo, follow the step function |
| RuntimeChecks.Evaluate | deepintshield_guard/internal/engine/runtime_checks.go:81-214 | the whole report is that of the run that skips exactly the cleared policies, webhooks merged last in their order |
| RuntimeChecks.PickContentIs | deepintshield_guard/internal/engine/engine.go:1520-1538 | the text scanned is the stage's own if it shows anything, else the first that does of input, output and tool input |
| CheckOutcomes.FindingsInOrder | deepintshield_guard/internal/engine/runtime_checks.go:104-214 | each check is evaluated once, at its first occurrence among all policies; the findings are those of the checks run in place, in order, then the webhooks', in order |
| RuntimeChecks.CheckKeyTells | deepintshield_guard/internal/engine/runtime_checks.go:297-307 | two checks count as the same exactly under modes of the same name, in modes without a colon, and with the same fingerprint |
| CheckOutcomes.FindingStems | deepintshield_guard/internal/engine/runtime_checks.go:217-288 | every finding stems from a check of one of the policies that fired, and carries the outcome its policy, check and answer call for: only a report under a monitored policy or for an asynchronous or passing check, else what was asked for, else what the mode says |
| CheckOutcomes.FiringIsFound | deepintshield_guard/internal/engine/runtime_checks.go:142-183 | every check that is the first of its key, fires and is not skipped has its finding in the report |
| CheckOutcomes.MonitorAllows | deepintshield_guard/internal/engine/runtime_checks.go:229-232 | monitored policies only report, their webhooks included |
| CheckOutcomes.RegexFiresExactly | deepintshield_guard/internal/engine/runtime_checks.go:380-442 | a regex check fires exactly when its pattern compiles and matches the scanned text, and rewrites the texts that show anything |
| CheckOutcomes.TextsAre | deepintshield_guard/internal/engine/runtime_checks.go:222-288 | the texts after an answer: rewritten if the check fired, with the message for the case behind the text of the stage |
| RuntimeChecks.SkippedIsQuiet | deepintshield_guard/internal/engine/runtime_checks.go:122-147 | no regex check of a cleared policy with agreeing patterns can match or fail to compile |
| RuntimeChecks.PrefiltersPreserve | deepintshield_guard/internal/engine/runtime_checks.go:106-147 | findings, redactions, chain and texts equal those of the evaluator without pre-filters, for silent checks with agreeing patterns |
| RuntimeChecks.EvaluateMatchesReference | deepintshield_guard/internal/engine/runtime_checks.go:73-214 | the evaluator with a runtime returns the report of the evaluator with none |
| SuccessMessages.AppendGrows | deepintshield_guard/internal/engine/runtime_checks.go:937-946 | feedback that is not blank lengthens the trimmed text by itself and, behind a text, the break between them |
| SuccessMessages.FeedbackGoes | deepintshield_guard/internal/engine/runtime_checks.go:937-946 | a message goes behind the output at the output stage and behind the input at every other, and the other text stays |
| SuccessMessages.RecordAbreast | deepintshield_guard/internal/engine/runtime_checks.go:217-293 | the same answer applied to two reports that differ by a longer text keeps that difference unless it replaces the text |
| SuccessMessages.SkippingExactly | deepintshield_guard/internal/engine/runtime_checks.go:106-213 | for every mix of checks and webhooks the evaluators with and without pre-filters agree exactly when no dropped success message outlives the later rewritings |
| SuccessMessages.SkippingExactWhenSilent | deepintshield_guard/internal/engine/runtime_checks.go:222-228 | where no answer rewrites the text they agree exactly when each regex check of a cleared policy that is the first of its key is silent |
| SuccessMessages.LostMessage | deepintshield_guard/internal/engine/runtime_checks.go:163-168 | a cleared policy of one check whose success message is lost |
| LocalPolicies.UnionClears | deepintshield_guard/internal/engine/engine.go:831-849 | a policy is cut short exactly when its union compiles and misses and none of its rules uses a byte scanner |
| LocalPolicies.EvaluateRules | deepintshield_guard/internal/engine/engine.go:851-903 | findings, redactions and both texts after a policy's rules |
| LocalPolicies.EvaluateTool | deepintshield_guard/internal/engine/engine.go:905-960 | the blocked-domain, allowed-class and denied-class findings, and nothing else changed |
| LocalPolicies.RuleFindingsAre | deepintshield_guard/internal/engine/engine.go:851-903 | the findings of some rules are exactly what those that hit say, under the policy's mode |
| LocalPolicies.ToolFindingsAre | deepintshield_guard/internal/engine/engine.go:905-960 | the tool findings are exactly the domains a policy blocks, a class outside its allowed ones, and a class it denies |
| LocalPolicies.EvaluateLocal | deepintshield_guard/internal/engine/engine.go:801-963 | the report of the evaluator with its fast path |
| LocalPolicies.FindingStems | deepintshield_guard/internal/engine/engine.go:801-963 | a report's findings are exactly what rules and tool context make the policies say that are not cut short |
| LocalPolicies.TextsAgree | deepintshield_guard/internal/engine/engine.go:831-903 | redactions and sanitized texts never depend on the fast path |
| LocalPolicies.FindingsAgree | deepintshield_guard/internal/engine/engine.go:831-960 | a cut-short policy with something to say about the tool context makes the findings strictly fewer; otherwise they are equal |
| LocalPolicies.UnionExactly | deepintshield_guard/internal/engine/engine.go:818-849 | the fast path reports what the per-rule loop reports exactly when no policy it clears objects to the tool context |
| LocalPolicies.UnionPreserves | deepintshield_guard/internal/engine/engine.go:818-849 | without a tool context the fast path is exact |
| LocalPolicies.LostToolFinding | deepintshield_guard/internal/engine/engine.go:831-926 | a policy of one rule that matches nothing and one blocked domain loses its finding to the fast path |
| GuardDecision.ResolveDecision | deepintshield_guard/internal/engine/engine.go:1556-1595 | the verdict is the gravest outcome; the reason is the summary of the first finding that grave, or tells whether anything was redacted |
| GuardDecision.HasGatingDeny | deepintshield_guard/internal/engine/engine.go:1546-1554 | true exactly when some finding is a deny or sandbox after normalization |
| GuardDecision.OutcomesReach | deepintshield_guard/internal/engine/engine.go:1546-1585 | the in-process findings reach a rank exactly when some finding's own outcome is that grave |
| GuardDecision.MergePolicies | deepintshield_guard/internal/engine/engine.go:771-785 | the first policy of each identity, in order, and no identity twice |
| GuardDecision.MergeKeyTells | deepintshield_guard/internal/engine/engine.go:771-785 | policies whose parts hold no colon are the same to a merge exactly when identifier, version and name agree but for blanks |
| GuardDecision.MergeAppends | deepintshield_guard/internal/engine/engine.go:771-785 | merging into a merged list only appends |
| GuardDecision.FastPrefix | deepintshield_guard/internal/engine/engine.go:244-259 | what the pre-flight evaluates is a prefix of what the full evaluation evaluates |
| GuardDecision.EvaluateFastOnly | deepintshield_guard/internal/engine/engine.go:231-279 | findings, redactions, decision, reason and texts of the pre-flight; the decision is the one its findings' own outcomes call for |
| GuardDecision.Evaluate | deepintshield_guard/internal/engine/engine.go:281-478 | findings, redactions, decision, reason and texts of the full evaluation; the decision is the one the findings' own outcomes and the slow paths call for, and the slow paths are cancelled exactly when some fast finding sandboxes or denies |
| Verdicts.MonitorNeverBlocks | deepintshield_guard/internal/engine/engine.go:1625-1634 | policies that only monitor never block: at most they redact |
| Verdicts.MonitorsAgreeExactly | deepintshield_guard/internal/engine/runtime_checks.go:230 | the two evaluators agree on whether a policy monitors exactly when its monitor mode has no blanks around it |
| Verdicts.PaddedMonitorDenies | deepintshield_guard/internal/engine/runtime_checks.go:229-232 | under a padded monitor mode the same wish to deny is a report from a rule and a denial from a check |
| Verdicts.WordDenies | deepintshield_guard/internal/engine/engine.go:1610-1623 | a slow path that spells one of the five words for a denial, in any casing and padding, denies the request |
| Preflight.CheckFindingsGrow | deepintshield_guard/internal/engine/runtime_checks.go:108-213 | appended policies put their own findings in: the local ones before the webhooks', the webhooks' at the end, fingerprints already seen left out |
| Preflight.FindingsExactly | deepintshield_guard/internal/engine/runtime_checks.go:108-213 | appended policies change no finding when they find nothing themselves, and make the findings strictly more otherwise |
| Preflight.MorePoliciesReach | deepintshield_guard/internal/engine/engine.go:263-268 | a longer policy list reaches the ranks of a shorter one, those the added policies reach by themselves, and no others |
| Preflight.PreflightFinal | deepintshield_guard/internal/engine/engine.go:214-279 | whenever the pre-flight denies, or blocks at all, so does the full evaluation, whatever the slow paths say |
| Preflight.CancellingBlocks | deepintshield_guard/internal/engine/engine.go:431-446 | a request a fast path blocks stays blocked, slow paths cancelled or not |
| Preflight.CancellingExactly | deepintshield_guard/internal/engine/engine.go:431-446 | cancelling leaves the decision alone, whatever the slow paths would have said, exactly when a fast path denies |
| Preflight.LostDenial | deepintshield_guard/internal/engine/engine.go:431-446 | slow paths whose denial is lost to the cancellation and leaves a sandbox |
| Preflight.SamePoliciesExactly | deepintshield_guard/internal/engine/engine.go:244-331 | both evaluations use the same policies exactly when a guard on the call holds: without a bundle the request brings policies, with one no unattached tenant policy is to be merged |
| Preflight.PreflightExactly | deepintshield_guard/internal/engine/engine.go:216-279 | with silent slow paths the findings agree exactly when the extra policies find nothing, and are strictly fewer otherwise; equal findings bring equal redactions and decisions; for any policy lists the full decision is the graver of the pre-flight's and the extra policies' own; over the same policies each text agrees unless checks and rules rewrite it differently |
| Preflight.PreferencesAre | deepintshield_guard/internal/engine/engine.go:455-473 | which version of a text is reported: the only rewritten one, or of two the checks' in the pre-flight and the rules' in the full evaluation |
| Preflight.QuietRedactions | deepintshield_guard/internal/engine/runtime_checks.go:108-213 | policies that find nothing redact nothing, monitored ones included |
| Preflight.VerdictGrows | deepintshield_guard/internal/engine/engine.go:216-279 | appending policies makes the verdict the graver of the old one and the added policies' own |
| Preflight.VerdictsAgree | deepintshield_guard/internal/engine/engine.go:216-279 | over whatever policy lists, the decisions agree exactly when what the extra policies bring is no graver than the pre-flight's verdict |
| PreflightWitnesses.MissedTenantDenial | deepintshield_guard/internal/engine/engine.go:305-311 | a call the pre-flight allows and the full evaluation denies, by a merged tenant policy |
| PreflightWitnesses.TwoTexts | deepintshield_guard/internal/engine/engine.go:455-473 | a call over the same policies on which the two evaluations report different texts |
| ArtifactCache.CoherentRun | deepintshield_guard/internal/engine/engine.go:980-1004 | every run of racing lookups keeps every entry equal to a fresh build for any source with that key |
| ArtifactCache.FirstBuildWins | deepintshield_guard/internal/engine/engine.go:995-1004 | however lookups race, those under one key all return one artifact |
| ArtifactCache.TransparentExactly | deepintshield_guard/internal/engine/engine.go:980-1196 | in every interleaving of racing lookups all answers are fresh builds exactly when equal keys mean equal builds |
| ArtifactCache.CollisionLeaks | deepintshield_guard/internal/engine/engine.go:1044-1084 | two sources with one key and different builds: a lookup gets the other's artifact |
| ArtifactCache.StagesMustAgree | deepintshield_guard/internal/engine/engine.go:1040-1134 | one policy version at two stages: the automaton cache is right exactly when both stages give the same automaton |
| GuardCaches.StagesCollide | deepintshield_guard/internal/engine/engine.go:1044-1084 | one policy version whose input and output checks need different automata, and a lookup that gets the wrong one |
| GuardCaches.UnversionedCollide | deepintshield_guard/internal/engine/engine.go:1044-1084 | two policies without a version and with different patterns share one automaton entry |
| GuardCaches.WrongAutomatonSkips | deepintshield_guard/internal/engine/runtime_checks.go:123-138 | the automaton of the other stage skips a check that matches |
| GuardCaches.RuleUnionTransparent | deepintshield_guard/internal/engine/engine.go:1154-1190 | the rule union cache is invisible when hashes tell definitions apart, as the built-in rules depend on no scope |
| GuardCaches.RuleUnionHolds | deepintshield_guard/internal/engine/engine.go:1154-1190 | a union holds the rules of the definition if it has any and they compile together; nothing else is stored |
| GuardCaches.RuleListExactly | deepintshield_guard/internal/engine/engine.go:1007-1030 | the compiled-rule cache is invisible exactly when definitions with one hash compile to the same rules |
| GuardCaches.TrafficTold | deepintshield_guard/internal/engine/engine.go:1040-1134 | with versions set, no colon in scope names, and a version under one scope always used with the same checks, no key of the automaton or union cache mixes two builds up |
| GuardCaches.EvaluateFromCaches | deepintshield_guard/internal/engine/runtime_checks.go:104-214 | an evaluator whose artifacts come out of the racing caches returns the report of the evaluator without any |
| GuardCaches.ServedSkips | deepintshield_guard/internal/engine/engine.go:1040-1134 | artifacts out of a cache whose keys tell decide the skip as fresh ones would |
| Strings.KeySplits | deepintshield_guard/internal/engine/engine.go:1198-1207 | version and stage can be read back from a key whose stage has no colon |
| ArtifactCache.KeysAre | deepintshield_guard/internal/engine/engine.go:1198-1207 | a key names version and stage; only the built-in policy has a version by default, others without one share a key |
| ArtifactCache.DefinitionCacheTransparent | deepintshield_guard/internal/engine/engine.go:980-1004 | the definition cache is invisible when a version names one definition |
| RagChunks.ApplyScores | deepintshield_guard/internal/engine/rag.go:338-421 | findings of the trust, injection, personal-data and pattern tests, and the decision and reason they leave: the first one stands unless something decided before |
| RagChunks.ApplyDirectives | deepintshield_guard/internal/engine/rag.go:271-425 | findings, decision, reason, policy hit, citation flag and quarantined source of one policy's directives |
| RagChunks.DirectiveFindingsSay | deepintshield_guard/internal/engine/rag.go:283-420 | findings about the chunk leave the request alone; a required approval denies the request, unless the policy monitors |
| RagChunks.DirectivesReach | deepintshield_guard/internal/engine/rag.go:271-425 | a policy's findings reach exactly the ranks its directives ask for |
| RagChunks.Reconcile | deepintshield_guard/internal/engine/rag.go:623-653 | the final decision is the maximum of the decision so far and the findings about this chunk; an earlier reason for it stands, else the first finding with that decision that says something gives it; a redaction without text gets the placeholder |
| RagChunks.EvaluateChunk | deepintshield_guard/internal/engine/rag.go:222-479 | the decision told from the chunk itself: quarantined if it is and a policy applies, else rejected if a policy refuses its source, trust, injection score or pattern or an evaluator denies or sandboxes it, else redacted if anything asks for it, else allowed; the text is a rewriting only if no directive objects; reason, findings, redactions, hits, citation flag and quarantined sources are exact |
| RagChunks.SaferNoWorse | deepintshield_guard/internal/engine/rag.go:343-376 | a chunk more trusted and less suspect is never treated worse |
| RagChunks.ShadowStillRejects | deepintshield_guard/internal/engine/rag.go:469-476 | in shadow mode a chunk with too high an injection score is rejected all the same |
| RagChunks.OrderIrrelevant | deepintshield_guard/internal/engine/rag.go:271-425 | permuting the policies of the directive loop does not change the decision |
| RagChunks.Parallelism | deepintshield_guard/internal/engine/rag.go:185-195 | between one and the number of chunks, and never above the configured limit or its default of eight |
| RagChunks.BoundedParallelism | deepintshield_guard/internal/engine/rag.go:198-209 | at most the configured number of chunks is evaluated at once |
| RagChunks.ScheduleIrrelevant | deepintshield_guard/internal/engine/rag.go:196-219 | under every schedule a finished pool holds the chunks' evaluations in input order |
| RagChunks.NeverStuck | deepintshield_guard/internal/engine/rag.go:198-209 | no schedule gets stuck before every chunk is done |
| CardCompiler.CompileDefinition | deepintshield_guard/internal/cards/compiler.go:229-297 | what the compiled definition holds under every key |
| CardCompiler.IdleCardIgnored | deepintshield_guard/internal/cards/compiler.go:264-281 | a card that is nameless, switched off or not for the scope changes nothing, as long as another card is selected |
| CardCompiler.OnlyIdleClears | deepintshield_guard/internal/cards/compiler.go:234-262 | as the only card it still clears the name lists, which a definition without cards keeps |
| CardCompiler.OtherStageKept | deepintshield_guard/internal/cards/compiler.go:813-820 | compiling for the output scope leaves the input checks alone, and for any other scope the output checks |
| CardCompiler.Collect | deepintshield_guard/internal/cards/compiler.go:239-281 | hand-written then emitted checks, each fingerprint once and in order, and the three name sets |
| CardCompiler.HandWrittenSurvive | deepintshield_guard/internal/cards/compiler.go:243-254 | the hand-written checks of the result are the source's, in order, each fingerprint once |
| CardCompiler.HandWrittenKept | deepintshield_guard/internal/cards/compiler.go:243-254 | a check of the source without a card identifier has its like, by fingerprint, among those of the result |
| CardCompiler.CardChecksRenewed | deepintshield_guard/internal/cards/compiler.go:244-247 | a check of the result that names a card is one a live card emits now |
| CardCompiler.CompileTwice | deepintshield_guard/internal/cards/compiler.go:229-297 | compiling for two scopes in turn, key by key: the first stage key keeps the first result, everything else is the second compilation of the source |
| CardCompiler.Absorbs | deepintshield_guard/internal/cards/compiler.go:229-297 | with one stage key the later compilation absorbs the earlier; compiling is idempotent |
| CardCompiler.StagesCommute | deepintshield_guard/internal/cards/compiler.go:283-297 | compiling for the two stages commutes on everything but the three name lists |
| Dedup.FirstInOrder | deepintshield_guard/internal/cards/compiler.go:243-254 | a first occurrence keeps its place among the first occurrences |
| Dedup.FirstAbsorbs | deepintshield_guard/internal/cards/compiler.go:243-278 | removing duplicates early changes nothing |
| Scanners.FindSsn | deepintshield_guard/internal/engine/fast_scanners.go:86-121 | reports exactly the word-bounded DDD-DD-DDDD occurrences, ascending and disjoint |
| Scanners.SsnNoneInside | deepintshield_guard/internal/engine/fast_scanners.go:117-118 | no occurrence starts inside or right behind another, so the index skip loses none |
| Scanners.Collect | deepintshield_guard/internal/engine/fast_scanners.go:147-162 | the digits of the longest run of at most nineteen digits with single separators |
| Scanners.CollectReaches | deepintshield_guard/internal/engine/fast_scanners.go:151-162 | started where a whole card starts, the loop ends where it ends |
| Scanners.FindCreditCard | deepintshield_guard/internal/engine/fast_scanners.go:133-181 | every span is a bounded, valid run of 13 to 19 digits, spans ascend without overlap, and every whole card is reported |
| Luhn.LuhnValid | deepintshield_guard/internal/engine/fast_scanners.go:185-199 | the left-to-right loop with its parity computes the right-to-left checksum of ISO/IEC 7812-1, Annex B, at every length |
| Luhn.SingleErrorCaught | deepintshield_guard/internal/engine/fast_scanners.go:183-199 | changing one digit of a valid number makes it invalid |
| Luhn.TranspositionCaught | deepintshield_guard/internal/engine/fast_scanners.go:183-199 | swapping two neighbours goes unnoticed exactly for equal digits and for 0 with 9 |
| Stickiness.AgreedRun | deepintshield_server/core/deepintshield.go:6497-6550 | every such run keeps the agreement and never changes an entry once it is there, failing first looks and refreshes included |
| Stickiness.SessionAgrees | deepintshield_server/core/deepintshield.go:6497-6550 | from no entry or a supported one, unless the entry expires or a claim or re-read fails, all finished requests of a session return one key identifier, which is the stored one |
| Stickiness.AlwaysSupported | deepintshield_server/core/deepintshield.go:6508-6548 | with expiry, stale entries and every store call failing at will, a returned key is still a supported one |
| Stickiness.LoneRequestSettles | deepintshield_server/core/deepintshield.go:6497-6550 | a request alone in its session, over a stale entry too: when it is done its key is the stored one, exactly unless the entry was blank |
| Stickiness.StaleNeverSurvives | deepintshield_server/core/deepintshield.go:6514-6543 | even if its first look fails, a request alone in its session leaves no stale entry behind: its key is stored, or the stale entry is gone |
| Stickiness.LaterRequestsFollow | deepintshield_server/core/deepintshield.go:6508-6513 | later requests of the session, however many race, return that key |
| Stickiness.StaleParts | deepintshield_server/core/deepintshield.go:6514-6518 | two requests over one stale entry: the second deletes what the first stored, and they return different keys |
| Stickiness.StaleAgreementExactly | deepintshield_server/core/deepintshield.go:6497-6550 | requests over one stale entry always agree exactly when there is only one, or one key identifier |
| Stickiness.FaultsPart | deepintshield_server/core/deepintshield.go:6527-6548 | an expiry, a failing claim or a failing re-read each part two requests by itself |
| Stickiness.AgreementExactly | deepintshield_server/core/deepintshield.go:6582-6592 | requests always agree exactly when every key has an identifier, or all share one |
| Stickiness.FinishesInSix | deepintshield_server/core/deepintshield.go:6497-6550 | no interference makes a request retry |
| Handover.InvRun | deepintshield_server/core/deepintshield.go:3279-3361 | every interleaving of the updater, producers and workers keeps queue order, single custody, order of moved messages and one error at most |
| Handover.QueuesFit | deepintshield_server/core/deepintshield.go:3279-3361 | in every run no queue holds more than its capacity, and nothing enters the new one before the swap |
| Handover.HandoverConserves | deepintshield_server/core/deepintshield.go:3279-3361 | when the hand-over is over each accepted message is in exactly one place, moved ones in order |
| Handover.OverflowAlwaysFails | deepintshield_server/core/deepintshield.go:3308-3337 | the overflowing message is never transferred: the new queue stays full until the timeout |
| Handover.NoWorkerStrands | deepintshield_server/core/deepintshield.go:3344-3361 | without an old worker a message can be stranded in the closed queue |
| Handover.ConservesExactly | deepintshield_server/core/deepintshield.go:3279-3361 | conservation in every run exactly when there is at least one old worker |
| Handover.OverflowReached | deepintshield_server/core/deepintshield.go:3308-3337 | a run that takes the overflow branch and times out |
| Handover.NeverStuck | deepintshield_server/core/deepintshield.go:3279-3361 | from every reachable state before the end the updater or an old worker can move |
| Handover.UpdaterBounded | deepintshield_server/core/deepintshield.go:3301-3352 | however long producers keep sending, the updater takes a bounded number of steps |
| Handover.WorkersBounded | deepintshield_server/core/deepintshield.go:3348-3356 | once the old queue is closed its workers take a bounded number of steps |
| PluginPipeline.ShouldRunPlugin | deepintshield_server/core/deepintshield.go:253-281 | a tagged entry runs for its workspace only; a global one unless another entry of its name is tagged with the workspace |
| PluginPipeline.RunPreHooks | deepintshield_server/core/deepintshield.go:5715-5770 | the pre-hooks called, the workspace after them, and the count returned |
| PluginPipeline.RunPostHooks | deepintshield_server/core/deepintshield.go:5777-5841 | the post-hooks called, for any starting index |
| PluginPipeline.MirrorExactly | deepintshield_server/core/deepintshield.go:5772-5804 | post-hooks are the pre-hooks reversed exactly when both loops choose the same plugins |
| PluginPipeline.TryRequest | deepintshield_server/core/deepintshield.go:4420-4590 | a whole request on every path: answered by the plugins or the provider it is mirrored exactly when both loops choose the same plugins; abandoned after the pre-hooks it runs no post-hook, and is mirrored exactly when no plugin should have run |
| PluginPipeline.AbandonedExactly | deepintshield_server/core/deepintshield.go:4439-4590 | a request abandoned between the pre-hooks and the provider's answer is mirrored exactly when no plugin should run under the workspace it came with |
| PluginPipeline.AbandonedLosesHooks | deepintshield_server/core/deepintshield.go:4573-4590 | a plugin whose pre-hook runs and whose post-hook a timeout loses |
| PluginPipeline.StampedMirrorExactly | deepintshield_server/core/deepintshield.go:5727-5735 | a request stamped on the way is mirrored, on every path that reaches the post-hooks, exactly when nothing up to the stamping plugin depends on the workspace, the post-hooks start behind it, and nothing should run between where the pre-hooks got to and where the post-hooks start |
| PluginPipeline.StampBreaksMirror | deepintshield_server/core/deepintshield.go:5798-5804 | a plugin list whose first post-hook is lost to the stamped workspace |
| PluginPipeline.StableMirrorExactly | deepintshield_server/core/deepintshield.go:5798-5802 | under a workspace no hook changes the mirror holds exactly when nothing should run between where the pre-hooks got to and where the post-hooks start, empty short-circuits and shortened lists included |
| PluginPipeline.EmptyRunsMore | deepintshield_server/core/deepintshield.go:4421-4438 | a plugin behind an empty short-circuit whose post-hook runs without its pre-hook |
| PluginPipeline.OneSideServes | deepintshield_server/core/deepintshield.go:253-281 | under a workspace a name is served exactly when one of its entries is global or tagged with it, and those that run are all tagged or all global |
| CircuitBreaker.KeyLoadTracker.RecordSuccess | deepintshield_server/core/key_load_tracker.go:74-87 | the whole new state: counters up, streak cleared, a half-open circuit closed |
| CircuitBreaker.KeyLoadTracker.RecordError | deepintshield_server/core/key_load_tracker.go:90-109 | the whole new state: counters up, circuit tripped at the threshold unless already open |
| CircuitBreaker.KeyLoadTracker.IsCircuitOpen | deepintshield_server/core/key_load_tracker.go:113-143 | refuses exactly while an open circuit is in its cooldown, half-opens it afterwards, and creates no state |
| CircuitBreaker.ReachableInvariant | deepintshield_server/core/key_load_tracker.go:74-143 | in every run the error count is the failures since the last success and a closed circuit is below the threshold |
| CircuitBreaker.CountersCount | deepintshield_server/core/key_load_tracker.go:58-109 | in every run the counters of a key are the sums over its own events, and its last error is its last failure |
| CircuitBreaker.StepLegal | deepintshield_server/core/key_load_tracker.go:86-135 | only the legal changes happen, each by its own action, and a trip exactly when a failure brings the streak to the threshold |
| CircuitBreaker.StaysOpen | deepintshield_server/core/key_load_tracker.go:124-135 | once tripped, nothing recorded within the cooldown changes the circuit |
| CircuitBreaker.RefusesExactly | deepintshield_server/core/key_load_tracker.go:90-143 | after any run a key is refused exactly when some failure tripped it less than a cooldown ago |
| CircuitBreaker.KeysIndependent | deepintshield_server/core/key_load_tracker.go:48-55 | a key's state depends on its own events only |
| CircuitBreaker.FailedProbeStaysHalfOpen | deepintshield_server/core/key_load_tracker.go:99-108 | a run in which a failed probe leaves the circuit half-open |
| ToolDispatch.Classify | deepintshield_server/core/mcp/parallel_classifier.go:61-117 | the two parts and the count of unknown tools; together the parts are the calls, none lost or doubled |
| ToolDispatch.RegistryDecides | deepintshield_server/core/mcp/parallel_registry.go:69-86 | a tool's own entry decides, else the wildcard of its server, else the default; it is known exactly when one of the two is there |
| ToolDispatch.ParallelDisjoint | deepintshield_server/core/mcp/parallel_classifier.go:92-114 | under the heuristic no argument key occurs in two calls of the parallel part |
| ToolDispatch.DemotedShares | deepintshield_server/core/mcp/parallel_classifier.go:98-107 | each demoted call shares a key with one kept before it |
| ToolDispatch.InvRun | deepintshield_server/core/mcp/agent.go:327-365 | the dispatch invariant holds along every schedule |
| ToolDispatch.SendNeverBlocks | deepintshield_server/core/mcp/agent.go:326-337 | a finished call never waits for room in the result channel |
| ToolDispatch.SequentialAlone | deepintshield_server/core/mcp/agent.go:340-364 | a sequential call in progress overlaps no other call |
| ToolDispatch.OneResultEach | deepintshield_server/core/mcp/agent.go:327-375 | the closed channel holds one result per call |
| ToolDispatch.SequentialLast | deepintshield_server/core/mcp/agent.go:340-364 | under every schedule the sequential results arrive last and in order |
| ToolDispatch.NeverStuck | deepintshield_server/core/mcp/agent.go:327-365 | until the channel is closed some routine can move |
| ToolDispatch.Completes | deepintshield_server/core/mcp/agent.go:327-365 | from every reachable state some schedule closes the channel |
| ToolDispatch.StepProgress | deepintshield_server/core/mcp/agent.go:304-325 | every step shortens what is left, so every schedule ends |
| AgentLoop.ExtractToolCalls | deepintshield_server/core/mcp/agent.go:428-444 | the calls of all messages of the response; the early exit loses none |
| AgentLoop.SplitAuto | deepintshield_server/core/mcp/agent.go:171-268 | the calls that need no consent and the others, each in order |
| AgentLoop.ConsentExactly | deepintshield_server/core/mcp/utils.go:403-434 | a call needs no consent exactly when its client lists the tool, by name behind the prefix or by wildcard, as executable and as auto-executable, or it is a read-only code tool, or code whose calls are all allowed |
| AgentLoop.ValidateCode | deepintshield_server/core/mcp/agent.go:226-254 | code may run unattended exactly when each call it makes is allowed |
| AgentLoop.RunBatch | deepintshield_server/core/mcp/agent.go:280-375 | the batch in dispatch order, one result per call, in an order some schedule of the dispatcher produces, sequential results last |
| AgentLoop.ResultAnswers | deepintshield_server/core/mcp/agent.go:306-325 | a call whose tool delivers nothing or fails is answered under its identifier, with the error at the end |
| AgentLoop.Turn | deepintshield_server/core/mcp/agent.go:165-412 | one iteration either ends the run or leaves a longer transcript answered by the model |
| AgentLoop.ExecuteAgent | deepintshield_server/core/mcp/agent.go:140-416 | at most as many further requests as the depth allows, a history that renders the transcript, and the exact way the run ends |
| AgentLoop.OnlyAutoExecuted | deepintshield_server/core/mcp/agent.go:171-268 | in every run exactly the calls that need no consent are executed, and exactly the others are handed back |
| AgentLoop.RequestsAnswered | deepintshield_server/core/mcp/agent.go:271-395 | every request to the model extends the original messages, and after each round's assistant messages holds one result for every call they make |

## Left out

- Unicode: texts are bytes and lower-casing is ASCII. The source's folding of other letters, such as the long s that `(?i)s` matches, is not modelled.
- Regular expressions: parsing is a parameter; only patterns inside the tree datatype are covered, and the library is assumed to match what the trees mean.
- JSON encoding, SHA-256 and HMAC: fingerprints use the encoder as a parameter and hashes are a parameter of the cache keys. The compiler's clone of a definition is the identity.
- The full evaluation runs its two in-process paths side by side; they only read shared inputs, and the model runs them in turn.
- Decision chains of the two evaluations: log lines that no verdict depends on; the check evaluator's chain is modelled.
- Webhooks, providers, sidecars and model calls are functions or arbitrary findings; the webhooks' own semaphore is modelled only by its merge in order.
- Building the sorted check list from a definition (`extractRuntimeChecks`) and the checks other than regex ones; the evaluator takes the list and their answers.
- The selectors that decide which policies of a bundle match a request; the decision model takes the selected lists.
- Preflight.PreflightFinal: excludes the RAG stage, which has its own verdict, and takes the caches as coherent and webhook answers as functions of the check.
- RagChunks.EvaluateChunk: role, app and blocked-pattern tests, and the shared evaluators' findings for the chunk, are inputs.
- Multi-chunk merging beyond order: concatenating the evaluations' lists and the RAG request verdict would only add easy members.
- The e-mail scanner: a later match may reach back into an earlier one, and its looser grammar adds no property of its own.
- The queue hand-over: sends on a closed queue are excluded by assumption, and nobody reads the new queue before the hand-over ends, as its workers start later. The second timeout, on delivering the overflow error, is folded into that error.
- Stickiness.SessionAgrees: starts from no entry or a supported one; over a stale entry several requests can disagree, which `StaleAgreementExactly` settles.
- CircuitBreaker: each method is one atomic step. Between the compare-and-swap that opens a circuit and the store of its time the source has a window this does not show. Counters are unbounded, and the nil tracker is omitted.
- PluginPipeline: hook errors, spans, streaming and the skip flag are omitted; a hook is its effect on the workspace and whether it short-circuits. Which event abandons a request is not modelled, only that one does.
- AgentLoop: the chat interface only; the response handed back for pending calls is described by its parts, not by its text. Parsing of code-mode calls and the table of allowed tools are inputs.
- CardCompiler: the cards' emitters are an abstract function of card and scope that stamps the card's identifier on each check, as every emitter does.
