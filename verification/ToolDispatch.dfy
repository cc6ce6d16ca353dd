/**
 Splitting a batch of tool calls into a parallel and a sequential part, and running both through one result channel.
 */
module ToolDispatch {
  import opened Options
  import opened Counting
  import Strings

  /** A tool call with the top-level keys of its JSON arguments. */
  datatype Call = Call(id: Option<string>, name: Option<string>, keys: seq<string>)

  datatype Config = Config(enabled: bool, defaultSafe: bool, safety: map<string, bool>, heuristicArgs: bool)

  /** The first dash, if any. */
  function DashAt(name: string): int {
    if name == "" then -1 else if name[0] == '-' then 0 else if DashAt(name[1..]) < 0 then -1 else 1 + DashAt(name[1..])
  }

  function Namespace(name: string): Option<string> {
    if 0 < DashAt(name) <= |name| then Some(name[..DashAt(name)] + "-*") else None
  }

  /** Registry lookup by name, then by server wildcard, then the default. */
  predicate SafeName(cfg: Config, name: string) {
    if name == "" then cfg.defaultSafe
    else if name in cfg.safety then cfg.safety[name]
    else if Namespace(name).Some? && Namespace(name).value in cfg.safety then cfg.safety[Namespace(name).value]
    else cfg.defaultSafe
  }

  predicate Known(cfg: Config, name: string) {
    name != "" && (name in cfg.safety || (Namespace(name).Some? && Namespace(name).value in cfg.safety))
  }

  /** The name the registry is asked for. */
  function NameOrEmpty(c: Call): string {
    if c.name.None? then "" else Strings.Trim(c.name.value)
  }

  predicate Safe(cfg: Config, c: Call) {
    SafeName(cfg, NameOrEmpty(c))
  }

  lemma {:induction false} DashSplits(server: string, tool: string)
    requires '-' !in server
    ensures DashAt(server + "-" + tool) == |server| && DashAt(server) == -1
  {
    var name := server + "-" + tool;
    if server != "" {
      DashSplits(server[1..], tool);
      assert name[1..] == server[1..] + "-" + tool;
    }
  }

  /**
   What the registry says of tool `tool` of server `server`: its own entry, else the server's wildcard, else the
   default.
   */
  lemma RegistryDecides(cfg: Config, server: string, tool: string)
    requires server != "" && '-' !in server
    ensures var name := server + "-" + tool;
            && (name in cfg.safety ==> SafeName(cfg, name) == cfg.safety[name])
            && (name !in cfg.safety && server + "-*" in cfg.safety ==> SafeName(cfg, name) == cfg.safety[server + "-*"])
            && (name !in cfg.safety && server + "-*" !in cfg.safety ==> SafeName(cfg, name) == cfg.defaultSafe)
            && (Known(cfg, name) <==> name in cfg.safety || server + "-*" in cfg.safety)
  {
    var name := server + "-" + tool;
    DashSplits(server, tool);
    assert name[..|server|] == server;
  }

  /** A name that belongs to no server: its own entry, else the default. */
  lemma NamelessServer(cfg: Config, name: string)
    requires '-' !in name || (name != "" && name[0] == '-')
    ensures SafeName(cfg, name) == if name != "" && name in cfg.safety then cfg.safety[name] else cfg.defaultSafe
    ensures Known(cfg, name) <==> name != "" && name in cfg.safety
  {
    if '-' !in name {
      DashSplits(name, "");
    }
  }

  // ---------------------------------------------------------------- the classification, by position

  function Pick(cfg: Config, calls: seq<Call>, safe: bool): seq<Call> {
    if calls == [] then []
    else if Safe(cfg, calls[|calls| - 1]) == safe then Pick(cfg, calls[..|calls| - 1], safe) + [calls[|calls| - 1]]
    else Pick(cfg, calls[..|calls| - 1], safe)
  }

  function KeySet(c: Call): set<string> {
    set k | k in c.keys
  }

  predicate Kept(calls: seq<Call>, j: nat)
    requires j < |calls|
    decreases j, 1
  {
    KeySet(calls[j]) !! Seen(calls, j)
  }

  /** The argument keys of the calls kept among the first `j`. */
  function Seen(calls: seq<Call>, j: nat): set<string>
    requires j <= |calls|
    decreases j, 0
  {
    if j == 0 then {} else if Kept(calls, j - 1) then Seen(calls, j - 1) + KeySet(calls[j - 1]) else Seen(calls, j - 1)
  }

  function Split(calls: seq<Call>, j: nat, kept: bool): seq<Call>
    requires j <= |calls|
  {
    if j == 0 then []
    else if Kept(calls, j - 1) == kept then Split(calls, j - 1, kept) + [calls[j - 1]]
    else Split(calls, j - 1, kept)
  }

  lemma {:induction false} SplitSeen(calls: seq<Call>, n: nat, i: nat)
    requires n <= |calls| && i < |Split(calls, n, true)|
    ensures KeySet(Split(calls, n, true)[i]) <= Seen(calls, n)
  {
    if i < |Split(calls, n - 1, true)| {
      SplitSeen(calls, n - 1, i);
    }
  }

  lemma {:induction false} SplitDisjoint(calls: seq<Call>, n: nat, i: nat, j: nat)
    requires n <= |calls| && i < j < |Split(calls, n, true)|
    ensures KeySet(Split(calls, n, true)[i]) !! KeySet(Split(calls, n, true)[j])
  {
    if j < |Split(calls, n - 1, true)| {
      SplitDisjoint(calls, n - 1, i, j);
    } else {
      SplitSeen(calls, n - 1, i);
    }
  }

  /** The whole classification. */
  function Parallel(cfg: Config, calls: seq<Call>): seq<Call> {
    var safe := Pick(cfg, calls, true);
    if |calls| <= 1 then calls
    else if cfg.heuristicArgs && |safe| >= 2 then Split(safe, |safe|, true)
    else safe
  }

  /** Under the argument-name heuristic no two calls of the parallel part share an argument key. */
  lemma ParallelDisjoint(cfg: Config, calls: seq<Call>, i: nat, j: nat)
    requires cfg.heuristicArgs && |calls| > 1 && i < j < |Parallel(cfg, calls)|
    ensures forall key :: key in Parallel(cfg, calls)[i].keys ==> key !in Parallel(cfg, calls)[j].keys
  {
    var safe := Pick(cfg, calls, true);
    SplitDisjoint(safe, |safe|, i, j);
    var a, b := Parallel(cfg, calls)[i], Parallel(cfg, calls)[j];
    forall key | key in a.keys
      ensures key !in b.keys
    {
      assert key in KeySet(a) && key !in KeySet(b);
    }
  }

  lemma {:induction false} SeenFrom(calls: seq<Call>, j: nat, key: string) returns (i: nat)
    requires j <= |calls| && key in Seen(calls, j)
    ensures i < j && Kept(calls, i) && key in calls[i].keys
  {
    if Kept(calls, j - 1) && key in KeySet(calls[j - 1]) {
      i := j - 1;
    } else {
      i := SeenFrom(calls, j - 1, key);
    }
  }

  /** A demoted call shares a key with a call kept before it. */
  lemma {:induction false} DemotedShares(calls: seq<Call>, j: nat) returns (i: nat, key: string)
    requires j < |calls| && !Kept(calls, j)
    ensures i < j && Kept(calls, i) && key in calls[i].keys && key in calls[j].keys
  {
    key :| key in KeySet(calls[j]) && key in Seen(calls, j);
    i := SeenFrom(calls, j, key);
  }

  lemma {:induction false} PickPartitions(cfg: Config, calls: seq<Call>)
    ensures multiset(Pick(cfg, calls, true)) + multiset(Pick(cfg, calls, false)) == multiset(calls)
  {
    if calls != [] {
      var before, c := calls[..|calls| - 1], calls[|calls| - 1];
      PickPartitions(cfg, before);
      assert multiset(calls) == multiset(before) + multiset{c} by {
        assert calls == before + [c];
      }
      var safe := Safe(cfg, c);
      assert multiset(Pick(cfg, calls, safe)) == multiset(Pick(cfg, before, safe)) + multiset{c};
    }
  }

  lemma MultisetSnoc(s: seq<Call>, c: Call)
    ensures multiset(s + [c]) == multiset(s) + multiset{c}
  {
  }

  lemma {:induction false} SplitPartitions(calls: seq<Call>, j: nat)
    requires j <= |calls|
    ensures multiset(Split(calls, j, true)) + multiset(Split(calls, j, false)) == multiset(calls[..j])
  {
    if j > 0 {
      SplitPartitions(calls, j - 1);
      var c, kept := calls[j - 1], Kept(calls, j - 1);
      assert calls[..j] == calls[..j - 1] + [c];
      MultisetSnoc(calls[..j - 1], c);
      MultisetSnoc(Split(calls, j - 1, kept), c);
    }
  }

  function Sequential(cfg: Config, calls: seq<Call>): seq<Call> {
    var safe := Pick(cfg, calls, true);
    if |calls| <= 1 then []
    else if cfg.heuristicArgs && |safe| >= 2 then Pick(cfg, calls, false) + Split(safe, |safe|, false)
    else Pick(cfg, calls, false)
  }

  function Unknowns(cfg: Config, calls: seq<Call>): nat {
    if calls == [] then 0
    else Unknowns(cfg, calls[..|calls| - 1]) + if Known(cfg, NameOrEmpty(calls[|calls| - 1])) then 0 else 1
  }

  /** The registry phase. */
  method SplitByRegistry(calls: seq<Call>, cfg: Config)
      returns (parallel: seq<Call>, sequential: seq<Call>, unknown: nat)
    ensures parallel == Pick(cfg, calls, true) && sequential == Pick(cfg, calls, false)
    ensures unknown == Unknowns(cfg, calls)
  {
    parallel, sequential, unknown := [], [], 0;
    for i := 0 to |calls|
      invariant parallel == Pick(cfg, calls[..i], true) && sequential == Pick(cfg, calls[..i], false)
      invariant unknown == Unknowns(cfg, calls[..i])
    {
      var c := calls[i];
      assert calls[..i + 1][..i] == calls[..i];
      if !Known(cfg, NameOrEmpty(c)) {
        unknown := unknown + 1;
      }
      if Safe(cfg, c) {
        parallel := parallel + [c];
      } else {
        sequential := sequential + [c];
      }
    }
    assert calls[..|calls|] == calls;
  }

  method Conflicts(c: Call, seen: set<string>) returns (conflict: bool)
    ensures conflict <==> !(KeySet(c) !! seen)
  {
    conflict := false;
    for k := 0 to |c.keys|
      invariant forall m :: 0 <= m < k ==> c.keys[m] !in seen
    {
      if c.keys[k] in seen {
        assert c.keys[k] in KeySet(c);
        return true;
      }
    }
  }

  method Remember(c: Call, seen0: set<string>) returns (seen: set<string>)
    ensures seen == seen0 + KeySet(c)
  {
    seen := seen0;
    for k := 0 to |c.keys|
      invariant seen == seen0 + set x | x in c.keys[..k]
    {
      assert c.keys[..k + 1] == c.keys[..k] + [c.keys[k]];
      seen := seen + {c.keys[k]};
    }
    assert c.keys[..|c.keys|] == c.keys;
  }

  /** The argument-name phase: a call sharing a key with one kept before it becomes sequential. */
  method SplitByKeys(safe: seq<Call>) returns (kept: seq<Call>, demoted: seq<Call>)
    ensures kept == Split(safe, |safe|, true) && demoted == Split(safe, |safe|, false)
  {
    var seen: set<string> := {};
    kept, demoted := [], [];
    for j := 0 to |safe|
      invariant seen == Seen(safe, j) && kept == Split(safe, j, true) && demoted == Split(safe, j, false)
    {
      var conflict := Conflicts(safe[j], seen);
      if conflict {
        demoted := demoted + [safe[j]];
        continue;
      }
      seen := Remember(safe[j], seen);
      kept := kept + [safe[j]];
    }
  }

  lemma ClassifyPartitions(cfg: Config, calls: seq<Call>)
    ensures multiset(Parallel(cfg, calls)) + multiset(Sequential(cfg, calls)) == multiset(calls)
  {
    var safe := Pick(cfg, calls, true);
    PickPartitions(cfg, calls);
    SplitPartitions(safe, |safe|);
    assert safe[..|safe|] == safe;
  }

  /** The classifier; no call is lost or repeated. */
  method Classify(calls: seq<Call>, cfg: Config) returns (parallel: seq<Call>, sequential: seq<Call>, unknown: nat)
    ensures parallel == Parallel(cfg, calls) && sequential == Sequential(cfg, calls)
    ensures multiset(parallel) + multiset(sequential) == multiset(calls)
    ensures unknown == if |calls| <= 1 then 0 else Unknowns(cfg, calls)
  {
    ClassifyPartitions(cfg, calls);
    if |calls| <= 1 {
      return calls, [], 0;
    }
    parallel, sequential, unknown := SplitByRegistry(calls, cfg);
    if cfg.heuristicArgs && |parallel| >= 2 {
      var kept, demoted := SplitByKeys(parallel);
      parallel, sequential := kept, sequential + demoted;
    }
  }

  // ---------------------------------------------------------------- running the batch

  /** One tool call of the batch: a worker routine executes it and then sends its result. */
  datatype Pc = Idle | Running | Sending | Sent

  /**
   `n` calls, the first `p` of them in the parallel part; `next` is the sequential call the main
   routine is at, `buf` the buffered channel with the results in order of arrival.
   */
  datatype Batch = Batch(n: nat, p: nat, pcs: seq<Pc>, next: nat, buf: seq<nat>, closed: bool)

  datatype Event = Start(i: nat) | Execute(i: nat) | Send(i: nat) | Close

  predicate AllSent(b: Batch, k: nat) {
    forall i :: 0 <= i < k ==> i < |b.pcs| && b.pcs[i].Sent?
  }

  /** `capacity` bounds the channel: a send needs room. */
  predicate Enabled(b: Batch, capacity: nat, e: Event) {
    match e
    case Start(i) => i < |b.pcs| && b.pcs[i].Idle? && (i < b.p || (AllSent(b, b.p) && i == b.next))
    case Execute(i) => i < |b.pcs| && b.pcs[i].Running?
    case Send(i) => i < |b.pcs| && b.pcs[i].Sending? && |b.buf| < capacity
    case Close => AllSent(b, b.p) && b.next == b.n && !b.closed
  }

  function Step(b: Batch, capacity: nat, e: Event): Batch
    requires Enabled(b, capacity, e)
  {
    match e
    case Start(i) => b.(pcs := b.pcs[i := Running])
    case Execute(i) => b.(pcs := b.pcs[i := Sending])
    case Send(i) => b.(pcs := b.pcs[i := Sent], buf := b.buf + [i], next := if i == b.next then b.next + 1 else b.next)
    case Close => b.(closed := true)
  }

  predicate Active(pc: Pc) {
    pc.Running? || pc.Sending?
  }

  ghost predicate Inv(b: Batch) {
    && b.p <= b.n == |b.pcs| && b.p <= b.next <= b.n
    && Distinct(b.buf)
    && (forall k :: 0 <= k < |b.buf| ==> b.buf[k] < b.n && b.pcs[b.buf[k]].Sent?)
    && (forall i :: 0 <= i < b.n && b.pcs[i].Sent? ==> i in b.buf)
    && (forall i :: b.p <= i < b.next ==> b.pcs[i].Sent?)
    && (forall i :: b.next < i < b.n ==> b.pcs[i].Idle?)
    && (b.next < b.n ==> !b.pcs[b.next].Sent? || b.next < b.p)
    && (b.next < b.n && !b.pcs[b.next].Idle? ==> AllSent(b, b.p))
    && (b.closed ==> AllSent(b, b.p) && b.next == b.n)
  }

  function StartBatch(p: nat, q: nat): Batch {
    Batch(p + q, p, seq(p + q, _ => Idle), p, [], false)
  }

  lemma InvStep(b: Batch, capacity: nat, e: Event)
    requires Inv(b) && Enabled(b, capacity, e)
    ensures Inv(Step(b, capacity, e))
  {
    var s := Step(b, capacity, e);
    if e.Send? {
      assert e.i !in b.buf;
      forall i | 0 <= i < s.n && s.pcs[i].Sent?
        ensures i in s.buf
      {
        if i == e.i {
          assert s.buf[|b.buf|] == i;
        } else {
          assert i in b.buf;
        }
      }
    }
  }

  predicate CanRun(b: Batch, capacity: nat, es: seq<Event>)
    decreases |es|
  {
    es == [] || (Enabled(b, capacity, es[0]) && CanRun(Step(b, capacity, es[0]), capacity, es[1..]))
  }

  function Run(b: Batch, capacity: nat, es: seq<Event>): Batch
    requires CanRun(b, capacity, es)
    decreases |es|
  {
    if es == [] then b else Run(Step(b, capacity, es[0]), capacity, es[1..])
  }

  lemma {:induction false} InvRun(b: Batch, capacity: nat, es: seq<Event>)
    requires Inv(b) && CanRun(b, capacity, es)
    ensures Inv(Run(b, capacity, es)) && Run(b, capacity, es).n == b.n && Run(b, capacity, es).p == b.p
    decreases |es|
  {
    if es != [] {
      InvStep(b, capacity, es[0]);
      InvRun(Step(b, capacity, es[0]), capacity, es[1..]);
    }
  }

  /** With room for one result per call, a finished call never waits to send. */
  lemma SendNeverBlocks(p: nat, q: nat, es: seq<Event>, i: nat)
    requires CanRun(StartBatch(p, q), p + q, es)
    requires i < |Run(StartBatch(p, q), p + q, es).pcs| && Run(StartBatch(p, q), p + q, es).pcs[i].Sending?
    ensures |Run(StartBatch(p, q), p + q, es).buf| < p + q
  {
    InvRun(StartBatch(p, q), p + q, es);
    var b := Run(StartBatch(p, q), p + q, es);
    DistinctMissing(b.buf, b.n, i);
  }

  /** A sequential call in progress is alone: no other call of the batch is executing or sending. */
  lemma SequentialAlone(p: nat, q: nat, capacity: nat, es: seq<Event>, i: nat, j: nat)
    requires CanRun(StartBatch(p, q), capacity, es)
    requires p <= i < p + q && j < p + q && i != j
    requires i < |Run(StartBatch(p, q), capacity, es).pcs| && j < |Run(StartBatch(p, q), capacity, es).pcs|
    requires Active(Run(StartBatch(p, q), capacity, es).pcs[i])
    ensures !Active(Run(StartBatch(p, q), capacity, es).pcs[j])
  {
    InvRun(StartBatch(p, q), capacity, es);
  }

  /** Once the channel is closed it holds exactly one result per call. */
  lemma OneResultEach(p: nat, q: nat, capacity: nat, es: seq<Event>)
    requires CanRun(StartBatch(p, q), capacity, es) && Run(StartBatch(p, q), capacity, es).closed
    ensures var buf := Run(StartBatch(p, q), capacity, es).buf;
            Distinct(buf) && |buf| == p + q && forall i :: i in buf <==> 0 <= i < p + q
  {
    InvRun(StartBatch(p, q), capacity, es);
    var b := Run(StartBatch(p, q), capacity, es);
    forall i | 0 <= i < b.n
      ensures i in b.buf
    {
      assert b.pcs[i].Sent?;
    }
    DistinctBelow(b.buf, b.n);
    DistinctCard(b.buf);
    SubsetCard(Below(b.n), Members(b.buf));
  }

  // ---------------------------------------------------------------- the order of arrival

  /** Results of the parallel part come first; each sequential call's result comes at its own place behind them. */
  ghost predicate Ordered(b: Batch) {
    && (b.next > b.p ==> AllSent(b, b.p))
    && forall k :: 0 <= k < |b.buf| ==> if k < b.p then b.buf[k] < b.p else b.buf[k] == k
  }

  /** Once the parallel part has sent, exactly the calls before `next` have. */
  lemma SentCount(b: Batch)
    requires Inv(b) && AllSent(b, b.p)
    ensures |b.buf| == b.next
  {
    forall i: nat
      ensures i in Members(b.buf) <==> i in Below(b.next)
    {
      if i < b.next {
        assert b.pcs[i].Sent?;
      }
    }
    assert Members(b.buf) == Below(b.next);
    DistinctCard(b.buf);
  }

  lemma OrderedStep(b: Batch, capacity: nat, e: Event)
    requires Inv(b) && Ordered(b) && Enabled(b, capacity, e)
    ensures Ordered(Step(b, capacity, e))
  {
    if e.Send? {
      if e.i < b.p {
        assert !AllSent(b, b.p) && b.next == b.p;
        forall k | 0 <= k < |b.buf|
          ensures b.buf[k] < b.p
        {
          assert b.pcs[b.buf[k]].Sent?;
        }
        DistinctMissing(b.buf, b.p, e.i);
      } else {
        SentCount(b);
      }
    }
  }

  lemma {:induction false} OrderedRun(b: Batch, capacity: nat, es: seq<Event>)
    requires Inv(b) && Ordered(b) && CanRun(b, capacity, es)
    ensures Ordered(Run(b, capacity, es))
    decreases |es|
  {
    if es != [] {
      InvStep(b, capacity, es[0]);
      OrderedStep(b, capacity, es[0]);
      OrderedRun(Step(b, capacity, es[0]), capacity, es[1..]);
    }
  }

  /** Under every schedule the results of sequential calls arrive last, in their order. */
  lemma SequentialLast(p: nat, q: nat, capacity: nat, es: seq<Event>, k: nat)
    requires CanRun(StartBatch(p, q), capacity, es) && p <= k < |Run(StartBatch(p, q), capacity, es).buf|
    ensures Run(StartBatch(p, q), capacity, es).buf[k] == k
  {
    InvRun(StartBatch(p, q), capacity, es);
    OrderedRun(StartBatch(p, q), capacity, es);
  }

  lemma SomeStep(b: Batch) returns (e: Event)
    requires Inv(b) && !b.closed
    ensures CanRun(b, b.n, [e])
  {
    if AllSent(b, b.p) && b.next == b.n {
      e := Close;
    } else {
      var i: nat := b.next;
      if !AllSent(b, b.p) {
        i :| i < b.p && !b.pcs[i].Sent?;
      }
      if b.pcs[i].Sending? {
        DistinctMissing(b.buf, b.n, i);
      }
      e := match b.pcs[i] case Idle => Start(i) case Running => Execute(i) case _ => Send(i);
    }
    assert [e][1..] == [];
  }

  /** No schedule gets stuck: until the channel is closed some routine can move. */
  lemma NeverStuck(p: nat, q: nat, es: seq<Event>) returns (e: Event)
    requires CanRun(StartBatch(p, q), p + q, es) && !Run(StartBatch(p, q), p + q, es).closed
    ensures CanRun(Run(StartBatch(p, q), p + q, es), p + q, [e])
  {
    InvRun(StartBatch(p, q), p + q, es);
    e := SomeStep(Run(StartBatch(p, q), p + q, es));
  }

  /** What a call still has to do. */
  function Rank(pc: Pc): nat {
    match pc
    case Idle => 3
    case Running => 2
    case Sending => 1
    case Sent => 0
  }

  function Work(pcs: seq<Pc>): nat {
    if pcs == [] then 0 else Work(pcs[..|pcs| - 1]) + Rank(pcs[|pcs| - 1])
  }

  function Left(b: Batch): nat {
    Work(b.pcs) + if b.closed then 0 else 1
  }

  lemma {:induction false} WorkAt(pcs: seq<Pc>, i: nat, pc: Pc)
    requires i < |pcs|
    ensures Work(pcs[i := pc]) == Work(pcs) - Rank(pcs[i]) + Rank(pc)
  {
    var n := |pcs| - 1;
    if i < n {
      WorkAt(pcs[..n], i, pc);
      assert pcs[i := pc][..n] == pcs[..n][i := pc];
    } else {
      assert pcs[i := pc][..n] == pcs[..n];
    }
  }

  /** Every step brings the batch one closer to its end, so every schedule is finite. */
  lemma StepProgress(b: Batch, capacity: nat, e: Event)
    requires Enabled(b, capacity, e)
    ensures Left(Step(b, capacity, e)) == Left(b) - 1
  {
    match e
    case Start(i) => WorkAt(b.pcs, i, Running);
    case Execute(i) => WorkAt(b.pcs, i, Sending);
    case Send(i) => WorkAt(b.pcs, i, Sent);
    case Close =>
  }

  /** From every reachable state some schedule closes the channel. */
  lemma {:induction false} Completes(b: Batch) returns (es: seq<Event>)
    requires Inv(b)
    ensures CanRun(b, b.n, es) && Run(b, b.n, es).closed
    decreases Left(b)
  {
    if b.closed {
      es := [];
    } else {
      var e := SomeStep(b);
      StepProgress(b, b.n, e);
      InvStep(b, b.n, e);
      var rest := Completes(Step(b, b.n, e));
      es := [e] + rest;
      assert es[1..] == rest;
    }
  }
}
