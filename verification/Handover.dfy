/**
 Replacing a provider's request queue while old workers and producers still hold the old one.
 Messages accepted by the old queue are numbered in order of acceptance; `dest` records, for each
 message that left it, where it went. Nobody reads the new queue before the hand-over ends.
 */
module Handover {

  datatype Dest = Taken | Moved | Held | Errored

  datatype Entry = Transferred(id: nat) | Direct

  datatype Worker = Receiving | Processing(id: nat) | Exited

  datatype Updater =
    | Swapping
    | Signalling
    | Transferring
    | Holding(id: nat)
    | Overflowing(id: nat)
    | Closing
    | Joining
    | Finished

  datatype State = State(
    sent: nat, oldQ: seq<nat>, newQ: seq<Entry>, dest: seq<Dest>,
    closed: bool, workers: seq<Worker>, updater: Updater)

  datatype Config = Config(oldCap: nat, newCap: nat)

  datatype Event =
    | Send | SendNew
    | Take(w: nat) | Finish(w: nat) | Exit(w: nat)
    | Swap | Signal | Receive | Move | Overflow | Drained | LateMove | TimeOut | Close | Join

  predicate Enabled(s: State, c: Config, e: Event) {
    match e
    case Send => !s.closed && |s.oldQ| < c.oldCap
    case SendNew => !s.updater.Swapping? && |s.newQ| < c.newCap
    case Take(w) => w < |s.workers| && s.workers[w].Receiving? && s.oldQ != []
    case Finish(w) => w < |s.workers| && s.workers[w].Processing?
    case Exit(w) => w < |s.workers| && s.workers[w].Receiving? && s.oldQ == [] && s.closed
    case Swap => s.updater.Swapping?
    case Signal => s.updater.Signalling?
    case Receive => s.updater.Transferring? && s.oldQ != []
    case Move => s.updater.Holding? && |s.newQ| < c.newCap
    case Overflow => s.updater.Holding? && |s.newQ| >= c.newCap
    case Drained => s.updater.Transferring? && s.oldQ == []
    case LateMove => s.updater.Overflowing? && |s.newQ| < c.newCap
    case TimeOut => s.updater.Overflowing?
    case Close => s.updater.Closing?
    case Join => s.updater.Joining? && forall w :: 0 <= w < |s.workers| ==> s.workers[w].Exited?
  }

  function Settle(dest: seq<Dest>, id: nat, d: Dest): seq<Dest> {
    if id < |dest| then dest[id := d] else dest
  }

  function Step(s: State, c: Config, e: Event): State
    requires Enabled(s, c, e)
  {
    match e
    case Send => s.(sent := s.sent + 1, oldQ := s.oldQ + [s.sent])
    case SendNew => s.(newQ := s.newQ + [Direct])
    case Take(w) =>
      s.(oldQ := s.oldQ[1..], dest := s.dest + [Taken], workers := s.workers[w := Processing(s.oldQ[0])])
    case Finish(w) => s.(workers := s.workers[w := Receiving])
    case Exit(w) => s.(workers := s.workers[w := Exited])
    case Swap => s.(updater := Signalling)
    case Signal => s.(updater := Transferring)
    case Receive => s.(oldQ := s.oldQ[1..], dest := s.dest + [Held], updater := Holding(s.oldQ[0]))
    case Move =>
      s.(newQ := s.newQ + [Transferred(s.updater.id)], dest := Settle(s.dest, s.updater.id, Moved),
         updater := Transferring)
    case Overflow => s.(updater := Overflowing(s.updater.id))
    case Drained => s.(updater := Closing)
    case LateMove =>
      s.(newQ := s.newQ + [Transferred(s.updater.id)], dest := Settle(s.dest, s.updater.id, Moved), updater := Closing)
    case TimeOut => s.(dest := Settle(s.dest, s.updater.id, Errored), updater := Closing)
    case Close => s.(closed := true, updater := Joining)
    case Join => s.(updater := Finished)
  }

  predicate CanRun(s: State, c: Config, es: seq<Event>)
    decreases |es|
  {
    es == [] || (Enabled(s, c, es[0]) && CanRun(Step(s, c, es[0]), c, es[1..]))
  }

  function Run(s: State, c: Config, es: seq<Event>): State
    requires CanRun(s, c, es)
    decreases |es|
  {
    if es == [] then s else Run(Step(s, c, es[0]), c, es[1..])
  }

  /** Before the update: some messages buffered, the workers receiving, nothing in the new queue. */
  ghost predicate Initial(s: State, c: Config) {
    && s.dest == [] && s.newQ == [] && !s.closed && s.updater.Swapping?
    && |s.oldQ| == s.sent <= c.oldCap && (forall i :: 0 <= i < |s.oldQ| ==> s.oldQ[i] == i)
    && forall w :: 0 <= w < |s.workers| ==> s.workers[w].Receiving?
  }

  // ---------------------------------------------------------------- the invariant

  /** The old queue is the unremoved tail of what was accepted, in order. */
  ghost predicate QueueOrder(s: State) {
    |s.dest| + |s.oldQ| == s.sent && forall i :: 0 <= i < |s.oldQ| ==> s.oldQ[i] == |s.dest| + i
  }

  predicate Carries(u: Updater, id: int) {
    (u.Holding? || u.Overflowing?) && u.id == id
  }

  /** A message is in the updater's hands exactly when it is recorded as held. */
  ghost predicate HeldOnce(s: State) {
    && (s.updater.Holding? || s.updater.Overflowing? ==> s.updater.id < |s.dest|)
    && forall i :: 0 <= i < |s.dest| ==> (s.dest[i].Held? <==> Carries(s.updater, i))
  }

  /** The transferred part of the new queue holds moved messages only, in order of acceptance. */
  ghost predicate MovedOrder(s: State) {
    && (forall p :: 0 <= p < |s.newQ| && s.newQ[p].Transferred? ==>
        s.newQ[p].id < |s.dest| && s.dest[s.newQ[p].id].Moved?)
    && (forall p, q :: 0 <= p < q < |s.newQ| && s.newQ[p].Transferred? && s.newQ[q].Transferred? ==>
          s.newQ[p].id < s.newQ[q].id)
    && (forall p :: 0 <= p < |s.newQ| && s.newQ[p].Transferred? && (s.updater.Holding? || s.updater.Overflowing?) ==>
          s.newQ[p].id < s.updater.id)
  }

  ghost predicate MovedListed(s: State) {
    forall i :: 0 <= i < |s.dest| && s.dest[i].Moved? ==> Transferred(i) in s.newQ
  }

  predicate Ended(u: Updater) {
    u.Closing? || u.Joining? || u.Finished?
  }

  ghost predicate OneError(s: State) {
    && (!Ended(s.updater) ==> forall i :: 0 <= i < |s.dest| ==> !s.dest[i].Errored?)
    && (forall i, j :: 0 <= i < |s.dest| && 0 <= j < |s.dest| && s.dest[i].Errored? && s.dest[j].Errored? ==> i == j)
  }

  ghost predicate WorkersOk(s: State) {
    && (s.closed <==> s.updater.Joining? || s.updater.Finished?)
    && (forall w :: 0 <= w < |s.workers| && s.workers[w].Exited? ==> s.closed && s.oldQ == [])
    && (forall w :: 0 <= w < |s.workers| && s.workers[w].Processing? ==>
          s.workers[w].id < |s.dest| && s.dest[s.workers[w].id].Taken?)
    && (s.updater.Finished? ==> forall w :: 0 <= w < |s.workers| ==> s.workers[w].Exited?)
  }

  ghost predicate Inv(s: State, c: Config) {
    && QueueOrder(s) && HeldOnce(s) && MovedOrder(s) && MovedListed(s) && OneError(s) && WorkersOk(s)
    && (s.updater.Overflowing? ==> |s.newQ| >= c.newCap)
  }

  lemma QueueStep(s: State, c: Config, e: Event)
    requires QueueOrder(s) && HeldOnce(s) && Enabled(s, c, e)
    ensures QueueOrder(Step(s, c, e)) && HeldOnce(Step(s, c, e))
  {
  }

  lemma ErrorStep(s: State, c: Config, e: Event)
    requires OneError(s) && Enabled(s, c, e)
    ensures OneError(Step(s, c, e))
  {
  }

  lemma MovedStep(s: State, c: Config, e: Event)
    requires QueueOrder(s) && HeldOnce(s) && MovedOrder(s) && Enabled(s, c, e)
    ensures MovedOrder(Step(s, c, e))
  {
  }

  lemma ListedStep(s: State, c: Config, e: Event)
    requires HeldOnce(s) && MovedListed(s) && Enabled(s, c, e)
    ensures MovedListed(Step(s, c, e))
  {
    var n := Step(s, c, e);
    forall i | 0 <= i < |n.dest| && n.dest[i].Moved?
      ensures Transferred(i) in n.newQ
    {
      if i < |s.dest| && s.dest[i].Moved? {
        assert Transferred(i) in s.newQ;
      } else {
        assert n.newQ == s.newQ + [Transferred(i)];
        assert n.newQ[|s.newQ|] == Transferred(i);
      }
    }
  }

  lemma WorkersStep(s: State, c: Config, e: Event)
    requires QueueOrder(s) && HeldOnce(s) && WorkersOk(s) && Enabled(s, c, e)
    ensures WorkersOk(Step(s, c, e))
  {
  }

  ghost predicate Fits(s: State, c: Config) {
    |s.oldQ| <= c.oldCap && |s.newQ| <= c.newCap && (s.updater.Swapping? ==> s.newQ == [])
  }

  /** No queue ever holds more than its capacity, and nothing enters the new one before the swap. */
  lemma {:induction false} QueuesFit(s: State, c: Config, es: seq<Event>)
    requires Fits(s, c) && CanRun(s, c, es)
    ensures Fits(Run(s, c, es), c)
    decreases |es|
  {
    if es != [] {
      QueuesFit(Step(s, c, es[0]), c, es[1..]);
    }
  }

  lemma InvStep(s: State, c: Config, e: Event)
    requires Inv(s, c) && Enabled(s, c, e)
    ensures Inv(Step(s, c, e), c)
    ensures !e.LateMove?
    ensures |Step(s, c, e).workers| == |s.workers|
  {
    QueueStep(s, c, e);
    ErrorStep(s, c, e);
    MovedStep(s, c, e);
    ListedStep(s, c, e);
    WorkersStep(s, c, e);
  }

  lemma {:induction false} InvRun(s: State, c: Config, es: seq<Event>)
    requires Inv(s, c) && CanRun(s, c, es)
    ensures Inv(Run(s, c, es), c) && LateMove !in es && |Run(s, c, es).workers| == |s.workers|
    decreases |es|
  {
    if es != [] {
      InvStep(s, c, es[0]);
      InvRun(Step(s, c, es[0]), c, es[1..]);
    }
  }

  // ---------------------------------------------------------------- conservation

  /** Every accepted message has left the old queue for exactly one place; moved ones keep their order. */
  ghost predicate Conserved(s: State) {
    && |s.dest| == s.sent && s.oldQ == []
    && (forall i :: 0 <= i < s.sent ==> s.dest[i].Taken? || s.dest[i].Moved? || s.dest[i].Errored?)
    && (forall i :: 0 <= i < s.sent ==> (s.dest[i].Moved? <==> Transferred(i) in s.newQ))
    && (forall p, q :: 0 <= p < q < |s.newQ| && s.newQ[p].Transferred? && s.newQ[q].Transferred? ==>
          s.newQ[p].id < s.newQ[q].id)
    && (forall i, j :: 0 <= i < s.sent && 0 <= j < s.sent && s.dest[i].Errored? && s.dest[j].Errored? ==> i == j)
  }

  /** The hand-over loses, repeats and reorders nothing, whatever producers and workers do meanwhile. */
  lemma HandoverConserves(s: State, c: Config, es: seq<Event>)
    requires Initial(s, c) && CanRun(s, c, es) && Run(s, c, es).updater.Finished? && |s.workers| >= 1
    ensures Conserved(Run(s, c, es))
  {
    assert Inv(s, c);
    InvRun(s, c, es);
    var n := Run(s, c, es);
    assert n.workers[0].Exited?;
    forall i | 0 <= i < n.sent
      ensures n.dest[i].Moved? <==> Transferred(i) in n.newQ
    {
      if Transferred(i) in n.newQ {
        var p :| 0 <= p < |n.newQ| && n.newQ[p] == Transferred(i);
      }
    }
  }

  /** A message that overflows the new queue is never delivered: the queue stays full until the timeout. */
  lemma OverflowAlwaysFails(s: State, c: Config, es: seq<Event>)
    requires Initial(s, c) && CanRun(s, c, es)
    ensures LateMove !in es
    ensures Run(s, c, es).updater.Overflowing? ==> |Run(s, c, es).newQ| >= c.newCap
  {
    assert Inv(s, c);
    InvRun(s, c, es);
  }

  // ---------------------------------------------------------------- exactly for which worker counts

  ghost predicate AlwaysConserves(c: Config, workers: nat) {
    forall s: State, es: seq<Event> ::
      Initial(s, c) && |s.workers| == workers && CanRun(s, c, es) ==>
        (Run(s, c, es).updater.Finished? ==> Conserved(Run(s, c, es)))
  }

  lemma RunsTo(s: State, c: Config, e: Event, next: State, rest: seq<Event>, last: State) returns (es: seq<Event>)
    requires Enabled(s, c, e) && Step(s, c, e) == next && CanRun(next, c, rest) && Run(next, c, rest) == last
    ensures CanRun(s, c, es) && Run(s, c, es) == last && e in es && forall x :: x in rest ==> x in es
  {
    es := [e] + rest;
    assert es[1..] == rest;
  }

  lemma OverflowFrom(s3: State) returns (es: seq<Event>)
    requires s3 == State(1, [0], [Direct], [], false, [Receiving], Transferring)
    ensures CanRun(s3, Config(1, 1), es) && Overflow in es && Run(s3, Config(1, 1), es).dest == [Errored]
  {
    var c := Config(1, 1);
    var s4 := s3.(oldQ := [], dest := [Held], updater := Holding(0));
    var s5 := s4.(updater := Overflowing(0));
    var s6 := s5.(dest := [Errored], updater := Closing);
    es := RunsTo(s5, c, TimeOut, s6, [], s6);
    es := RunsTo(s4, c, Overflow, s5, es, s6);
    es := RunsTo(s3, c, Receive, s4, es, s6);
  }

  /**
   A new request fills a queue of one before the buffered message is moved: the overflow branch is reached, and it
   times out.
   */
  lemma OverflowReached() returns (s: State, c: Config, es: seq<Event>)
    ensures Initial(s, c) && |s.workers| == 1 && CanRun(s, c, es)
    ensures Run(s, c, es).dest == [Errored] && Overflow in es
  {
    c := Config(1, 1);
    s := State(1, [0], [], [], false, [Receiving], Swapping);
    var s1 := s.(updater := Signalling);
    var s2 := s1.(newQ := [Direct]);
    var s3 := s2.(updater := Transferring);
    es := OverflowFrom(s3);
    var s6 := Run(s3, c, es);
    es := RunsTo(s2, c, Signal, s3, es, s6);
    es := RunsTo(s1, c, SendNew, s2, es, s6);
    es := RunsTo(s, c, Swap, s1, es, s6);
  }

  /** With no worker left, a send that slips in before the close is stranded. */
  lemma NoWorkerStrands(c: Config)
    requires c.oldCap > 0
    ensures !AlwaysConserves(c, 0)
  {
    var s0 := State(0, [], [], [], false, [], Swapping);
    var s1, s2, s3 := s0.(updater := Signalling), s0.(updater := Transferring), s0.(updater := Closing);
    var s4 := State(1, [0], [], [], false, [], Closing);
    var s5 := State(1, [0], [], [], true, [], Joining);
    var s6 := State(1, [0], [], [], true, [], Finished);
    var es := RunsTo(s5, c, Join, s6, [], s6);
    es := RunsTo(s4, c, Close, s5, es, s6);
    assert s3.oldQ + [s3.sent] == [0];
    es := RunsTo(s3, c, Send, s4, es, s6);
    es := RunsTo(s2, c, Drained, s3, es, s6);
    es := RunsTo(s1, c, Signal, s2, es, s6);
    es := RunsTo(s0, c, Swap, s1, es, s6);
    assert Initial(s0, c) && Run(s0, c, es) == s6 && !Conserved(s6);
  }

  /** Conservation holds exactly when at least one old worker is there to drain what the transfer leaves. */
  lemma ConservesExactly(c: Config, workers: nat)
    requires c.oldCap > 0
    ensures AlwaysConserves(c, workers) <==> workers >= 1
  {
    if workers >= 1 {
      forall s: State, es: seq<Event> |
        Initial(s, c) && |s.workers| == workers && CanRun(s, c, es) && Run(s, c, es).updater.Finished?
        ensures Conserved(Run(s, c, es))
      {
        HandoverConserves(s, c, es);
      }
    } else {
      NoWorkerStrands(c);
    }
  }

  // ---------------------------------------------------------------- the hand-over ends

  predicate ByProducer(e: Event) {
    e.Send? || e.SendNew?
  }

  predicate ByUpdater(e: Event) {
    !ByProducer(e) && !e.Take? && !e.Finish? && !e.Exit?
  }

  /** Whatever has happened, the updater or a worker can move until the hand-over is finished. */
  lemma NeverStuck(s: State, c: Config, es: seq<Event>) returns (e: Event)
    requires Initial(s, c) && CanRun(s, c, es) && !Run(s, c, es).updater.Finished?
    ensures CanRun(Run(s, c, es), c, [e]) && !ByProducer(e)
  {
    assert Inv(s, c);
    InvRun(s, c, es);
    var n := Run(s, c, es);
    match n.updater
    case Swapping => e := Swap;
    case Signalling => e := Signal;
    case Transferring => e := if n.oldQ != [] then Receive else Drained;
    case Holding(_) => e := if |n.newQ| < c.newCap then Move else Overflow;
    case Overflowing(_) => e := TimeOut;
    case Closing => e := Close;
    case Joining =>
      if w :| 0 <= w < |n.workers| && !n.workers[w].Exited? {
        e := if n.workers[w].Processing? then Finish(w) else if n.oldQ != [] then Take(w) else Exit(w);
      } else {
        e := Join;
      }
    assert [e][1..] == [];
  }

  function Room(s: State, c: Config): nat {
    if |s.newQ| < c.newCap then c.newCap - |s.newQ| else 0
  }

  /** What the updater still has to do: nobody empties the new queue, so each transfer uses up room. */
  function UpdaterWork(s: State, c: Config): nat {
    match s.updater
    case Swapping => 2 * Room(s, c) + 8
    case Signalling => 2 * Room(s, c) + 7
    case Transferring => 2 * Room(s, c) + 6
    case Holding(_) => 2 * Room(s, c) + 5
    case Overflowing(_) => 4
    case Closing => 3
    case Joining => 2
    case Finished => 0
  }

  function WorkerWork(ws: seq<Worker>): nat {
    if ws == [] then 0
    else WorkerWork(ws[..|ws| - 1]) + match ws[|ws| - 1] case Exited => 0 case Receiving => 1 case Processing(_) => 2
  }

  lemma {:induction false} WorkAt(ws: seq<Worker>, w: nat, v: Worker)
    requires w < |ws|
    ensures WorkerWork(ws[w := v]) + (match ws[w] case Exited => 0 case Receiving => 1 case Processing(_) => 2)
         == WorkerWork(ws) + match v case Exited => 0 case Receiving => 1 case Processing(_) => 2
  {
    var n := |ws| - 1;
    if w < n {
      WorkAt(ws[..n], w, v);
      assert ws[w := v][..n] == ws[..n][w := v];
    } else {
      assert ws[w := v][..n] == ws[..n];
    }
  }

  function OldWork(s: State): nat {
    2 * |s.oldQ| + WorkerWork(s.workers)
  }

  /** No step of anyone gives the updater more to do, and each of its own leaves it less. */
  lemma UpdaterProgress(s: State, c: Config, e: Event)
    requires Enabled(s, c, e)
    ensures UpdaterWork(Step(s, c, e), c) <= UpdaterWork(s, c) - if ByUpdater(e) then 1 else 0
  {
  }

  /** The same for the old workers once the old queue is closed. */
  lemma WorkerProgress(s: State, c: Config, e: Event)
    requires Enabled(s, c, e) && s.closed && (s.updater.Joining? || s.updater.Finished?)
    ensures var n := Step(s, c, e);
            n.closed && (n.updater.Joining? || n.updater.Finished?)
            && OldWork(n) <= OldWork(s) - if ByUpdater(e) || ByProducer(e) then 0 else 1
  {
    match e
    case Take(w) => WorkAt(s.workers, w, Processing(s.oldQ[0]));
    case Finish(w) => WorkAt(s.workers, w, Receiving);
    case Exit(w) => WorkAt(s.workers, w, Exited);
    case _ =>
  }

  function StepsBy(es: seq<Event>, who: Event -> bool): nat {
    if es == [] then 0 else (if who(es[0]) then 1 else 0) + StepsBy(es[1..], who)
  }

  /** However long producers keep sending, the updater takes a bounded number of steps. */
  lemma {:induction false} UpdaterBounded(s: State, c: Config, es: seq<Event>)
    requires CanRun(s, c, es)
    ensures StepsBy(es, ByUpdater) + UpdaterWork(Run(s, c, es), c) <= UpdaterWork(s, c)
    decreases |es|
  {
    if es != [] {
      UpdaterProgress(s, c, es[0]);
      UpdaterBounded(Step(s, c, es[0]), c, es[1..]);
    }
  }

  predicate ByWorker(e: Event) {
    !ByUpdater(e) && !ByProducer(e)
  }

  /** Once the old queue is closed its workers take a bounded number of steps, so the hand-over ends. */
  lemma {:induction false} WorkersBounded(s: State, c: Config, es: seq<Event>)
    requires CanRun(s, c, es) && s.closed && (s.updater.Joining? || s.updater.Finished?)
    ensures StepsBy(es, ByWorker) + OldWork(Run(s, c, es)) <= OldWork(s)
    decreases |es|
  {
    if es != [] {
      WorkerProgress(s, c, es[0]);
      WorkersBounded(Step(s, c, es[0]), c, es[1..]);
    }
  }
}
