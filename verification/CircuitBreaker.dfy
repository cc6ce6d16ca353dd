/** The per-key load tracker and its circuit breaker, with each method one atomic step. */
module CircuitBreaker {
  import opened Options

  datatype Circuit = Closed | Open | HalfOpen

  datatype KeyState = KeyState(active: int, total: nat, tokens: nat, errors: nat, lastError: Option<int>,
      circuit: Circuit, openedAt: Option<int>)

  datatype Config = Config(threshold: int, cooldown: int)

  /** What one caller does to one key; `IsCircuitOpen` is `Ask`. */
  datatype Action = Active(delta: int) | Success(tokens: int) | Failure | Ask

  datatype Event = Event(key: string, now: int, action: Action)

  const Fresh := KeyState(0, 0, 0, 0, None, Closed, None)

  // ---------------------------------------------------------------- one key

  function AfterSuccess(s: KeyState, tokens: int): KeyState {
    s.(total := s.total + 1,
       tokens := if tokens > 0 then s.tokens + tokens else s.tokens,
       errors := 0,
       circuit := if s.circuit == HalfOpen then Closed else s.circuit)
  }

  function AfterFailure(cfg: Config, s: KeyState, now: int): KeyState {
    var counted := s.(total := s.total + 1, errors := s.errors + 1, lastError := Some(now));
    if counted.errors >= cfg.threshold && s.circuit != Open then counted.(circuit := Open, openedAt := Some(now))
    else counted
  }

  /** The answer of `IsCircuitOpen` in state `s`. */
  predicate Refuses(cfg: Config, s: KeyState, now: int) {
    s.circuit == Open && (s.openedAt.Some? ==> now - s.openedAt.value < cfg.cooldown)
  }

  function AfterAsk(cfg: Config, s: KeyState, now: int): KeyState {
    if s.circuit == Open && !Refuses(cfg, s, now) then s.(circuit := HalfOpen) else s
  }

  function After(cfg: Config, s: KeyState, now: int, a: Action): KeyState {
    match a
    case Active(delta) => s.(active := s.active + delta)
    case Success(tokens) => AfterSuccess(s, tokens)
    case Failure => AfterFailure(cfg, s, now)
    case Ask => AfterAsk(cfg, s, now)
  }

  // ---------------------------------------------------------------- the tracker

  function StateOf(m: map<string, KeyState>, key: string): KeyState {
    if key in m then m[key] else Fresh
  }

  /** Asking about an unknown key creates no state; every other step does. */
  function Next(cfg: Config, m: map<string, KeyState>, e: Event): map<string, KeyState> {
    if e.action.Ask? && e.key !in m then m
    else m[e.key := After(cfg, StateOf(m, e.key), e.now, e.action)]
  }

  class KeyLoadTracker {
    var states: map<string, KeyState>
    const cfg: Config

    constructor (threshold: int, cooldown: int)
      ensures states == map[] && cfg == Config(threshold, cooldown)
    {
      states := map[];
      cfg := Config(threshold, cooldown);
    }

    method GetOrCreateState(key: string) returns (s: KeyState)
      modifies this`states
      ensures s == StateOf(old(states), key)
      ensures states == old(states)[key := s]
    {
      if key !in states {
        states := states[key := Fresh];
      }
      s := states[key];
      assert states == old(states)[key := s];
    }

    method AddActive(key: string, delta: int, ghost now: int)
      modifies this`states
      ensures states == Next(cfg, old(states), Event(key, now, Active(delta)))
    {
      var s := GetOrCreateState(key);
      states := states[key := s.(active := s.active + delta)];
    }

    method RecordSuccess(key: string, tokens: int, ghost now: int)
      modifies this`states
      ensures states == Next(cfg, old(states), Event(key, now, Success(tokens)))
    {
      var s := GetOrCreateState(key);
      s := s.(total := s.total + 1);
      if tokens > 0 {
        s := s.(tokens := s.tokens + tokens);
      }
      s := s.(errors := 0);
      if s.circuit == HalfOpen {
        s := s.(circuit := Closed);
      }
      states := states[key := s];
    }

    method RecordError(key: string, now: int)
      modifies this`states
      ensures states == Next(cfg, old(states), Event(key, now, Failure))
    {
      var s := GetOrCreateState(key);
      s := s.(total := s.total + 1);
      s := s.(lastError := Some(now));
      s := s.(errors := s.errors + 1);
      if s.errors >= cfg.threshold {
        if s.circuit == Closed {
          s := s.(circuit := Open);
          s := s.(openedAt := Some(now));
        }
        if s.circuit == HalfOpen {
          s := s.(circuit := Open);
          s := s.(openedAt := Some(now));
        }
      }
      states := states[key := s];
    }

    method IsCircuitOpen(key: string, now: int) returns (refused: bool)
      modifies this`states
      ensures states == Next(cfg, old(states), Event(key, now, Ask))
      ensures refused == Refuses(cfg, StateOf(old(states), key), now)
    {
      if key !in states {
        return false;
      }
      var s := states[key];
      if s.circuit == Closed {
        assert states == states[key := s];
        return false;
      }
      if s.circuit == Open {
        if s.openedAt.Some? {
          if now - s.openedAt.value >= cfg.cooldown {
            states := states[key := s.(circuit := HalfOpen)];
            return false;
          }
        }
        assert states == states[key := s];
        return true;
      }
      assert states == states[key := s];
      return false;
    }
  }

  // ---------------------------------------------------------------- whole runs

  function Run(cfg: Config, es: seq<Event>): map<string, KeyState> {
    if es == [] then map[] else Next(cfg, Run(cfg, es[..|es| - 1]), es[|es| - 1])
  }

  function KeyAfter(cfg: Config, es: seq<Event>, key: string): KeyState {
    StateOf(Run(cfg, es), key)
  }

  /** Failures of `key` since its last success. */
  function Streak(es: seq<Event>, key: string): nat {
    if es == [] then 0
    else
      var e := es[|es| - 1];
      var before := Streak(es[..|es| - 1], key);
      if e.key != key then before else if e.action.Success? then 0 else if e.action.Failure? then before + 1 else before
  }

  // ---------------------------------------------------------------- what the counters count

  function Sum(f: Action -> int, es: seq<Event>, key: string): int {
    if es == [] then 0
    else Sum(f, es[..|es| - 1], key) + if es[|es| - 1].key == key then f(es[|es| - 1].action) else 0
  }

  /** A request of the key that ended, well or badly. */
  function Ended(): Action -> int {
    (a: Action) => if a.Success? || a.Failure? then 1 else 0
  }

  function Spent(): Action -> int {
    (a: Action) => if a.Success? && a.tokens > 0 then a.tokens else 0
  }

  function InFlight(): Action -> int {
    (a: Action) => if a.Active? then a.delta else 0
  }

  predicate LastFailure(es: seq<Event>, key: string, i: int)
    requires 0 <= i < |es|
  {
    && es[i].key == key && es[i].action.Failure?
    && forall j :: i < j < |es| ==> !(es[j].key == key && es[j].action.Failure?)
  }

  /** The counters of a key are the sums over its events, and its last error is its last failure. */
  lemma {:induction false} CountersCount(cfg: Config, es: seq<Event>, key: string)
    ensures var s := KeyAfter(cfg, es, key);
            && s.total == Sum(Ended(), es, key) && s.tokens == Sum(Spent(), es, key)
            && s.active == Sum(InFlight(), es, key)
            && (s.lastError.None? <==> forall i :: 0 <= i < |es| ==> !(es[i].key == key && es[i].action.Failure?))
            && (s.lastError.Some? ==>
                exists i :: 0 <= i < |es| && LastFailure(es, key, i) && s.lastError.value == es[i].now)
  {
    if es != [] {
      var before, last := es[..|es| - 1], es[|es| - 1];
      CountersCount(cfg, before, key);
      assert es == before + [last];
      if last.key == key && last.action.Failure? {
        assert LastFailure(es, key, |before|);
      } else if i :| 0 <= i < |before| && LastFailure(before, key, i) {
        assert LastFailure(es, key, i);
      }
    }
  }

  predicate ClockForward(es: seq<Event>) {
    forall i, j :: 0 <= i < j < |es| ==> es[i].now <= es[j].now
  }

  /** Event `i` trips the circuit of `key`. */
  predicate Trips(cfg: Config, es: seq<Event>, key: string, i: int)
    requires 0 <= i < |es|
  {
    KeyAfter(cfg, es[..i], key).circuit != Open && KeyAfter(cfg, es[..i + 1], key).circuit == Open
  }

  predicate Legal(before: Circuit, after: Circuit) {
    before == after || (before.Closed? && after.Open?) || (before.Open? && after.HalfOpen?)
        || (before.HalfOpen? && !after.HalfOpen?)
  }

  lemma RunSnoc(cfg: Config, es: seq<Event>, i: nat, key: string)
    requires i < |es|
    ensures KeyAfter(cfg, es[..i + 1], key)
         == if es[i].key == key then After(cfg, KeyAfter(cfg, es[..i], key), es[i].now, es[i].action)
             else KeyAfter(cfg, es[..i], key)
    ensures Streak(es[..i + 1], key)
         == if es[i].key != key then Streak(es[..i], key) else if es[i].action.Success? then 0
            else if es[i].action.Failure? then Streak(es[..i], key) + 1 else Streak(es[..i], key)
  {
    assert es[..i + 1][..i] == es[..i];
  }

  /**
   Every reachable state: the count is the streak, a closed circuit is below the threshold, an open one knows when it
   opened.
   */
  lemma {:induction false} ReachableInvariant(cfg: Config, es: seq<Event>, i: nat, key: string)
    requires cfg.threshold >= 1 && i <= |es|
    ensures var s := KeyAfter(cfg, es[..i], key);
            && s.errors == Streak(es[..i], key)
            && (s.circuit.Closed? ==> s.errors < cfg.threshold)
            && (s.circuit.Open? ==> s.openedAt.Some?)
  {
    if i > 0 {
      ReachableInvariant(cfg, es, i - 1, key);
      RunSnoc(cfg, es, i - 1, key);
    }
  }

  /**
   * One step of any run: only the four legal changes, each by the action it belongs to. A failed probe reopens the
   * circuit exactly when the streak has reached the threshold, which a success recorded while open may prevent.
   */
  lemma StepLegal(cfg: Config, es: seq<Event>, i: nat, key: string)
    requires cfg.threshold >= 1 && i < |es|
    ensures var before, after := KeyAfter(cfg, es[..i], key).circuit, KeyAfter(cfg, es[..i + 1], key).circuit;
            && Legal(before, after)
            && (Trips(cfg, es, key, i) <==>
                  before != Open && es[i].key == key && es[i].action.Failure?
                      && Streak(es[..i + 1], key) >= cfg.threshold)
            && (before == Open && after == HalfOpen ==> es[i].key == key && es[i].action.Ask?)
            && (before == HalfOpen && after == Closed <==>
                before == HalfOpen && es[i].key == key && es[i].action.Success?)
  {
    RunSnoc(cfg, es, i, key);
    ReachableInvariant(cfg, es, i, key);
  }

  /**
   Once tripped, nothing recorded before the cooldown has passed closes or half-opens the circuit or moves its start.
   */
  lemma {:induction false} StaysOpen(cfg: Config, es: seq<Event>, key: string, i: nat, j: nat)
    requires cfg.threshold >= 1 && i < j <= |es| && Trips(cfg, es, key, i)
    requires forall l :: i < l < j ==> es[l].now - es[i].now < cfg.cooldown
    ensures KeyAfter(cfg, es[..j], key).circuit == Open && KeyAfter(cfg, es[..j], key).openedAt == Some(es[i].now)
    decreases j
  {
    RunSnoc(cfg, es, j - 1, key);
    if j - 1 > i {
      StaysOpen(cfg, es, key, i, j - 1);
    } else {
      StepLegal(cfg, es, i, key);
    }
  }

  /** An open circuit was opened by a trip, at the time it remembers. */
  lemma {:induction false} OpenSince(cfg: Config, es: seq<Event>, key: string, j: nat) returns (i: nat)
    requires cfg.threshold >= 1 && j <= |es| && KeyAfter(cfg, es[..j], key).circuit == Open
    ensures i < j && Trips(cfg, es, key, i) && KeyAfter(cfg, es[..j], key).openedAt == Some(es[i].now)
  {
    assert es[..0] == [];
    RunSnoc(cfg, es, j - 1, key);
    if KeyAfter(cfg, es[..j - 1], key).circuit == Open {
      i := OpenSince(cfg, es, key, j - 1);
    } else {
      i := j - 1;
      StepLegal(cfg, es, i, key);
    }
  }

  /** After any run, `IsCircuitOpen` refuses a key exactly when some failure tripped it less than a cooldown ago. */
  lemma RefusesExactly(cfg: Config, es: seq<Event>, key: string, now: int)
    requires cfg.threshold >= 1 && ClockForward(es) && (forall i :: 0 <= i < |es| ==> es[i].now <= now)
    ensures Refuses(cfg, KeyAfter(cfg, es, key), now)
       <==> exists i :: 0 <= i < |es| && Trips(cfg, es, key, i) && now - es[i].now < cfg.cooldown
  {
    assert es[..|es|] == es;
    if Refuses(cfg, KeyAfter(cfg, es, key), now) {
      var i := OpenSince(cfg, es, key, |es|);
    }
    if i :| 0 <= i < |es| && Trips(cfg, es, key, i) && now - es[i].now < cfg.cooldown {
      StaysOpen(cfg, es, key, i, |es|);
    }
  }

  function Only(es: seq<Event>, key: string): seq<Event> {
    if es == [] then []
    else if es[|es| - 1].key == key then Only(es[..|es| - 1], key) + [es[|es| - 1]]
    else Only(es[..|es| - 1], key)
  }

  /** Keys do not disturb one another: dropping the other keys' events changes nothing for this one. */
  lemma {:induction false} KeysIndependent(cfg: Config, es: seq<Event>, key: string)
    ensures KeyAfter(cfg, es, key) == KeyAfter(cfg, Only(es, key), key)
  {
    if es != [] {
      var before, e := es[..|es| - 1], es[|es| - 1];
      KeysIndependent(cfg, before, key);
      if e.key == key {
        var o := Only(before, key);
        assert (o + [e])[..|o|] == o;
        assert Run(cfg, o + [e]) == Next(cfg, Run(cfg, o), e);
      }
    }
  }

  /** A failed probe need not reopen the circuit: a success recorded while it was open has reset the streak. */
  lemma FailedProbeStaysHalfOpen(cfg: Config, key: string)
    requires cfg.threshold == 2 && cfg.cooldown == 10
    ensures var es := [Event(key, 0, Failure), Event(key, 0, Failure), Event(key, 1, Success(0)), Event(key, 10, Ask),
                       Event(key, 11, Failure)];
            KeyAfter(cfg, es, key).circuit == HalfOpen && !Refuses(cfg, KeyAfter(cfg, es, key), 12)
  {
    var es := [Event(key, 0, Failure), Event(key, 0, Failure), Event(key, 1, Success(0)), Event(key, 10, Ask),
               Event(key, 11, Failure)];
    assert es[..0] == [];
    RunSnoc(cfg, es, 0, key);
    RunSnoc(cfg, es, 1, key);
    RunSnoc(cfg, es, 2, key);
    RunSnoc(cfg, es, 3, key);
    RunSnoc(cfg, es, 4, key);
    assert es[..5] == es;
  }
}
