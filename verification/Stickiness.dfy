/**
 Session-sticky key selection: any number of requests of one session race over one entry of the
 key-value store. Each store call is one atomic step; everything else is local to a request.
 */
module Stickiness {
  import opened Options

  datatype Key = Key(id: string, secret: string)

  /** Where a request stands. */
  datatype Pc =
    | Looking
    | Refreshing(found: Key)
    | Discarding
    | Choosing
    | Claiming(chosen: Key)
    | Rereading(chosen: Key)
    | DiscardingLast(chosen: Key)
    | Done(key: Key)
    | Refused

  datatype State = State(entry: Option<string>, pcs: seq<Pc>)

  /** One step of request `r`; the selector may refuse. The last seven are a lost entry and failing store calls. */
  datatype Event =
    | Look(r: nat)
    | Refresh(r: nat)
    | Discard(r: nat)
    | Choose(r: nat, pick: nat)
    | Refuse(r: nat)
    | Claim(r: nat)
    | Reread(r: nat)
    | DiscardLast(r: nat)
    | Expire
    | LookFails(r: nat)
    | ClaimFails(r: nat)
    | RereadFails(r: nat)
    | RefreshFails(r: nat)
    | DiscardFails(r: nat)
    | DiscardLastFails(r: nat)

  /** The faults that can part the requests of a session; a failing first look, refresh or delete cannot. */
  predicate Fault(e: Event) {
    e.Expire? || e.ClaimFails? || e.RereadFails?
  }

  datatype Lookup = Found(key: Key) | Stale | Absent

  function Find(id: string, keys: seq<Key>): (l: Lookup)
    ensures l.Found? ==> l.key in keys && l.key.id == id
    ensures !l.Absent? && (l.Stale? <==> forall k :: k in keys ==> k.id != id)
  {
    if keys == [] then Stale else if keys[0].id == id then Found(keys[0]) else Find(id, keys[1..])
  }

  /** The stored identifier looked up among the supported keys; a blank one counts as absent. */
  function LookUp(entry: Option<string>, keys: seq<Key>): Lookup {
    if entry.None? || entry.value == "" then Absent else Find(entry.value, keys)
  }

  predicate Enabled(s: State, keys: seq<Key>, e: Event) {
    match e
    case Look(r) => r < |s.pcs| && s.pcs[r].Looking?
    case Refresh(r) => r < |s.pcs| && s.pcs[r].Refreshing?
    case Discard(r) => r < |s.pcs| && s.pcs[r].Discarding?
    case Choose(r, pick) => r < |s.pcs| && s.pcs[r].Choosing? && pick < |keys|
    case Refuse(r) => r < |s.pcs| && s.pcs[r].Choosing?
    case Claim(r) => r < |s.pcs| && s.pcs[r].Claiming?
    case Reread(r) => r < |s.pcs| && s.pcs[r].Rereading?
    case DiscardLast(r) => r < |s.pcs| && s.pcs[r].DiscardingLast?
    case Expire => true
    case LookFails(r) => r < |s.pcs| && s.pcs[r].Looking?
    case ClaimFails(r) => r < |s.pcs| && s.pcs[r].Claiming?
    case RereadFails(r) => r < |s.pcs| && s.pcs[r].Rereading?
    case RefreshFails(r) => r < |s.pcs| && s.pcs[r].Refreshing?
    case DiscardFails(r) => r < |s.pcs| && s.pcs[r].Discarding?
    case DiscardLastFails(r) => r < |s.pcs| && s.pcs[r].DiscardingLast?
  }

  function Step(s: State, keys: seq<Key>, e: Event): State
    requires Enabled(s, keys, e)
  {
    match e
    case Look(r) =>
      (match LookUp(s.entry, keys)
       case Found(k) => s.(pcs := s.pcs[r := Refreshing(k)])
       case Stale => s.(pcs := s.pcs[r := Discarding])
       case Absent => s.(pcs := s.pcs[r := Choosing]))
    case Refresh(r) => State(Some(s.pcs[r].found.id), s.pcs[r := Done(s.pcs[r].found)])
    case Discard(r) => State(None, s.pcs[r := Choosing])
    case Choose(r, pick) => s.(pcs := s.pcs[r := Claiming(keys[pick])])
    case Refuse(r) => s.(pcs := s.pcs[r := Refused])
    case Claim(r) =>
      if s.entry.None? then State(Some(s.pcs[r].chosen.id), s.pcs[r := Done(s.pcs[r].chosen)])
      else s.(pcs := s.pcs[r := Rereading(s.pcs[r].chosen)])
    case Reread(r) =>
      (match LookUp(s.entry, keys)
       case Found(k) => s.(pcs := s.pcs[r := Done(k)])
       case Stale => s.(pcs := s.pcs[r := DiscardingLast(s.pcs[r].chosen)])
       case Absent => s.(pcs := s.pcs[r := Done(s.pcs[r].chosen)]))
    case DiscardLast(r) => State(None, s.pcs[r := Done(s.pcs[r].chosen)])
    case Expire => s.(entry := None)
    case LookFails(r) => s.(pcs := s.pcs[r := Choosing])
    case ClaimFails(r) => s.(pcs := s.pcs[r := Done(s.pcs[r].chosen)])
    case RereadFails(r) => s.(pcs := s.pcs[r := Done(s.pcs[r].chosen)])
    case RefreshFails(r) => s.(pcs := s.pcs[r := Done(s.pcs[r].found)])
    case DiscardFails(r) => s.(pcs := s.pcs[r := Choosing])
    case DiscardLastFails(r) => s.(pcs := s.pcs[r := Done(s.pcs[r].chosen)])
  }

  predicate CanRun(s: State, keys: seq<Key>, es: seq<Event>)
    decreases |es|
  {
    es == [] || (Enabled(s, keys, es[0]) && CanRun(Step(s, keys, es[0]), keys, es[1..]))
  }

  function Run(s: State, keys: seq<Key>, es: seq<Event>): State
    requires CanRun(s, keys, es)
    decreases |es|
  {
    if es == [] then s else Run(Step(s, keys, es[0]), keys, es[1..])
  }

  /** All requests at their first step, over an empty entry or one that names a supported key. */
  ghost predicate Fresh(s: State, keys: seq<Key>) {
    && (forall r :: 0 <= r < |s.pcs| ==> s.pcs[r].Looking?)
    && (s.entry.Some? ==> LookUp(s.entry, keys).Found?)
  }

  // ---------------------------------------------------------------- agreement

  ghost predicate PcAgrees(pc: Pc, entry: Option<string>, keys: seq<Key>) {
    match pc
    case Looking => true
    case Choosing => true
    case Refused => true
    case Refreshing(k) => entry == Some(k.id)
    case Claiming(k) => k in keys
    case Rereading(k) => entry.Some?
    case Done(k) => entry == Some(k.id)
    case Discarding => false
    case DiscardingLast(_) => false
  }

  /** Once an entry exists it names a supported key and every finished request returned it. */
  ghost predicate Agreed(s: State, keys: seq<Key>) {
    && (s.entry.Some? ==> LookUp(s.entry, keys).Found?)
    && forall r :: 0 <= r < |s.pcs| ==> PcAgrees(s.pcs[r], s.entry, keys)
  }

  ghost predicate NamedKeys(keys: seq<Key>) {
    forall k :: k in keys ==> k.id != ""
  }

  lemma AgreedStep(s: State, keys: seq<Key>, e: Event)
    requires Agreed(s, keys) && Enabled(s, keys, e) && !Fault(e) && NamedKeys(keys)
    ensures Agreed(Step(s, keys, e), keys)
    ensures s.entry.Some? ==> Step(s, keys, e).entry == s.entry
  {
    if !e.Expire? {
      assert PcAgrees(s.pcs[e.r], s.entry, keys);
    }
  }

  lemma {:induction false} AgreedRun(s: State, keys: seq<Key>, es: seq<Event>)
    requires Agreed(s, keys) && CanRun(s, keys, es) && (forall e :: e in es ==> !Fault(e)) && NamedKeys(keys)
    ensures Agreed(Run(s, keys, es), keys)
    ensures s.entry.Some? ==> Run(s, keys, es).entry == s.entry
    decreases |es|
  {
    if es != [] {
      AgreedStep(s, keys, es[0]);
      AgreedRun(Step(s, keys, es[0]), keys, es[1..]);
    }
  }

  /**
   Under every interleaving without faults, all finished requests of a session return the same key
   identifier, and it is the stored one.
   */
  lemma SessionAgrees(s: State, keys: seq<Key>, es: seq<Event>, r: nat, q: nat)
    requires Fresh(s, keys) && NamedKeys(keys) && CanRun(s, keys, es) && forall e :: e in es ==> !Fault(e)
    requires r < |Run(s, keys, es).pcs| && q < |Run(s, keys, es).pcs|
    requires Run(s, keys, es).pcs[r].Done? && Run(s, keys, es).pcs[q].Done?
    ensures Run(s, keys, es).pcs[r].key.id == Run(s, keys, es).pcs[q].key.id
    ensures Run(s, keys, es).entry == Some(Run(s, keys, es).pcs[r].key.id)
    ensures s.entry.Some? ==> Run(s, keys, es).entry == s.entry
  {
    AgreedRun(s, keys, es);
    var n := Run(s, keys, es);
    assert PcAgrees(n.pcs[r], n.entry, keys) && PcAgrees(n.pcs[q], n.entry, keys);
  }

  // ---------------------------------------------------------------- a stale entry

  /** A first look or a delete that fails, or a fault: what can leave a stale entry in place. */
  predicate Leaves(e: Event) {
    Fault(e) || e.LookFails? || e.DiscardFails?
  }

  /** Where the only request of a session stands, and what is stored then. */
  ghost predicate Alone(s: State, keys: seq<Key>) {
    && |s.pcs| == 1
    && match s.pcs[0]
       case Looking => s.entry != Some("")
       case Refreshing(k) => s.entry == Some(k.id) && k in keys
       case Discarding => true
       case Choosing => s.entry == None
       case Claiming(k) => s.entry == None && k in keys
       case Done(k) => s.entry == Some(k.id) && k in keys
       case Refused => true
       case Rereading(_) => false
       case DiscardingLast(_) => false
  }

  lemma {:induction false} AloneRun(s: State, keys: seq<Key>, es: seq<Event>)
    requires Alone(s, keys) && CanRun(s, keys, es) && forall e :: e in es ==> !Leaves(e)
    ensures Alone(Run(s, keys, es), keys)
    decreases |es|
  {
    if es != [] {
      assert !Leaves(es[0]);
      assert Alone(Step(s, keys, es[0]), keys);
      AloneRun(Step(s, keys, es[0]), keys, es[1..]);
    }
  }

  /** Over a blank entry the only request never gets to store its key. */
  ghost predicate BlankKept(s: State, keys: seq<Key>) {
    && |s.pcs| == 1 && s.entry == Some("")
    && match s.pcs[0]
       case Claiming(k) => k in keys
       case Rereading(k) => k in keys
       case Done(k) => k in keys
       case Refreshing(_) => false
       case Discarding => false
       case DiscardingLast(_) => false
       case _ => true
  }

  lemma {:induction false} BlankRun(s: State, keys: seq<Key>, es: seq<Event>)
    requires BlankKept(s, keys) && CanRun(s, keys, es) && forall e :: e in es ==> !Leaves(e)
    ensures BlankKept(Run(s, keys, es), keys)
    decreases |es|
  {
    if es != [] {
      assert !Leaves(es[0]);
      assert BlankKept(Step(s, keys, es[0]), keys);
      BlankRun(Step(s, keys, es[0]), keys, es[1..]);
    }
  }

  /**
   A request alone in its session, over whatever entry was left behind, a stale one included: when it is done its key is
   the stored one, exactly unless the entry was blank.
   */
  lemma LoneRequestSettles(entry: Option<string>, keys: seq<Key>, es: seq<Event>)
    requires NamedKeys(keys) && CanRun(State(entry, [Looking]), keys, es) && forall e :: e in es ==> !Leaves(e)
    ensures var n := Run(State(entry, [Looking]), keys, es);
            |n.pcs| == 1 && (n.pcs[0].Done? ==>
                             n.pcs[0].key in keys && (n.entry == Some(n.pcs[0].key.id) <==> entry != Some("")))
  {
    var s := State(entry, [Looking]);
    if entry == Some("") {
      BlankRun(s, keys, es);
    } else {
      AloneRun(s, keys, es);
    }
  }

  /** Where the only request of a session stands when its first look may fail too. */
  ghost predicate Unsettled(s: State, keys: seq<Key>, entry: Option<string>) {
    && |s.pcs| == 1 && entry != Some("")
    && match s.pcs[0]
       case Looking => s.entry == entry
       case Refreshing(k) => s.entry == Some(k.id)
       case Discarding => true
       case Choosing => s.entry == None || s.entry == entry
       case Claiming(_) => s.entry == None || s.entry == entry
       case Rereading(_) => s.entry == entry != None
       case DiscardingLast(_) => LookUp(entry, keys).Stale?
       case Done(k) => s.entry == Some(k.id) || (s.entry == None && LookUp(entry, keys).Stale?)
       case Refused => true
  }

  lemma {:induction false} UnsettledRun(s: State, keys: seq<Key>, es: seq<Event>, entry: Option<string>)
    requires Unsettled(s, keys, entry) && CanRun(s, keys, es)
    requires forall e :: e in es ==> !Fault(e) && !e.DiscardFails? && !e.DiscardLastFails?
    ensures Unsettled(Run(s, keys, es), keys, entry)
    decreases |es|
  {
    if es != [] {
      var e := es[0];
      assert !Fault(e) && !e.DiscardFails? && !e.DiscardLastFails?;
      assert Unsettled(Step(s, keys, e), keys, entry);
      UnsettledRun(Step(s, keys, e), keys, es[1..], entry);
    }
  }

  /**
   Even if its first look fails, a request alone in its session never leaves a stale entry behind: when it is done its
   key is stored, or a stale entry is gone.
   */
  lemma StaleNeverSurvives(entry: Option<string>, keys: seq<Key>, es: seq<Event>)
    requires entry != Some("") && CanRun(State(entry, [Looking]), keys, es)
    requires forall e :: e in es ==> !Fault(e) && !e.DiscardFails? && !e.DiscardLastFails?
    ensures var n := Run(State(entry, [Looking]), keys, es);
            |n.pcs| == 1 && (n.pcs[0].Done? ==>
                             n.entry == Some(n.pcs[0].key.id) || (n.entry == None && LookUp(entry, keys).Stale?))
  {
    UnsettledRun(State(entry, [Looking]), keys, es, entry);
  }

  /** A refresh stores the key it found, whatever happened to the entry since the look. */
  lemma RefreshRestores(s: State, keys: seq<Key>, r: nat)
    requires Enabled(s, keys, Refresh(r))
    ensures var n := Step(s, keys, Refresh(r));
            n.pcs[r] == Done(s.pcs[r].found) && n.entry == Some(s.pcs[r].found.id)
  {
  }

  lemma NamedFound(id: string, keys: seq<Key>)
    requires id != "" && exists k :: k in keys && k.id == id
    ensures LookUp(Some(id), keys).Found?
  {
  }

  /** So later requests of the session, however many race, return that key. */
  lemma LaterRequestsFollow(entry: Option<string>, keys: seq<Key>, es: seq<Event>, pcs: seq<Pc>, more: seq<Event>,
      r: nat)
    requires NamedKeys(keys) && entry != Some("")
    requires CanRun(State(entry, [Looking]), keys, es) && forall e :: e in es ==> !Leaves(e)
    requires var n := Run(State(entry, [Looking]), keys, es); n.pcs != [] && n.pcs[0].Done?
    requires forall q :: 0 <= q < |pcs| ==> pcs[q].Looking?
    requires var s := State(Run(State(entry, [Looking]), keys, es).entry, pcs);
             && CanRun(s, keys, more) && (forall e :: e in more ==> !Fault(e))
             && r < |Run(s, keys, more).pcs| && Run(s, keys, more).pcs[r].Done?
    ensures var n := Run(State(entry, [Looking]), keys, es);
            Run(State(n.entry, pcs), keys, more).pcs[r].key.id == n.pcs[0].key.id
  {
    var n := Run(State(entry, [Looking]), keys, es);
    LoneRequestSettles(entry, keys, es);
    NamedFound(n.pcs[0].key.id, keys);
    SessionAgrees(State(n.entry, pcs), keys, more, r, r);
  }

  // ---------------------------------------------------------------- exactly for which key lists

  /** The promise for one key list: no two finished requests ever disagree. */
  ghost predicate AlwaysAgree(keys: seq<Key>) {
    forall s: State, es: seq<Event>, r: nat, q: nat ::
      Fresh(s, keys) && CanRun(s, keys, es) && (forall e :: e in es ==> !Fault(e)) ==>
        (r < |Run(s, keys, es).pcs| && q < |Run(s, keys, es).pcs| &&
         Run(s, keys, es).pcs[r].Done? && Run(s, keys, es).pcs[q].Done? ==>
           Run(s, keys, es).pcs[r].key.id == Run(s, keys, es).pcs[q].key.id)
  }

  ghost predicate OneId(keys: seq<Key>) {
    forall k, l :: k in keys && l in keys ==> k.id == l.id
  }

  predicate PcSupported(pc: Pc, keys: seq<Key>) {
    match pc
    case Refreshing(k) => k in keys
    case Claiming(k) => k in keys
    case Rereading(k) => k in keys
    case DiscardingLast(k) => k in keys
    case Done(k) => k in keys
    case _ => true
  }

  /** Every key a request holds or returns is supported. */
  ghost predicate Supported(s: State, keys: seq<Key>) {
    forall r :: 0 <= r < |s.pcs| ==> PcSupported(s.pcs[r], keys)
  }

  lemma {:induction false} SupportedRun(s: State, keys: seq<Key>, es: seq<Event>)
    requires Supported(s, keys) && CanRun(s, keys, es)
    ensures Supported(Run(s, keys, es), keys)
    decreases |es|
  {
    if es != [] {
      assert !es[0].Expire? ==> PcSupported(s.pcs[es[0].r], keys);
      SupportedRun(Step(s, keys, es[0]), keys, es[1..]);
    }
  }

  /** Whatever expires, fails or was left behind in the store, a request only ever returns a supported key. */
  lemma AlwaysSupported(s: State, keys: seq<Key>, es: seq<Event>, r: nat)
    requires (forall q :: 0 <= q < |s.pcs| ==> s.pcs[q].Looking?) && CanRun(s, keys, es)
    requires r < |Run(s, keys, es).pcs| && Run(s, keys, es).pcs[r].Done?
    ensures Run(s, keys, es).pcs[r].key in keys
  {
    SupportedRun(s, keys, es);
    assert PcSupported(Run(s, keys, es).pcs[r], keys);
  }

  lemma Advances(s: State, keys: seq<Key>, e: Event, rest: seq<Event>, next: State, last: State)
      returns (es: seq<Event>)
    requires Enabled(s, keys, e) && Step(s, keys, e) == next && CanRun(next, keys, rest)
             && Run(next, keys, rest) == last
    ensures CanRun(s, keys, es) && Run(s, keys, es) == last && es == [e] + rest
  {
    es := [e] + rest;
    assert es[1..] == rest;
  }

  /** Two requests look before anything is stored; the first stores its key, the second has chosen its own. */
  lemma BothChoose(keys: seq<Key>, a: nat, b: nat, rest: seq<Event>, last: State) returns (es: seq<Event>)
    requires a < |keys| && b < |keys|
    requires var s := State(Some(keys[a].id), [Done(keys[a]), Claiming(keys[b])]);
             CanRun(s, keys, rest) && Run(s, keys, rest) == last
    ensures CanRun(State(None, [Looking, Looking]), keys, es) && Run(State(None, [Looking, Looking]), keys, es) == last
    ensures forall e :: e in es && Fault(e) ==> e in rest
  {
    var ka, kb := keys[a], keys[b];
    es := Advances(State(None, [Claiming(ka), Claiming(kb)]), keys, Claim(0), rest,
                   State(Some(ka.id), [Done(ka), Claiming(kb)]), last);
    es := Advances(State(None, [Claiming(ka), Choosing]), keys, Choose(1, b), es,
                   State(None, [Claiming(ka), Claiming(kb)]), last);
    es := Advances(State(None, [Choosing, Choosing]), keys, Choose(0, a), es, State(None, [Claiming(ka), Choosing]),
                   last);
    es := Advances(State(None, [Choosing, Looking]), keys, Look(1), es, State(None, [Choosing, Choosing]), last);
    es := Advances(State(None, [Looking, Looking]), keys, Look(0), es, State(None, [Choosing, Looking]), last);
  }

  /**
   Each of the three faults by itself parts two requests: the first returns key `a`, the second the key `b` it picks.
   */
  lemma FaultsPart(keys: seq<Key>, a: nat, b: nat, fault: Event) returns (es: seq<Event>)
    requires a < |keys| && b < |keys| && NamedKeys(keys) && fault in {Expire, ClaimFails(1), RereadFails(1)}
    ensures var s := State(None, [Looking, Looking]);
            && CanRun(s, keys, es) && (forall e :: e in es && Fault(e) ==> e == fault)
            && Run(s, keys, es).pcs == [Done(keys[a]), Done(keys[b])]
  {
    var ka, kb := keys[a], keys[b];
    var stored := State(Some(ka.id), [Done(ka), Claiming(kb)]);
    var last := State(Some(if fault == Expire then kb.id else ka.id), [Done(ka), Done(kb)]);
    if fault == Expire {
      es := Advances(State(None, [Done(ka), Claiming(kb)]), keys, Claim(1), [], last, last);
      es := Advances(stored, keys, Expire, es, State(None, [Done(ka), Claiming(kb)]), last);
    } else if fault == ClaimFails(1) {
      es := Advances(stored, keys, ClaimFails(1), [], last, last);
    } else {
      es := Advances(State(Some(ka.id), [Done(ka), Rereading(kb)]), keys, RereadFails(1), [], last, last);
      es := Advances(stored, keys, Claim(1), es, State(Some(ka.id), [Done(ka), Rereading(kb)]), last);
    }
    es := BothChoose(keys, a, b, es, last);
  }

  lemma RunsTo(s: State, keys: seq<Key>, e: Event, rest: seq<Event>, next: State, last: State) returns (es: seq<Event>)
    requires Enabled(s, keys, e) && Step(s, keys, e) == next && !Fault(e)
    requires CanRun(next, keys, rest) && Run(next, keys, rest) == last && forall x :: x in rest ==> !Fault(x)
    ensures CanRun(s, keys, es) && Run(s, keys, es) == last && forall x :: x in es ==> !Fault(x)
  {
    es := Advances(s, keys, e, rest, next, last);
  }

  /** After a blank identifier is stored, the second request keeps its own choice. */
  lemma SecondAnswers(keys: seq<Key>, a: nat, b: nat) returns (es: seq<Event>)
    requires a < |keys| && b < |keys| && keys[a].id == ""
    ensures var s := State(Some(""), [Done(keys[a]), Looking]);
            && CanRun(s, keys, es) && (forall e :: e in es ==> !Fault(e))
            && Run(s, keys, es) == State(Some(""), [Done(keys[a]), Done(keys[b])])
  {
    var s3 := State(Some(""), [Done(keys[a]), Looking]);
    var s4 := State(Some(""), [Done(keys[a]), Choosing]);
    var s5 := State(Some(""), [Done(keys[a]), Claiming(keys[b])]);
    var s6 := State(Some(""), [Done(keys[a]), Rereading(keys[b])]);
    var s7 := State(Some(""), [Done(keys[a]), Done(keys[b])]);
    es := RunsTo(s6, keys, Reread(1), [], s7, s7);
    es := RunsTo(s5, keys, Claim(1), es, s6, s7);
    es := RunsTo(s4, keys, Choose(1, b), es, s5, s7);
    es := RunsTo(s3, keys, Look(1), es, s4, s7);
  }

  /** A key without an identifier is stored but never found again: the next request answers for itself. */
  lemma BlankIdDisagrees(keys: seq<Key>, a: nat, b: nat)
    requires a < |keys| && b < |keys| && keys[a].id == "" && keys[b].id != ""
    ensures !AlwaysAgree(keys)
  {
    var s0 := State(None, [Looking, Looking]);
    var s1 := State(None, [Choosing, Looking]);
    var s2 := State(None, [Claiming(keys[a]), Looking]);
    var s3 := State(Some(""), [Done(keys[a]), Looking]);
    var s7 := State(Some(""), [Done(keys[a]), Done(keys[b])]);
    var es := SecondAnswers(keys, a, b);
    es := RunsTo(s2, keys, Claim(0), es, s3, s7);
    es := RunsTo(s1, keys, Choose(0, a), es, s2, s7);
    es := RunsTo(s0, keys, Look(0), es, s1, s7);
    assert Fresh(s0, keys);
    assert Run(s0, keys, es).pcs[0].key.id != Run(s0, keys, es).pcs[1].key.id;
  }

  /** Requests of a session always agree exactly when every key has an identifier, or all share one. */
  lemma AgreementExactly(keys: seq<Key>)
    ensures AlwaysAgree(keys) <==> NamedKeys(keys) || OneId(keys)
  {
    if NamedKeys(keys) || OneId(keys) {
      forall s: State, es: seq<Event>, r: nat, q: nat |
        Fresh(s, keys) && CanRun(s, keys, es) && (forall e :: e in es ==> !Fault(e)) &&
        r < |Run(s, keys, es).pcs| && q < |Run(s, keys, es).pcs| &&
        Run(s, keys, es).pcs[r].Done? && Run(s, keys, es).pcs[q].Done?
        ensures Run(s, keys, es).pcs[r].key.id == Run(s, keys, es).pcs[q].key.id
      {
        if NamedKeys(keys) {
          SessionAgrees(s, keys, es, r, q);
        } else {
          AlwaysSupported(s, keys, es, r);
          AlwaysSupported(s, keys, es, q);
        }
      }
    } else {
      var a :| 0 <= a < |keys| && keys[a].id == "";
      var k, l :| k in keys && l in keys && k.id != l.id;
      var m := if k.id != "" then k else l;
      var b :| 0 <= b < |keys| && keys[b] == m;
      BlankIdDisagrees(keys, a, b);
    }
  }

  // ---------------------------------------------------------------- racing over a stale entry

  function Two(entry: Option<string>, x: Pc, y: Pc, rest: seq<Pc>): State {
    State(entry, [x, y] + rest)
  }

  lemma TwoUpdates(x: Pc, y: Pc, z: Pc, rest: seq<Pc>)
    ensures ([x, y] + rest)[0 := z] == [z, y] + rest && ([x, y] + rest)[1 := z] == [x, z] + rest
    ensures ([x, y] + rest)[0] == x && ([x, y] + rest)[1] == y
  {
  }

  /** A step of a request changes that request alone, and looks at nothing but it and the entry. */
  lemma StepLocal(s: State, t: State, keys: seq<Key>, e: Event)
    requires !e.Expire? && Enabled(s, keys, e) && e.r < |t.pcs| && s.pcs[e.r] == t.pcs[e.r] && s.entry == t.entry
    ensures Enabled(t, keys, e)
    ensures Step(s, keys, e).entry == Step(t, keys, e).entry
    ensures var pc := Step(s, keys, e).pcs[e.r];
            Step(s, keys, e).pcs == s.pcs[e.r := pc] && Step(t, keys, e).pcs == t.pcs[e.r := pc]
  {
  }

  /** A step of one of the first two requests is a step of theirs alone. */
  lemma TwoStep(keys: seq<Key>, e: Event, x: Pc, y: Pc, rest: seq<Pc>, entry: Option<string>)
    requires !e.Expire? && e.r < 2 && Enabled(Two(entry, x, y, []), keys, e)
    ensures Enabled(Two(entry, x, y, rest), keys, e)
    ensures var small, whole := Step(Two(entry, x, y, []), keys, e), Step(Two(entry, x, y, rest), keys, e);
            |small.pcs| == 2 && whole == Two(small.entry, small.pcs[0], small.pcs[1], rest)
  {
    TwoUpdates(x, y, x, rest);
    StepLocal(Two(entry, x, y, []), Two(entry, x, y, rest), keys, e);
    var pc := Step(Two(entry, x, y, []), keys, e).pcs[e.r];
    TwoUpdates(x, y, pc, rest);
  }

  lemma TwoRuns(keys: seq<Key>, e: Event, x: Pc, y: Pc, rest: seq<Pc>, entry: Option<string>, next: State,
      es0: seq<Event>, last: State) returns (es: seq<Event>)
    requires !e.Expire? && !Fault(e) && e.r < 2 && Enabled(Two(entry, x, y, []), keys, e)
    requires var small := Step(Two(entry, x, y, []), keys, e);
             |small.pcs| == 2 && next == Two(small.entry, small.pcs[0], small.pcs[1], rest)
    requires CanRun(next, keys, es0) && Run(next, keys, es0) == last && forall d :: d in es0 ==> !Fault(d)
    ensures CanRun(Two(entry, x, y, rest), keys, es) && Run(Two(entry, x, y, rest), keys, es) == last
    ensures forall d :: d in es ==> !Fault(d)
  {
    TwoStep(keys, e, x, y, rest, entry);
    es := RunsTo(Two(entry, x, y, rest), keys, e, es0, next, last);
  }

  /** Two requests over one stale entry: the second deletes what the first stored, and they return different keys. */
  lemma StaleParts(keys: seq<Key>, a: nat, b: nat, stale: string, rest: seq<Pc>) returns (es: seq<Event>)
    requires a < |keys| && b < |keys| && LookUp(Some(stale), keys).Stale?
    ensures var s := Two(Some(stale), Looking, Looking, rest);
            && CanRun(s, keys, es) && (forall e :: e in es ==> !Fault(e))
            && Run(s, keys, es) == Two(Some(keys[b].id), Done(keys[a]), Done(keys[b]), rest)
  {
    var ka, kb := keys[a], keys[b];
    var last := Two(Some(kb.id), Done(ka), Done(kb), rest);
    es := TwoRuns(keys, Claim(1), Done(ka), Claiming(kb), rest, None, last, [], last);
    es :=
        TwoRuns(keys, Choose(1, b), Done(ka), Choosing, rest, None, Two(None, Done(ka), Claiming(kb), rest), es, last);
    es := TwoRuns(keys, Discard(1), Done(ka), Discarding, rest, Some(ka.id), Two(None, Done(ka), Choosing, rest), es,
                  last);
    es := TwoRuns(keys, Claim(0), Claiming(ka), Discarding, rest, None, Two(Some(ka.id), Done(ka), Discarding, rest),
                  es, last);
    es := TwoRuns(keys, Choose(0, a), Choosing, Discarding, rest, None, Two(None, Claiming(ka), Discarding, rest), es,
                  last);
    es := TwoRuns(keys, Discard(0), Discarding, Discarding, rest, Some(stale), Two(None, Choosing, Discarding, rest),
                  es, last);
    es := TwoRuns(keys, Look(0), Looking, Discarding, rest, Some(stale), Two(Some(stale), Discarding, Discarding, rest),
                  es, last);
    es := TwoRuns(keys, Look(1), Looking, Looking, rest, Some(stale), Two(Some(stale), Looking, Discarding, rest), es,
                  last);
  }

  function Waiting(n: nat): seq<Pc> {
    seq(n, i => Looking)
  }

  ghost predicate StaleRun(keys: seq<Key>, stale: string, n: nat, es: seq<Event>, r: nat, q: nat) {
    var s := State(Some(stale), Waiting(n));
    && CanRun(s, keys, es) && (forall e :: e in es ==> !Fault(e))
    && r < |Run(s, keys, es).pcs| && q < |Run(s, keys, es).pcs|
    && Run(s, keys, es).pcs[r].Done? && Run(s, keys, es).pcs[q].Done?
  }

  /** The finished ones among `n` requests over a stale entry never disagree. */
  ghost predicate StaleAgrees(keys: seq<Key>, stale: string, n: nat) {
    forall es: seq<Event>, r: nat, q: nat :: StaleRun(keys, stale, n, es, r, q) ==>
      var pcs := Run(State(Some(stale), Waiting(n)), keys, es).pcs;
      pcs[r].key.id == pcs[q].key.id
  }

  lemma {:induction false} SameCrowd(s: State, keys: seq<Key>, es: seq<Event>)
    requires CanRun(s, keys, es)
    ensures |Run(s, keys, es).pcs| == |s.pcs|
    decreases |es|
  {
    if es != [] {
      SameCrowd(Step(s, keys, es[0]), keys, es[1..]);
    }
  }

  lemma StalePartsAny(keys: seq<Key>, stale: string, n: nat, a: nat, b: nat)
    requires n >= 2 && LookUp(Some(stale), keys).Stale? && a < |keys| && b < |keys| && keys[a].id != keys[b].id
    ensures !StaleAgrees(keys, stale, n)
  {
    var rest := Waiting(n - 2);
    assert Waiting(n) == [Looking, Looking] + rest;
    var es := StaleParts(keys, a, b, stale, rest);
    var pcs := Two(Some(keys[b].id), Done(keys[a]), Done(keys[b]), rest).pcs;
    assert pcs[0] == Done(keys[a]) && pcs[1] == Done(keys[b]);
    assert StaleRun(keys, stale, n, es, 0, 1);
  }

  /** Requests over one stale entry always agree exactly when there is only one of them, or one key identifier. */
  lemma StaleAgreementExactly(keys: seq<Key>, stale: string, n: nat)
    requires LookUp(Some(stale), keys).Stale?
    ensures StaleAgrees(keys, stale, n) <==> n <= 1 || OneId(keys)
  {
    if n <= 1 || OneId(keys) {
      forall es: seq<Event>, r: nat, q: nat | StaleRun(keys, stale, n, es, r, q)
        ensures var pcs := Run(State(Some(stale), Waiting(n)), keys, es).pcs; pcs[r].key.id == pcs[q].key.id
      {
        SameCrowd(State(Some(stale), Waiting(n)), keys, es);
        AlwaysSupported(State(Some(stale), Waiting(n)), keys, es, r);
        AlwaysSupported(State(Some(stale), Waiting(n)), keys, es, q);
      }
    } else {
      var k, l :| k in keys && l in keys && k.id != l.id;
      var a :| 0 <= a < |keys| && keys[a] == k;
      var b :| 0 <= b < |keys| && keys[b] == l;
      StalePartsAny(keys, stale, n, a, b);
    }
  }

  // ---------------------------------------------------------------- bounded waiting

  function Rank(pc: Pc): nat {
    match pc
    case Looking => 6
    case Discarding => 5
    case Choosing => 4
    case Claiming(_) => 3
    case Rereading(_) => 2
    case DiscardingLast(_) => 1
    case Refreshing(_) => 1
    case Done(_) => 0
    case Refused => 0
  }

  function StepsOf(r: nat, es: seq<Event>): nat {
    if es == [] then 0
    else (if !es[0].Expire? && es[0].r == r then 1 else 0) + StepsOf(r, es[1..])
  }

  /** No interference makes a request retry: it finishes within six steps of its own. */
  lemma {:induction false} FinishesInSix(s: State, keys: seq<Key>, es: seq<Event>, r: nat)
    requires r < |s.pcs| && CanRun(s, keys, es)
    ensures |Run(s, keys, es).pcs| == |s.pcs|
    ensures StepsOf(r, es) + Rank(Run(s, keys, es).pcs[r]) <= Rank(s.pcs[r])
    decreases |es|
  {
    if es != [] {
      FinishesInSix(Step(s, keys, es[0]), keys, es[1..], r);
    }
  }
}
