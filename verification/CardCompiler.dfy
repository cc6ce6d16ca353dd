/** Compiling the builder's cards into the runtime checks of a policy definition. */
module CardCompiler {
  import opened Options
  import opened Dedup
  import opened Strings
  import Trimming

  datatype Config = Config(cardId: string, body: string)

  /** A runtime check; `rest` holds what the fingerprint ignores. */
  datatype Check = Check(name: string, config: Config, action: string, rest: string)

  datatype Item = Entry(check: Check) | Name(text: string) | Scalar(json: string)

  datatype RawCard = Record(id: string, enabled: bool, settings: string) | NotARecord

  datatype Value = List(items: seq<Item>) | Builder(cards: seq<RawCard>) | Opaque(json: string)

  /**
   * The keys of a definition: `_deepintshield_builder`, `blocked_domains`, `allowed_action_classes`,
   * `approval_action_classes`, `denied_action_classes`, `input_guardrails`, `output_guardrails`, and any other.
   */
  datatype Key =
    BuilderKey | BlockedKey | AllowedKey | ApprovalKey | DeniedKey | InputKey | OutputKey | OtherKey(name: string)

  type Definition = map<Key, Value>

  datatype Card = Card(id: string, enabled: bool, settings: string)

  datatype Emission = Emission(checks: seq<Check>, blocked: seq<string>, allowed: seq<string>, denied: seq<string>)

  /** The emitters, the scope table, the JSON text of a configuration and sorting. */
  datatype Env = Env(emit: (Card, string) -> Emission, supports: (string, string) -> bool, json: Config -> string,
      sort: set<string> -> seq<string>)

  /** Every emitter stamps its checks with the identifier of the card. */
  ghost predicate Stamped(env: Env) {
    forall card: Card, scope: string, i: nat :: i < |env.emit(card, scope).checks| ==>
           env.emit(card, scope).checks[i].config.cardId == card.id
  }

  // ---------------------------------------------------------------- fingerprints

  function Fingerprint(env: Env, c: Check): string {
    Normal(c.name) + "::" + env.json(c.config) + "::" + c.action
  }

  function PrintOf(env: Env): Check -> string {
    (c: Check) => Fingerprint(env, c)
  }

  /** A check without a card identifier was written by hand. */
  function ByHand(): Check -> bool {
    (c: Check) => Trim(c.config.cardId) == ""
  }

  // ---------------------------------------------------------------- what a compilation reads

  function StageKey(scope: string): Key {
    if Normal(scope) == "output" then OutputKey else InputKey
  }

  function Entries(items: seq<Item>): seq<Check> {
    if items == [] then []
    else Entries(items[..|items| - 1]) + if items[|items| - 1].Entry? then [items[|items| - 1].check] else []
  }

  function ChecksAt(d: Definition, key: Key): seq<Check> {
    if key in d && d[key].List? then Entries(d[key].items) else []
  }

  function ParseCards(raw: seq<RawCard>): seq<Card> {
    if raw == [] then []
    else
      var r := raw[|raw| - 1];
      ParseCards(raw[..|raw| - 1])
          + if r.Record? && Trim(r.id) != "" then [Card(Trim(r.id), r.enabled, r.settings)] else []
  }

  function SelectedCards(d: Definition): seq<Card> {
    if BuilderKey in d && d[BuilderKey].Builder? then ParseCards(d[BuilderKey].cards) else []
  }

  predicate Live(env: Env, c: Card, scope: string) {
    c.enabled && env.supports(c.id, Normal(scope))
  }

  function Names(values: seq<string>): set<string> {
    if values == [] then {}
    else Names(values[..|values| - 1]) + if Trim(values[|values| - 1]) == "" then {} else {Trim(values[|values| - 1])}
  }

  /** What a list of cards contributes. */
  datatype Share = Share(checks: seq<Check>, blocked: set<string>, allowed: set<string>, denied: set<string>)

  function Plus(a: Share, e: Emission): Share {
    Share(a.checks + e.checks, a.blocked + Names(e.blocked), a.allowed + Names(e.allowed), a.denied + Names(e.denied))
  }

  /** Everything the live cards emit, card by card. */
  function Emitted(env: Env, cards: seq<Card>, scope: string): Share {
    if cards == [] then Share([], {}, {}, {})
    else
      var before, last := Emitted(env, cards[..|cards| - 1], scope), cards[|cards| - 1];
      if Live(env, last, scope) then Plus(before, env.emit(last, scope)) else before
  }

  function AsItems(cs: seq<Check>): seq<Item> {
    seq(|cs|, i requires 0 <= i < |cs| => Entry(cs[i]))
  }

  function AsNames(names: seq<string>): seq<Item> {
    seq(|names|, i requires 0 <= i < |names| => Name(names[i]))
  }

  // ---------------------------------------------------------------- the result, key by key

  function At(d: Definition, key: Key): Option<Value> {
    if key in d then Some(d[key]) else None
  }

  function CompiledChecks(env: Env, d: Definition, scope: string): seq<Check> {
    First(PrintOf(env), Keep(ByHand(), ChecksAt(d, StageKey(scope))) + Emitted(env, SelectedCards(d), scope).checks)
  }

  function NamesValue(env: Env, names: set<string>): Option<Value> {
    if names == {} then None else Some(List(AsNames(env.sort(names))))
  }

  function WrittenAt(env: Env, d: Definition, stage: Key, checks: seq<Check>, blocked: set<string>,
      allowed: set<string>, denied: set<string>, key: Key): Option<Value> {
    if key == stage then (if checks == [] then None else Some(List(AsItems(checks))))
    else if key == BlockedKey then NamesValue(env, blocked)
    else if key == AllowedKey then NamesValue(env, allowed)
    else if key == DeniedKey then NamesValue(env, denied)
    else if key == ApprovalKey then None
    else At(d, key)
  }

  /** What the compiled definition holds under a key. */
  function CompiledAt(env: Env, d: Definition, scope: string, key: Key): Option<Value> {
    var e := Emitted(env, SelectedCards(d), scope);
    if SelectedCards(d) == [] then At(d, key)
    else WrittenAt(env, d, StageKey(scope), CompiledChecks(env, d, scope), e.blocked, e.allowed, e.denied, key)
  }

  ghost predicate CompilesTo(env: Env, d: Definition, scope: string, r: Definition) {
    forall key :: At(r, key) == CompiledAt(env, d, scope, key)
  }

  // ---------------------------------------------------------------- the compiler

  method AddNames(names0: set<string>, values: seq<string>) returns (names: set<string>)
    ensures names == names0 + Names(values)
  {
    names := names0;
    for i := 0 to |values|
      invariant names == names0 + Names(values[..i])
    {
      assert values[..i + 1][..i] == values[..i];
      var trimmed := Trim(values[i]);
      if trimmed == "" {
        continue;
      }
      names := names + {trimmed};
    }
    assert values[..|values|] == values;
  }

  lemma EntriesNext(h: Check -> bool, items: seq<Item>, i: nat)
    requires i < |items|
    ensures Keep(h, Entries(items[..i + 1]))
         == Keep(h, Entries(items[..i])) + if items[i].Entry? && h(items[i].check) then [items[i].check] else []
  {
    assert items[..i + 1][..i] == items[..i];
    KeepAppend(h, Entries(items[..i]), if items[i].Entry? then [items[i].check] else []);
  }

  method ExistingChecks(d: Definition, key: Key) returns (cs: seq<Check>)
    ensures cs == Keep(ByHand(), ChecksAt(d, key))
  {
    cs := [];
    if key !in d || !d[key].List? {
      return;
    }
    var items := d[key].items;
    for i := 0 to |items|
      invariant cs == Keep(ByHand(), Entries(items[..i]))
    {
      EntriesNext(ByHand(), items, i);
      if !items[i].Entry? || !ByHand()(items[i].check) {
        continue;
      }
      cs := cs + [items[i].check];
    }
    assert items[..|items|] == items;
  }

  ghost predicate Gathered(f: Check -> string, existing: seq<Check>, share: Share, seen: set<string>,
      next: seq<Check>) {
    && seen == Keys(f, existing) + Keys(f, share.checks)
    && next == First(f, existing) + Fresh(f, Keys(f, existing), share.checks)
  }

  lemma {:induction false} EmittedNext(env: Env, cards: seq<Card>, scope: string, i: nat)
    requires i < |cards|
    ensures Emitted(env, cards[..i + 1], scope)
         == if Live(env, cards[i], scope) then Plus(Emitted(env, cards[..i], scope), env.emit(cards[i], scope))
             else Emitted(env, cards[..i], scope)
  {
    assert cards[..i + 1][..i] == cards[..i];
  }

  method AddChecks(f: Check -> string, ghost existing: seq<Check>, ghost share: Share, emitted: Emission,
      seen0: set<string>, next0: seq<Check>)
    returns (seen: set<string>, next: seq<Check>)
    requires Gathered(f, existing, share, seen0, next0)
    ensures Gathered(f, existing, Plus(share, emitted), seen, next)
  {
    seen, next := AppendFresh(f, emitted.checks, seen0, next0);
    FreshAppend(f, Keys(f, existing), share.checks, emitted.checks);
    Associate(First(f, existing), Fresh(f, Keys(f, existing), share.checks), Fresh(f, seen0, emitted.checks));
  }

  lemma GatheredAll(f: Check -> string, existing: seq<Check>, share: Share, seen: set<string>, next: seq<Check>)
    requires Gathered(f, existing, share, seen, next)
    ensures next == First(f, existing + share.checks)
  {
    FreshAppend(f, {}, existing, share.checks);
    assert {} + Keys(f, existing) == Keys(f, existing);
  }

  /** The checks and name sets the definition will get. */
  method Collect(env: Env, cards: seq<Card>, scope: string, existing: seq<Check>)
    returns (next: seq<Check>, blocked: set<string>, allowed: set<string>, denied: set<string>)
    ensures var e := Emitted(env, cards, scope);
            && next == First(PrintOf(env), existing + e.checks)
            && blocked == e.blocked && allowed == e.allowed && denied == e.denied
  {
    var f := PrintOf(env);
    var seen;
    seen, next := AppendFresh(f, existing, {}, []);
    blocked, allowed, denied := {}, {}, {};
    for i := 0 to |cards|
      invariant Gathered(f, existing, Emitted(env, cards[..i], scope), seen, next)
      invariant Share([], blocked, allowed, denied) == Emitted(env, cards[..i], scope).(checks := [])
    {
      EmittedNext(env, cards, scope, i);
      if !Live(env, cards[i], scope) {
        continue;
      }
      seen, next := AddChecks(f, existing, Emitted(env, cards[..i], scope), env.emit(cards[i], scope), seen, next);
      blocked := AddNames(blocked, env.emit(cards[i], scope).blocked);
      allowed := AddNames(allowed, env.emit(cards[i], scope).allowed);
      denied := AddNames(denied, env.emit(cards[i], scope).denied);
    }
    assert cards[..|cards|] == cards;
    GatheredAll(f, existing, Emitted(env, cards, scope), seen, next);
  }

  method WriteBack(env: Env, d: Definition, stage: Key, next: seq<Check>, blocked: set<string>, allowed: set<string>,
      denied: set<string>)
    returns (r: Definition)
    requires stage !in {BlockedKey, AllowedKey, ApprovalKey, DeniedKey}
    ensures forall key :: At(r, key) == WrittenAt(env, d, stage, next, blocked, allowed, denied, key)
  {
    r := d - {BlockedKey, AllowedKey, ApprovalKey, DeniedKey};
    if |next| > 0 {
      r := r[stage := List(AsItems(next))];
    } else {
      r := r - {stage};
    }
    if blocked != {} {
      r := r[BlockedKey := List(AsNames(env.sort(blocked)))];
    }
    if allowed != {} {
      r := r[AllowedKey := List(AsNames(env.sort(allowed)))];
    }
    if denied != {} {
      r := r[DeniedKey := List(AsNames(env.sort(denied)))];
    }
  }

  method CompileDefinition(env: Env, d: Definition, scope: string) returns (r: Definition)
    ensures CompilesTo(env, d, scope, r)
  {
    var cards := SelectedCards(d);
    if |d| == 0 || |cards| == 0 {
      return d;
    }
    var existing := ExistingChecks(d, StageKey(scope));
    var next, blocked, allowed, denied := Collect(env, cards, scope, existing);
    r := WriteBack(env, d, StageKey(scope), next, blocked, allowed, denied);
  }

  // ---------------------------------------------------------------- what a compilation depends on

  /** The names a card may contribute: trimmed, blank ones left out. */
  lemma {:induction false} NamesAre(values: seq<string>, name: string)
    ensures name in Names(values) <==> name != "" && exists v :: v in values && Trim(v) == name
  {
    if values != [] {
      var before, last := values[..|values| - 1], values[|values| - 1];
      NamesAre(before, name);
      assert values == before + [last];
    }
  }

  lemma {:induction false} ParseAppend(a: seq<RawCard>, b: seq<RawCard>)
    ensures ParseCards(a + b) == ParseCards(a) + ParseCards(b)
    decreases |b|
  {
    if b == [] {
      assert a + b == a;
    } else {
      ParseAppend(a, b[..|b| - 1]);
      assert (a + b)[..|a + b| - 1] == a + b[..|b| - 1];
    }
  }

  lemma {:induction false} EmittedWithout(env: Env, a: seq<Card>, x: Card, b: seq<Card>, scope: string)
    requires !x.enabled || !env.supports(x.id, Normal(scope))
    ensures Emitted(env, a + [x] + b, scope) == Emitted(env, a + b, scope)
    decreases |b|
  {
    if b == [] {
      assert a + [x] + b == a + [x] && a + b == a && (a + [x])[..|a|] == a;
    } else {
      EmittedWithout(env, a, x, b[..|b| - 1], scope);
      assert (a + [x] + b)[..|a + [x] + b| - 1] == a + [x] + b[..|b| - 1];
      assert (a + b)[..|a + b| - 1] == a + b[..|b| - 1];
    }
  }

  /** A card record that is no card: not a record, or without an identifier. */
  predicate Nameless(x: RawCard) {
    x.NotARecord? || Trim(x.id) == ""
  }

  /** A card that is switched off, or whose card the scope does not support. */
  predicate Idle(env: Env, x: RawCard, scope: string) {
    x.Record? && (!x.enabled || !env.supports(Trim(x.id), Normal(scope)))
  }

  lemma ParseAlone(x: RawCard)
    ensures ParseCards([x]) == if Nameless(x) then [] else [Card(Trim(x.id), x.enabled, x.settings)]
  {
    assert [x][..0] == [];
  }

  lemma ParseOne(a: seq<RawCard>, x: RawCard, b: seq<RawCard>)
    ensures ParseCards(a + [x] + b)
         == if Nameless(x) then ParseCards(a + b)
             else ParseCards(a) + [Card(Trim(x.id), x.enabled, x.settings)] + ParseCards(b)
  {
    ParseAlone(x);
    ParseAppend(a, b);
    ParseAppend(a, [x]);
    ParseAppend(a + [x], b);
  }

  function WithCards(d: Definition, raw: seq<RawCard>): Definition {
    d[BuilderKey := Builder(raw)]
  }

  lemma CardsOf(d: Definition, raw: seq<RawCard>, key: Key)
    ensures SelectedCards(WithCards(d, raw)) == ParseCards(raw)
    ensures key != BuilderKey ==>
            At(WithCards(d, raw), key) == At(d, key) && ChecksAt(WithCards(d, raw), key) == ChecksAt(d, key)
  {
  }

  /** Cards that emit the same compile to the same. */
  lemma SameShareCompiles(env: Env, d: Definition, raw: seq<RawCard>, raw': seq<RawCard>, scope: string, key: Key)
    requires Emitted(env, ParseCards(raw), scope) == Emitted(env, ParseCards(raw'), scope)
    requires ParseCards(raw) != [] && ParseCards(raw') != [] && key != BuilderKey
    ensures CompiledAt(env, WithCards(d, raw), scope, key) == CompiledAt(env, WithCards(d, raw'), scope, key)
  {
    CardsOf(d, raw, StageKey(scope));
    CardsOf(d, raw', StageKey(scope));
    CardsOf(d, raw, key);
    CardsOf(d, raw', key);
  }

  lemma IdleEmits(env: Env, a: seq<RawCard>, x: RawCard, b: seq<RawCard>, scope: string)
    requires Nameless(x) || Idle(env, x, scope)
    ensures Emitted(env, ParseCards(a + [x] + b), scope) == Emitted(env, ParseCards(a + b), scope)
    ensures ParseCards(a + b) != [] ==> ParseCards(a + [x] + b) != []
  {
    ParseOne(a, x, b);
    ParseAppend(a, b);
    if !Nameless(x) {
      EmittedWithout(env, ParseCards(a), Card(Trim(x.id), x.enabled, x.settings), ParseCards(b), scope);
    }
  }

  /** A builder card that is nameless, off or not for the scope changes nothing, as long as another card is selected. */
  lemma IdleCardIgnored(env: Env, d: Definition, a: seq<RawCard>, x: RawCard, b: seq<RawCard>, scope: string, key: Key)
    requires key != BuilderKey && (Nameless(x) || Idle(env, x, scope)) && ParseCards(a + b) != []
    ensures CompiledAt(env, WithCards(d, a + [x] + b), scope, key) == CompiledAt(env, WithCards(d, a + b), scope, key)
  {
    IdleEmits(env, a, x, b, scope);
    SameShareCompiles(env, d, a + [x] + b, a + b, scope, key);
  }

  lemma EmittedAlone(env: Env, x: Card, scope: string)
    requires !x.enabled || !env.supports(x.id, Normal(scope))
    ensures Emitted(env, [x], scope) == Share([], {}, {}, {})
  {
    assert [x][..0] == [];
  }

  /** As the only card it still clears the name lists, which a definition without cards keeps. */
  lemma OnlyIdleClears(env: Env, d: Definition, x: RawCard, scope: string, key: Key)
    requires Idle(env, x, scope) && !Nameless(x) && key in {BlockedKey, AllowedKey, ApprovalKey, DeniedKey}
    ensures CompiledAt(env, WithCards(d, [x]), scope, key) == None
            && CompiledAt(env, WithCards(d, []), scope, key) == At(d, key)
  {
    ParseAlone(x);
    EmittedAlone(env, Card(Trim(x.id), x.enabled, x.settings), scope);
    CardsOf(d, [x], key);
    CardsOf(d, [], key);
  }

  /**
   A compilation writes the checks of its own stage only: the output checks for the output scope, else the input ones.
   */
  lemma OtherStageKept(env: Env, d: Definition, scope: string, r: Definition)
    requires CompilesTo(env, d, scope, r)
    ensures if Normal(scope) == "output" then At(r, InputKey) == At(d, InputKey)
            else At(r, OutputKey) == At(d, OutputKey)
  {
    assert At(r, InputKey) == CompiledAt(env, d, scope, InputKey);
    assert At(r, OutputKey) == CompiledAt(env, d, scope, OutputKey);
  }

  /** Two checks are duplicates whatever their further fields, and however their names are cased and padded. */
  lemma PrintIgnores(env: Env, c: Check, name: string, rest: string)
    requires Normal(name) == Normal(c.name)
    ensures PrintOf(env)(c.(name := name, rest := rest)) == PrintOf(env)(c)
  {
  }

  /**
   Checks whose names hold no colon are duplicates of each other only if the names agree, and with one action only if
   the configurations do.
   */
  lemma PrintTells(env: Env, c: Check, k: Check)
    requires PrintOf(env)(c) == PrintOf(env)(k) && ':' !in Normal(c.name) && ':' !in Normal(k.name)
    ensures Normal(c.name) == Normal(k.name) && (c.action == k.action ==> env.json(c.config) == env.json(k.config))
  {
    var m, n := Normal(c.name), Normal(k.name);
    var a, b := env.json(c.config) + "::" + c.action, env.json(k.config) + "::" + k.action;
    assert PrintOf(env)(c) == m + ":" + (":" + a) && PrintOf(env)(k) == n + ":" + (":" + b);
    FirstColonSplits(m, ":" + a, n, ":" + b);
    assert a == (":" + a)[1..] == (":" + b)[1..] == b;
    if c.action == k.action {
      assert a == env.json(c.config) + ("::" + c.action) && b == env.json(k.config) + ("::" + c.action);
      SuffixCancels(env.json(c.config), env.json(k.config), "::" + c.action);
    }
  }

  // ---------------------------------------------------------------- compiling again

  lemma {:induction false} EntriesOfItems(cs: seq<Check>)
    ensures Entries(AsItems(cs)) == cs
  {
    if cs != [] {
      EntriesOfItems(cs[..|cs| - 1]);
      assert AsItems(cs)[..|cs| - 1] == AsItems(cs[..|cs| - 1]);
    }
  }

  lemma {:induction false} EmittedStamped(env: Env, cards: seq<Card>, scope: string)
    requires Stamped(env) && forall i :: 0 <= i < |cards| ==> Trim(cards[i].id) != ""
    ensures Nowhere(ByHand(), Emitted(env, cards, scope).checks)
  {
    if cards != [] {
      EmittedStamped(env, cards[..|cards| - 1], scope);
    }
  }

  lemma {:induction false} ParsedNamed(raw: seq<RawCard>)
    ensures forall i :: 0 <= i < |ParseCards(raw)| ==> Trim(ParseCards(raw)[i].id) != ""
  {
    if raw != [] {
      ParsedNamed(raw[..|raw| - 1]);
      if raw[|raw| - 1].Record? {
        TrimTwice(raw[|raw| - 1].id);
      }
    }
  }

  /** The hand-written checks of the result are those of the source, in order, each fingerprint once. */
  lemma HandWrittenSurvive(env: Env, d: Definition, scope: string, r: Definition)
    requires Stamped(env) && CompilesTo(env, d, scope, r) && SelectedCards(d) != []
    ensures ChecksAt(r, StageKey(scope)) == CompiledChecks(env, d, scope)
    ensures Keep(ByHand(), ChecksAt(r, StageKey(scope))) ==
            First(PrintOf(env), Keep(ByHand(), ChecksAt(d, StageKey(scope))))
  {
    var key := StageKey(scope);
    var cs := CompiledChecks(env, d, scope);
    assert At(r, key) == CompiledAt(env, d, scope, key);
    EntriesOfItems(cs);
    assert ChecksAt(r, key) == cs;
    var hand := Keep(ByHand(), ChecksAt(d, key));
    KeepAll(ByHand(), ChecksAt(d, key));
    ParsedNamed(d[BuilderKey].cards);
    EmittedStamped(env, SelectedCards(d), scope);
    KeepOfFirst(PrintOf(env), ByHand(), hand, Emitted(env, SelectedCards(d), scope).checks);
  }

  lemma ByHandIs(c: Check)
    ensures ByHand()(c) <==> Trimming.AllBlank(IsBlank, c.config.cardId)
  {
    Trimming.TrimsAway(IsBlank, c.config.cardId);
  }

  /** A check of the source without a card identifier has its like among those of the result. */
  lemma HandWrittenKept(env: Env, d: Definition, scope: string, r: Definition, c: Check) returns (like: Check)
    requires Stamped(env) && CompilesTo(env, d, scope, r) && SelectedCards(d) != []
    requires c in ChecksAt(d, StageKey(scope)) && Trimming.AllBlank(IsBlank, c.config.cardId)
    ensures like in ChecksAt(r, StageKey(scope)) && Fingerprint(env, like) == Fingerprint(env, c)
    ensures Trimming.AllBlank(IsBlank, like.config.cardId)
  {
    ByHandIs(c);
    var source := ChecksAt(d, StageKey(scope));
    KeepHas(ByHand(), source, c);
    like := FirstStands(PrintOf(env), Keep(ByHand(), source), c);
    HandWrittenSurvive(env, d, scope, r);
    KeepHas(ByHand(), ChecksAt(r, StageKey(scope)), like);
    ByHandIs(like);
  }

  /** A check of the result that names a card is one a live card emits now: what cards left behind earlier is gone. */
  lemma CardChecksRenewed(env: Env, d: Definition, scope: string, r: Definition, c: Check)
    requires Stamped(env) && CompilesTo(env, d, scope, r) && SelectedCards(d) != []
    requires c in ChecksAt(r, StageKey(scope)) && !Trimming.AllBlank(IsBlank, c.config.cardId)
    ensures c in Emitted(env, SelectedCards(d), scope).checks
  {
    var source := ChecksAt(d, StageKey(scope));
    HandWrittenSurvive(env, d, scope, r);
    FreshFrom(PrintOf(env), {}, Keep(ByHand(), source) + Emitted(env, SelectedCards(d), scope).checks, c);
    KeepHas(ByHand(), source, c);
    ByHandIs(c);
  }

  lemma CardsKept(env: Env, d: Definition, scope: string, r: Definition)
    requires CompilesTo(env, d, scope, r)
    ensures SelectedCards(r) == SelectedCards(d)
  {
    assert At(r, BuilderKey) == CompiledAt(env, d, scope, BuilderKey);
    assert At(r, BuilderKey) == At(d, BuilderKey);
  }

  lemma RecompiledChecks(env: Env, d: Definition, s1: string, s2: string, r1: Definition)
    requires Stamped(env) && CompilesTo(env, d, s1, r1) && SelectedCards(d) != []
    ensures CompiledChecks(env, r1, s2) == CompiledChecks(env, d, s2)
  {
    var key := StageKey(s2);
    CardsKept(env, d, s1, r1);
    if key == StageKey(s1) {
      HandWrittenSurvive(env, d, s1, r1);
      FirstAbsorbs(PrintOf(env), Keep(ByHand(), ChecksAt(d, key)), Emitted(env, SelectedCards(d), s2).checks);
    } else {
      assert At(r1, key) == CompiledAt(env, d, s1, key);
      assert At(r1, key) == At(d, key);
    }
  }

  /** What the second compilation makes of the first one's result, away from its own stage key. */
  lemma RecompiledOther(env: Env, d: Definition, s1: string, s2: string, r1: Definition, key: Key)
    requires Stamped(env) && CompilesTo(env, d, s1, r1) && key != StageKey(s2) && SelectedCards(d) != []
    ensures CompiledAt(env, r1, s2, key) == if key == StageKey(s1) then At(r1, key) else CompiledAt(env, d, s2, key)
  {
    CardsKept(env, d, s1, r1);
    assert At(r1, key) == CompiledAt(env, d, s1, key);
  }

  /**
   * Compiling for one scope and then another: under the first scope's stage key, when it differs, the first compilation
   * stands; under every other key the result is what compiling the source for the second scope gives.
   */
  lemma CompileTwice(env: Env, d: Definition, s1: string, s2: string, r1: Definition, r12: Definition, r2: Definition,
      key: Key)
    requires Stamped(env) && CompilesTo(env, d, s1, r1) && CompilesTo(env, r1, s2, r12) && CompilesTo(env, d, s2, r2)
    ensures At(r12, key) == if key == StageKey(s1) != StageKey(s2) then At(r1, key) else At(r2, key)
  {
    assert At(r2, key) == CompiledAt(env, d, s2, key);
    assert At(r12, key) == CompiledAt(env, r1, s2, key);
    CardsKept(env, d, s1, r1);
    if SelectedCards(d) == [] {
      assert At(r1, key) == CompiledAt(env, d, s1, key);
    } else if key == StageKey(s2) {
      RecompiledChecks(env, d, s1, s2, r1);
    } else {
      RecompiledOther(env, d, s1, s2, r1, key);
    }
  }

  lemma SameEverywhere(a: Definition, b: Definition)
    requires forall key :: At(a, key) == At(b, key)
    ensures a == b
  {
    forall key
      ensures key in a <==> key in b
      ensures key in a && key in b ==> a[key] == b[key]
    {
      assert At(a, key) == At(b, key);
    }
  }

  /**
   With one stage key the later compilation absorbs the earlier one; in particular compiling twice is compiling once.
   */
  lemma Absorbs(env: Env, d: Definition, s1: string, s2: string, r1: Definition, r12: Definition, r2: Definition)
    requires Stamped(env) && CompilesTo(env, d, s1, r1) && CompilesTo(env, r1, s2, r12) && CompilesTo(env, d, s2, r2)
    requires StageKey(s1) == StageKey(s2)
    ensures r12 == r2
  {
    forall key
      ensures At(r12, key) == At(r2, key)
    {
      CompileTwice(env, d, s1, s2, r1, r12, r2, key);
    }
    SameEverywhere(r12, r2);
  }

  /** Compiling for the output stage and for the input stage commutes on the checks, and the last one sets the lists. */
  lemma StagesCommute(env: Env, d: Definition, s1: string, s2: string, r1: Definition, r12: Definition,
      r2: Definition, r21: Definition, key: Key)
    requires Stamped(env) && CompilesTo(env, d, s1, r1) && CompilesTo(env, r1, s2, r12) && CompilesTo(env, d, s2, r2)
             && CompilesTo(env, r2, s1, r21)
    requires StageKey(s1) != StageKey(s2) && key !in {BlockedKey, AllowedKey, DeniedKey}
    ensures At(r12, key) == At(r21, key)
  {
    CompileTwice(env, d, s1, s2, r1, r12, r2, key);
    CompileTwice(env, d, s2, s1, r2, r21, r1, key);
    assert At(r1, key) == CompiledAt(env, d, s1, key);
    assert At(r2, key) == CompiledAt(env, d, s2, key);
  }
}
