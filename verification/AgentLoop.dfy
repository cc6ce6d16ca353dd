/**
 The agent loop over the chat interface: execute what may run unattended, ask the model again, stop within the depth
 bound.
 */
module AgentLoop {
  import opened Options
  import opened Counting
  import opened ToolDispatch

  datatype Message = Message(role: string, content: string, calls: seq<Call>, callId: Option<string>)

  datatype Choice = Choice(finish: Option<string>, message: Option<Message>)

  datatype Response = Response(choices: seq<Choice>)

  datatype Client = Client(name: string, toolsToExecute: Option<seq<string>>, toolsToAutoExecute: Option<seq<string>>)

  /** A call found in the code of an `executeToolCode` request. */
  datatype CodeCall = CodeCall(server: string, tool: string)

  datatype ToolOutcome = Delivered(message: Message) | Silent | Broken(error: string)

  datatype Answer = Answer(response: Response) | Refused(error: string)

  /**
   * The surroundings of one run. `codeCalls` is `None` when the arguments or the code do not parse. Tools and model may
   * answer differently each time: `tool` takes the round and the position in the batch, `llm` the number of requests
   * made before. `arrival` gives the order in which the results of a round come out of the channel.
   */
  datatype Env = Env(
    clientFor: string -> Option<Client>, clientNames: seq<string>, allowed: map<string, seq<string>>,
    codeCalls: Call -> Option<seq<CodeCall>>, cfg: Config, tool: (nat, nat, Call) -> ToolOutcome,
    arrival: (nat, nat, nat) -> seq<nat>, llm: (nat, seq<Message>) -> Answer)

  /** The schedule `es` of the batch ends with the results in this order in the closed channel. */
  ghost predicate Closes(p: nat, q: nat, es: seq<Event>, order: seq<nat>) {
    CanRun(StartBatch(p, q), p + q, es) && Run(StartBatch(p, q), p + q, es).closed
        && Run(StartBatch(p, q), p + q, es).buf == order
  }

  ghost predicate Arrives(p: nat, q: nat, order: seq<nat>) {
    exists es :: Closes(p, q, es, order)
  }

  ghost predicate Scheduled(env: Env) {
    forall r: nat, p: nat, q: nat :: Arrives(p, q, env.arrival(r, p, q))
  }

  /** Such surroundings exist: every batch has a schedule that ends. */
  lemma SomeArrival(p: nat, q: nat) returns (order: seq<nat>)
    ensures Arrives(p, q, order)
  {
    var es := Completes(StartBatch(p, q));
    order := Run(StartBatch(p, q), p + q, es).buf;
    assert Closes(p, q, es, order);
  }

  // ---------------------------------------------------------------- responses

  function Messages(choices: seq<Choice>): seq<Message> {
    if choices == [] then []
    else
      Messages(choices[..|choices| - 1])
      + if choices[|choices| - 1].message.Some? then [choices[|choices| - 1].message.value] else []
  }

  function CallsIn(ms: seq<Message>): seq<Call> {
    if ms == [] then [] else CallsIn(ms[..|ms| - 1]) + ms[|ms| - 1].calls
  }

  predicate HasToolCalls(resp: Response) {
    exists i :: 0 <= i < |resp.choices| &&
      var c := resp.choices[i];
      c.finish == Some("tool_calls") || (c.message.Some? && c.message.value.calls != [])
  }

  /** The early exit loses nothing: without the flag no message carries a call. */
  lemma {:induction false} NoCalls(choices: seq<Choice>)
    requires forall i :: 0 <= i < |choices| && choices[i].message.Some? ==> choices[i].message.value.calls == []
    ensures CallsIn(Messages(choices)) == []
  {
    if choices != [] {
      var before, last := choices[..|choices| - 1], choices[|choices| - 1];
      NoCalls(before);
      if last.message.Some? {
        var ms := Messages(before);
        assert (ms + [last.message.value])[..|ms|] == ms;
      } else {
        assert Messages(choices) == Messages(before);
      }
    }
  }

  method ExtractToolCalls(resp: Response) returns (calls: seq<Call>)
    ensures calls == CallsIn(Messages(resp.choices))
  {
    if !HasToolCalls(resp) {
      NoCalls(resp.choices);
      return [];
    }
    calls := [];
    for i := 0 to |resp.choices|
      invariant calls == CallsIn(Messages(resp.choices[..i]))
    {
      assert resp.choices[..i + 1][..i] == resp.choices[..i];
      if resp.choices[i].message.Some? {
        var before := Messages(resp.choices[..i]);
        assert (before + [resp.choices[i].message.value])[..|before|] == before;
        calls := calls + resp.choices[i].message.value.calls;
      } else {
        assert Messages(resp.choices[..i + 1]) == Messages(resp.choices[..i]);
      }
    }
    assert resp.choices[..|resp.choices|] == resp.choices;
  }

  // ---------------------------------------------------------------- what may run unattended

  function Unprefixed(tool: string, client: string): string {
    if client + "-" <= tool then tool[|client| + 1..] else tool
  }

  predicate Listed(tools: Option<seq<string>>, tool: string, client: string) {
    tools.Some? && ("*" in tools.value || Unprefixed(tool, client) in tools.value)
  }

  /** A tool must be both executable and auto-executable for its client; an absent list allows nothing. */
  predicate CanAutoExecute(client: Client, tool: string) {
    Listed(client.toolsToExecute, tool, client.name) && Listed(client.toolsToAutoExecute, tool, client.name)
  }

  predicate CodeCallAllowed(env: Env, c: CodeCall) {
    c.server in env.clientNames ==>
        c.server in env.allowed && ("*" in env.allowed[c.server] || c.tool in env.allowed[c.server])
  }

  predicate CodeAllowed(env: Env, calls: seq<CodeCall>) {
    calls == [] || (|env.allowed| > 0 && forall i :: 0 <= i < |calls| ==> CodeCallAllowed(env, calls[i]))
  }

  /** A call the agent may execute without asking. */
  predicate Auto(env: Env, c: Call) {
    if c.name.None? then false
    else
      var client := env.clientFor(c.name.value);
      if client.Some? then CanAutoExecute(client.value, c.name.value)
      else if c.name.value == "executeToolCode" then env.codeCalls(c).Some? && CodeAllowed(env, env.codeCalls(c).value)
      else c.name.value in ["listToolFiles", "readToolFile", "getToolDocs"]
  }

  function AutoOf(env: Env): Call -> bool {
    (c: Call) => Auto(env, c)
  }

  function Choose(f: Call -> bool, calls: seq<Call>, want: bool): seq<Call> {
    if calls == [] then []
    else if f(calls[|calls| - 1]) == want then Choose(f, calls[..|calls| - 1], want) + [calls[|calls| - 1]]
    else Choose(f, calls[..|calls| - 1], want)
  }

  lemma {:induction false} ChooseAll(f: Call -> bool, calls: seq<Call>)
    ensures multiset(Choose(f, calls, true)) + multiset(Choose(f, calls, false)) == multiset(calls)
    ensures |Choose(f, calls, true)| + |Choose(f, calls, false)| == |calls|
  {
    if calls != [] {
      ChooseAll(f, calls[..|calls| - 1]);
      assert calls == calls[..|calls| - 1] + [calls[|calls| - 1]];
    }
  }

  lemma {:induction false} ChosenAre(f: Call -> bool, calls: seq<Call>, want: bool, c: Call)
    ensures c in Choose(f, calls, want) <==> c in calls && f(c) == want
  {
    if calls != [] {
      var before, last := calls[..|calls| - 1], calls[|calls| - 1];
      ChosenAre(f, before, want, c);
      assert calls == before + [last];
    }
  }

  /** An entry of a client's list fits a tool: the wildcard, or what the tool is called behind the client's prefix. */
  predicate Fits(entry: string, client: string, name: string) {
    entry == "*" || client + "-" + entry == name || (entry == name && !(client + "-" <= name))
  }

  ghost predicate Names(tools: Option<seq<string>>, client: string, name: string) {
    tools.Some? && exists entry :: entry in tools.value && Fits(entry, client, name)
  }

  /** Code stays with servers nobody manages and with the tools that may run unattended. */
  ghost predicate TamesCode(env: Env, calls: seq<CodeCall>) {
    && (calls != [] ==> env.allowed != map[])
    && forall k :: k in calls && k.server in env.clientNames ==>
         exists entry :: k.server in env.allowed && entry in env.allowed[k.server] && (entry == "*" || entry == k.tool)
  }

  /** What a call must be like to run without a person's consent. */
  ghost predicate NeedsNoConsent(env: Env, c: Call) {
    && c.name.Some?
    && var name := c.name.value;
       match env.clientFor(name)
       case Some(client) =>
         Names(client.toolsToExecute, client.name, name) && Names(client.toolsToAutoExecute, client.name, name)
       case None =>
         || name == "listToolFiles" || name == "readToolFile" || name == "getToolDocs"
         || (name == "executeToolCode" && env.codeCalls(c).Some? && TamesCode(env, env.codeCalls(c).value))
  }

  lemma ListedNames(tools: Option<seq<string>>, client: string, name: string)
    ensures Listed(tools, name, client) <==> Names(tools, client, name)
  {
    if client + "-" <= name {
      var bare := name[|client| + 1..];
      assert client + "-" + bare == name;
      assert forall entry: string :: client + "-" + entry == name ==> entry == (client + "-" + entry)[|client| + 1..];
    } else {
      assert forall entry: string :: client + "-" <= client + "-" + entry;
    }
  }

  lemma CodeTamed(env: Env, calls: seq<CodeCall>)
    ensures CodeAllowed(env, calls) <==> TamesCode(env, calls)
  {
    if CodeAllowed(env, calls) {
      forall k | k in calls && k.server in env.clientNames
        ensures exists entry ::
                k.server in env.allowed && entry in env.allowed[k.server] && (entry == "*" || entry == k.tool)
      {
        var i :| 0 <= i < |calls| && calls[i] == k;
        assert CodeCallAllowed(env, calls[i]);
      }
    }
  }

  /** The test decides whether a call needs consent. */
  lemma ConsentExactly(env: Env, c: Call)
    ensures AutoOf(env)(c) <==> NeedsNoConsent(env, c)
  {
    if c.name.Some? {
      var client := env.clientFor(c.name.value);
      if client.Some? {
        ListedNames(client.value.toolsToExecute, client.value.name, c.name.value);
        ListedNames(client.value.toolsToAutoExecute, client.value.name, c.name.value);
      } else if env.codeCalls(c).Some? {
        CodeTamed(env, env.codeCalls(c).value);
      }
    }
  }

  /** The two parts of a response's calls are those that need no consent and those that do. */
  lemma PartsExactly(env: Env, calls: seq<Call>, c: Call)
    ensures c in Choose(AutoOf(env), calls, true) <==> c in calls && NeedsNoConsent(env, c)
    ensures c in Choose(AutoOf(env), calls, false) <==> c in calls && !NeedsNoConsent(env, c)
  {
    ChosenAre(AutoOf(env), calls, true, c);
    ChosenAre(AutoOf(env), calls, false, c);
    ConsentExactly(env, c);
  }

  method ValidateCode(env: Env, calls: seq<CodeCall>) returns (ok: bool)
    ensures ok <==> CodeAllowed(env, calls)
  {
    ok := true;
    if |calls| > 0 {
      if |env.allowed| == 0 {
        ok := false;
      } else {
        for i := 0 to |calls|
          invariant ok && forall j :: 0 <= j < i ==> CodeCallAllowed(env, calls[j])
        {
          if !CodeCallAllowed(env, calls[i]) {
            ok := false;
            break;
          }
        }
      }
    }
  }

  method SplitAuto(env: Env, calls: seq<Call>) returns (auto: seq<Call>, manual: seq<Call>)
    ensures auto == Choose(AutoOf(env), calls, true) && manual == Choose(AutoOf(env), calls, false)
    ensures forall c :: c in auto <==> c in calls && NeedsNoConsent(env, c)
    ensures forall c :: c in manual <==> c in calls && !NeedsNoConsent(env, c)
  {
    forall c
      ensures c in Choose(AutoOf(env), calls, true) <==> c in calls && NeedsNoConsent(env, c)
      ensures c in Choose(AutoOf(env), calls, false) <==> c in calls && !NeedsNoConsent(env, c)
    {
      PartsExactly(env, calls, c);
    }
    auto, manual := [], [];
    for i := 0 to |calls|
      invariant auto == Choose(AutoOf(env), calls[..i], true) && manual == Choose(AutoOf(env), calls[..i], false)
    {
      var c := calls[i];
      assert calls[..i + 1][..i] == calls[..i];
      if c.name.None? {
        manual := manual + [c];
        continue;
      }
      var client := env.clientFor(c.name.value);
      if client.None? {
        if c.name.value in ["listToolFiles", "readToolFile", "getToolDocs"] {
          auto := auto + [c];
        } else if c.name.value == "executeToolCode" {
          if env.codeCalls(c).None? {
            manual := manual + [c];
            continue;
          }
          var ok := ValidateCode(env, env.codeCalls(c).value);
          if ok {
            auto := auto + [c];
          } else {
            manual := manual + [c];
          }
        } else {
          manual := manual + [c];
        }
        continue;
      }
      if CanAutoExecute(client.value, c.name.value) {
        auto := auto + [c];
      } else {
        manual := manual + [c];
      }
    }
    assert calls[..|calls|] == calls;
  }

  // ---------------------------------------------------------------- one round

  function ResultOf(c: Call, o: ToolOutcome): Message {
    match o
    case Delivered(m) => m
    case Silent => Message("tool", "", [], c.id)
    case Broken(error) =>
      var name := if c.name.Some? then c.name.value else "unknown";
      Message("tool", "Error executing tool " + name + ": " + error, [], c.id)
  }

  /**
   A call whose tool delivers nothing or fails is answered all the same, under its identifier and with the error at
   the end.
   */
  lemma ResultAnswers(c: Call, o: ToolOutcome)
    ensures var m := ResultOf(c, o);
            match o
            case Delivered(message) => m == message
            case Silent => m.role == "tool" && m.callId == c.id && m.calls == [] && m.content == ""
            case Broken(error) =>
              && m.role == "tool" && m.callId == c.id && m.calls == []
              && (exists text :: m.content == text + error)
              && (c.name.Some? ==> exists a, b :: m.content == a + c.name.value + b)
  {
    if o.Broken? {
      var name := if c.name.Some? then c.name.value else "unknown";
      assert ResultOf(c, o).content == ("Error executing tool " + name + ": ") + o.error;
      assert ResultOf(c, o).content == "Error executing tool " + name + (": " + o.error);
    }
  }

  /** One round: the response, the batch in dispatch order, the order of arrival and the results as they arrived. */
  datatype Round = Round(response: Response, batch: seq<Call>, order: seq<nat>, results: seq<Message>)

  function ToolCalls(resp: Response): seq<Call> {
    CallsIn(Messages(resp.choices))
  }

  ghost predicate Permutes(order: seq<nat>, n: nat) {
    |order| == n && Distinct(order) && forall i :: i in order <==> 0 <= i < n
  }

  /** The `k`-th result to arrive belongs to call `order[k]` of the batch, and each call has one. */
  ghost predicate Answers(env: Env, r: nat, batch: seq<Call>, order: seq<nat>, results: seq<Message>) {
    && Permutes(order, |batch|)
    && |results| == |order|
    && forall k :: 0 <= k < |order| ==>
       order[k] in order && results[k] == ResultOf(batch[order[k]], env.tool(r, order[k], batch[order[k]]))
  }

  /**
   The batch is the calls as they came, or the parallel part and behind it the sequential one; then the sequential
   results arrive last and in order.
   */
  ghost predicate Dispatched(cfg: Config, auto: seq<Call>, batch: seq<Call>, order: seq<nat>) {
    var parallel, sequential := Parallel(cfg, auto), Sequential(cfg, auto);
    if cfg.enabled && sequential != [] then
      batch == parallel + sequential && forall k :: |parallel| <= k < |order| ==> order[k] == k
    else
      batch == auto
  }

  ghost predicate RoundOk(env: Env, r: nat, round: Round) {
    && multiset(round.batch) == multiset(Choose(AutoOf(env), ToolCalls(round.response), true))
    && Answers(env, r, round.batch, round.order, round.results)
  }

  /** Every schedule of the dispatcher delivers each result once, the sequential ones last. */
  lemma ArrivalPermutes(p: nat, q: nat, order: seq<nat>)
    requires Arrives(p, q, order)
    ensures Permutes(order, p + q) && forall k :: p <= k < |order| ==> order[k] == k
  {
    var es :| Closes(p, q, es, order);
    OneResultEach(p, q, p + q, es);
    forall k | p <= k < |order|
      ensures order[k] == k
    {
      SequentialLast(p, q, p + q, es, k);
    }
  }

  method RunBatch(env: Env, r: nat, auto: seq<Call>) returns (batch: seq<Call>, order: seq<nat>, results: seq<Message>)
    requires Scheduled(env)
    ensures multiset(batch) == multiset(auto) && Answers(env, r, batch, order, results)
    ensures Dispatched(env.cfg, auto, batch, order)
  {
    ClassifyPartitions(env.cfg, auto);
    var parallel, sequential, unknown := Classify(auto, env.cfg);
    var p, q := |auto|, 0;
    batch := auto;
    if env.cfg.enabled && |sequential| > 0 {
      batch, p, q := parallel + sequential, |parallel|, |sequential|;
    }
    order := env.arrival(r, p, q);
    ArrivalPermutes(p, q, order);
    results := [];
    for k := 0 to |order|
      invariant |results| == k
      invariant forall m :: 0 <= m < k ==>
                order[m] in order && results[m] == ResultOf(batch[order[m]], env.tool(r, order[m], batch[order[m]]))
    {
      assert order[k] in order;
      results := results + [ResultOf(batch[order[k]], env.tool(r, order[k], batch[order[k]]))];
    }
  }

  // ---------------------------------------------------------------- whole runs

  function Added(round: Round): seq<Message> {
    if round.batch == [] then [] else Messages(round.response.choices) + round.results
  }

  /** The conversation after these rounds; a round that executed nothing adds nothing. */
  function History(original: seq<Message>, rounds: seq<Round>): seq<Message> {
    if rounds == [] then original else History(original, rounds[..|rounds| - 1]) + Added(rounds[|rounds| - 1])
  }

  function AllResults(rounds: seq<Round>): seq<Message> {
    if rounds == [] then [] else AllResults(rounds[..|rounds| - 1]) + rounds[|rounds| - 1].results
  }

  function AllExecuted(env: Env, rounds: seq<Round>): seq<Call> {
    if rounds == [] then []
    else AllExecuted(env, rounds[..|rounds| - 1]) + Choose(AutoOf(env), ToolCalls(rounds[|rounds| - 1].response), true)
  }

  function Manual(env: Env, round: Round): seq<Call> {
    Choose(AutoOf(env), ToolCalls(round.response), false)
  }

  /** After this round the model is asked again: it had calls and none needs a person. */
  predicate PutToModel(env: Env, round: Round) {
    ToolCalls(round.response) != [] && Manual(env, round) == []
  }

  /**
   After these rounds the response at hand is `resp`: the first one, or the model's reply to everything rendered so
   far.
   */
  ghost predicate Reached(env: Env, original: seq<Message>, initial: Response, rounds: seq<Round>, resp: Response) {
    if |rounds| == 0 then resp == initial
    else
      && env.llm(|rounds| - 1, History(original, rounds)) == Answer(resp)
      && PutToModel(env, rounds[|rounds| - 1])
  }

  ghost predicate Transcript(env: Env, original: seq<Message>, initial: Response, rounds: seq<Round>) {
    rounds == [] ||
      var before, last := rounds[..|rounds| - 1], rounds[|rounds| - 1];
      Transcript(env, original, initial, before) && RoundOk(env, |before|, last)
          && Reached(env, original, initial, before, last.response)
  }

  datatype Outcome =
    | Reply(response: Response)
    | Pending(response: Response, results: seq<Message>, executed: seq<Call>, manual: seq<Call>)
    | Failed(error: string)

  /** The last round ended the run: the model refused, or some call needs a person; `asked` tells which. */
  ghost predicate Stops(env: Env, original: seq<Message>, initial: Response, rounds: seq<Round>, out: Outcome,
      asked: bool)
    requires |rounds| > 0
  {
    var last := rounds[|rounds| - 1];
    if asked then out.Failed? && env.llm(|rounds| - 1, History(original, rounds)) == Refused(out.error)
      && PutToModel(env, last)
    else
      && Manual(env, last) != []
      && out == if |rounds| == 1 && last.batch == [] then Reply(initial)
                else Pending(last.response, AllResults(rounds), AllExecuted(env, rounds), Manual(env, last))
  }

  /** How a run with these rounds ends, and after how many requests to the model. */
  ghost predicate Ends(env: Env, maxDepth: int, original: seq<Message>, initial: Response, rounds: seq<Round>,
      out: Outcome, asked: nat) {
    var n := |rounds|;
    || (n > 0 && (asked == n || asked + 1 == n) && Stops(env, original, initial, rounds, out, asked == n))
    || (asked == n && out.Reply? && Reached(env, original, initial, rounds, out.response)
        && (n >= maxDepth || ToolCalls(out.response) == []))
  }

  /** The body of the loop up to the decision whether to go on. */
  method PlayRound(env: Env, r: nat, current: Response, calls: seq<Call>, history0: seq<Message>)
    returns (auto: seq<Call>, manual: seq<Call>, results: seq<Message>, history: seq<Message>, round: Round)
    requires Scheduled(env) && calls == ToolCalls(current) && calls != []
    ensures auto == Choose(AutoOf(env), calls, true) && manual == Manual(env, round)
    ensures RoundOk(env, r, round) && round.response == current && round.results == results
    ensures history == history0 + Added(round)
    ensures results == [] <==> round.batch == []
    ensures manual == [] ==> results != []
  {
    history, results, round := history0, [], Round(current, [], [], []);
    auto, manual := SplitAuto(env, calls);
    ChooseAll(AutoOf(env), calls);
    if |auto| > 0 {
      history := history + Messages(current.choices);
      var batch, order;
      batch, order, results := RunBatch(env, r, auto);
      history := history + results;
      round := Round(current, batch, order, results);
      assert |multiset(batch)| == |multiset(auto)|;
    }
  }

  /** The loop's variables at its head. */
  datatype State = State(current: Response, history: seq<Message>, results: seq<Message>, executed: seq<Call>,
      depth: nat)

  ghost predicate AtHead(env: Env, original: seq<Message>, initial: Response, st: State, rounds: seq<Round>) {
    && st.depth == |rounds| <= |st.results|
    && Transcript(env, original, initial, rounds)
    && Reached(env, original, initial, rounds, st.current)
    && st.history == History(original, rounds)
    && st.results == AllResults(rounds) && st.executed == AllExecuted(env, rounds)
  }

  lemma OneMore(env: Env, original: seq<Message>, initial: Response, st: State, before: seq<Round>, round: Round)
    requires AtHead(env, original, initial, st, before) && RoundOk(env, st.depth, round) && round.response == st.current
    ensures Transcript(env, original, initial, before + [round])
    ensures History(original, before + [round]) == st.history + Added(round)
    ensures AllResults(before + [round]) == st.results + round.results
    ensures AllExecuted(env, before + [round])
         == st.executed + Choose(AutoOf(env), ToolCalls(round.response), true)
  {
    assert (before + [round])[..|before|] == before;
  }

  /**
   Calls that need consent end the run here: the first response as it is if nothing was done, else the pending parts.
   */
  lemma Pauses(env: Env, original: seq<Message>, initial: Response, st: State, before: seq<Round>, round: Round)
    requires AtHead(env, original, initial, st, before) && RoundOk(env, st.depth, round) && round.response == st.current
    requires Manual(env, round) != [] && (round.results == [] <==> round.batch == [])
    ensures var results := st.results + round.results;
            var executed := st.executed + Choose(AutoOf(env), ToolCalls(round.response), true);
            var out := if st.depth == 0 && results == [] then Reply(st.current)
                       else Pending(st.current, results, executed, Manual(env, round));
            Stops(env, original, initial, before + [round], out, false)
  {
    OneMore(env, original, initial, st, before, round);
  }

  /** One iteration on a response with tool calls: either the run ends here or the model has answered again. */
  method Turn(env: Env, ghost original: seq<Message>, ghost initial: Response, st: State, calls: seq<Call>,
      ghost before: seq<Round>)
    returns (out: Option<Outcome>, history: seq<Message>, asked: bool, st': State, round: Round)
    requires Scheduled(env) && AtHead(env, original, initial, st, before)
    requires calls == ToolCalls(st.current) && calls != []
    ensures Transcript(env, original, initial, before + [round]) && history == History(original, before + [round])
    ensures out.None? ==> asked && AtHead(env, original, initial, st', before + [round])
    ensures out.Some? ==> Stops(env, original, initial, before + [round], out.value, asked)
  {
    var auto, manual, results;
    auto, manual, results, history, round := PlayRound(env, st.depth, st.current, calls, st.history);
    OneMore(env, original, initial, st, before, round);
    var allResults, allExecuted := st.results + results, st.executed + auto;
    out, asked, st' := None, false, st;
    if |manual| > 0 {
      Pauses(env, original, initial, st, before, round);
      if st.depth == 0 && |allResults| == 0 {
        out := Some(Reply(st.current));
      } else {
        out := Some(Pending(st.current, allResults, allExecuted, manual));
      }
      return;
    }
    var answer := env.llm(st.depth, history);
    asked := true;
    if answer.Refused? {
      out := Some(Failed(answer.error));
      return;
    }
    st' := State(answer.response, history, allResults, allExecuted, st.depth + 1);
  }

  /** The loop; `rounds` is the transcript it leaves. */
  method ExecuteAgent(env: Env, maxDepth: int, original: seq<Message>, initial: Response)
    returns (out: Outcome, history: seq<Message>, asked: nat, rounds: seq<Round>)
    requires Scheduled(env)
    ensures Transcript(env, original, initial, rounds)
    ensures history == History(original, rounds)
    ensures asked <= |rounds| <= if maxDepth < 0 then 0 else maxDepth
    ensures Ends(env, maxDepth, original, initial, rounds, out, asked)
  {
    var st := State(initial, original, [], [], 0);
    rounds := [];
    while st.depth < maxDepth
      invariant AtHead(env, original, initial, st, rounds)
      invariant st.depth <= if maxDepth < 0 then 0 else maxDepth
      decreases maxDepth - st.depth
    {
      var calls := ExtractToolCalls(st.current);
      if |calls| == 0 {
        break;
      }
      var end, h, a, st', round;
      end, h, a, st', round := Turn(env, original, initial, st, calls, rounds);
      rounds := rounds + [round];
      if end.Some? {
        return end.value, h, if a then st.depth + 1 else st.depth, rounds;
      }
      st := st';
    }
    return Reply(st.current), st.history, st.depth, rounds;
  }

  // ---------------------------------------------------------------- what every transcript keeps

  lemma {:induction false} TranscriptPrefix(env: Env, original: seq<Message>, initial: Response, rounds: seq<Round>,
      i: nat)
    requires Transcript(env, original, initial, rounds) && i <= |rounds|
    ensures Transcript(env, original, initial, rounds[..i])
  {
    if i < |rounds| {
      TranscriptPrefix(env, original, initial, rounds[..|rounds| - 1], i);
      assert rounds[..|rounds| - 1][..i] == rounds[..i];
    } else {
      assert rounds[..i] == rounds;
    }
  }

  lemma RoundAt(env: Env, original: seq<Message>, initial: Response, rounds: seq<Round>, i: nat)
    requires Transcript(env, original, initial, rounds) && i < |rounds|
    ensures RoundOk(env, i, rounds[i])
    ensures i > 0 ==>
          env.llm(i - 1, History(original, rounds[..i])) == Answer(rounds[i].response) && PutToModel(env, rounds[i - 1])
  {
    TranscriptPrefix(env, original, initial, rounds, i + 1);
    assert rounds[..i + 1][..i] == rounds[..i];
  }

  /** In every run exactly the calls that need no consent are executed, and exactly the others are handed back. */
  lemma OnlyAutoExecuted(env: Env, original: seq<Message>, initial: Response, rounds: seq<Round>, i: nat, c: Call)
    requires Transcript(env, original, initial, rounds) && i < |rounds|
    ensures c in rounds[i].batch <==> c in ToolCalls(rounds[i].response) && NeedsNoConsent(env, c)
    ensures c in Manual(env, rounds[i]) <==> c in ToolCalls(rounds[i].response) && !NeedsNoConsent(env, c)
  {
    RoundAt(env, original, initial, rounds, i);
    var calls := ToolCalls(rounds[i].response);
    assert c in rounds[i].batch <==> c in multiset(rounds[i].batch);
    assert c in multiset(Choose(AutoOf(env), calls, true)) <==> c in Choose(AutoOf(env), calls, true);
    PartsExactly(env, calls, c);
  }

  predicate HoldsAt(s: seq<Message>, at: nat, part: seq<Message>) {
    at + |part| <= |s| && s[at..at + |part|] == part
  }

  /** A round the loop went past executed every call of its response. */
  lemma RoundAnswered(env: Env, original: seq<Message>, initial: Response, rounds: seq<Round>, j: nat)
    requires Transcript(env, original, initial, rounds) && j < |rounds|
             && (j + 1 == |rounds| ==> PutToModel(env, rounds[j]))
    ensures multiset(rounds[j].batch) == multiset(ToolCalls(rounds[j].response)) && rounds[j].batch != []
    ensures Answers(env, j, rounds[j].batch, rounds[j].order, rounds[j].results)
  {
    RoundAt(env, original, initial, rounds, j);
    if j + 1 < |rounds| {
      RoundAt(env, original, initial, rounds, j + 1);
    }
    var calls := ToolCalls(rounds[j].response);
    ChooseAll(AutoOf(env), calls);
    assert multiset(rounds[j].batch) == multiset(calls);
    assert calls[0] in multiset(rounds[j].batch);
  }

  lemma {:induction false} HistoryPrefix(original: seq<Message>, rounds: seq<Round>)
    ensures original <= History(original, rounds)
  {
    if rounds != [] {
      HistoryPrefix(original, rounds[..|rounds| - 1]);
    }
  }

  lemma HoldsMore(s: seq<Message>, at: nat, part: seq<Message>, more: seq<Message>)
    requires HoldsAt(s, at, part)
    ensures HoldsAt(s + more, at, part)
  {
    assert (s + more)[at..at + |part|] == s[at..at + |part|];
  }

  lemma HoldsLast(s: seq<Message>, part: seq<Message>)
    ensures HoldsAt(s + part, |s|, part)
  {
  }

  lemma {:induction false} HistoryHolds(original: seq<Message>, rounds: seq<Round>, j: nat) returns (at: nat)
    requires j < |rounds|
    ensures HoldsAt(History(original, rounds), at, Added(rounds[j])) && at >= |original|
  {
    var n := |rounds| - 1;
    var h := History(original, rounds[..n]);
    if j == n {
      HistoryPrefix(original, rounds[..n]);
      at := |h|;
      HoldsLast(h, Added(rounds[n]));
    } else {
      at := HistoryHolds(original, rounds[..n], j);
      HoldsMore(h, at, Added(rounds[j]), Added(rounds[n]));
    }
  }

  /**
   Each request to the model, the last one included, is well formed: it keeps the original messages as its prefix, and
   what an earlier round `j` added to it is the round's assistant messages followed by one result for every call those
   messages make.
   */
  lemma RequestsAnswered(env: Env, original: seq<Message>, initial: Response, rounds: seq<Round>, i: nat, j: nat)
    returns (at: nat)
    requires Transcript(env, original, initial, rounds) && j < i <= |rounds|
    requires i == |rounds| ==> PutToModel(env, rounds[i - 1])
    ensures i < |rounds| ==> env.llm(i - 1, History(original, rounds[..i])) == Answer(rounds[i].response)
    ensures HoldsAt(History(original, rounds[..i]), at, Messages(rounds[j].response.choices) + rounds[j].results)
            && at >= |original|
    ensures original <= History(original, rounds[..i])
    ensures multiset(rounds[j].batch) == multiset(CallsIn(Messages(rounds[j].response.choices)))
    ensures Answers(env, j, rounds[j].batch, rounds[j].order, rounds[j].results)
  {
    if i < |rounds| {
      RoundAt(env, original, initial, rounds, i);
    }
    RoundAnswered(env, original, initial, rounds, j);
    HistoryPrefix(original, rounds[..i]);
    at := HistoryHolds(original, rounds[..i], j);
  }
}
