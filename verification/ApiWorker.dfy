/** The API worker: its budgeted conversation loop, and the translation of its history into alternating turns. */
module ApiWorker {
  import opened Wrappers

  datatype Call = Call(id: string, name: string, arguments: string)

  datatype Message =
    | System(content: string)
    | User(content: string)
    | Assistant(content: string, calls: seq<Call>)
    | Tool(callId: string, name: string, content: string)

  // ---- translation ----

  datatype Block =
    | Text(text: string)
    | ToolUse(id: string, name: string, input: string)
    | ToolResult(useId: string, content: string)

  datatype Turn = Turn(assistant: bool, blocks: seq<Block>)

  function UseBlocks(calls: seq<Call>): seq<Block> {
    if calls == [] then [] else [ToolUse(calls[0].id, calls[0].name, calls[0].arguments)] + UseBlocks(calls[1..])
  }

  /** One message's blocks; an empty text makes none. */
  function Blocks(message: Message): seq<Block> {
    match message
    case System(_) => []
    case User(content) => if content == "" then [] else [Text(content)]
    case Assistant(content, calls) => (if content == "" then [] else [Text(content)]) + UseBlocks(calls)
    case Tool(callId, _, content) => [ToolResult(callId, content)]
  }

  /** Extends the last turn if it has the role, else adds a turn. */
  function Extend(turns: seq<Turn>, assistant: bool, blocks: seq<Block>): seq<Turn> {
    var last := |turns| - 1;
    if turns != [] && turns[last].assistant == assistant
    then turns[..last] + [Turn(assistant, turns[last].blocks + blocks)]
    else turns + [Turn(assistant, blocks)]
  }

  function Translated(messages: seq<Message>): seq<Turn> {
    if messages == [] then []
    else
      var last := |messages| - 1;
      var turns := Translated(messages[..last]);
      if messages[last].System? then turns else Extend(turns, messages[last].Assistant?, Blocks(messages[last]))
  }

  /** `_anthropic_messages`. */
  method AnthropicMessages(messages: seq<Message>) returns (turns: seq<Turn>)
    ensures turns == Translated(messages)
    ensures Alternates(turns)
    ensures Tagged(turns) == TaggedBlocks(messages)
  {
    turns := [];
    for i := 0 to |messages|
      invariant turns == Translated(messages[..i])
    {
      var message := messages[i];
      TranslatedNext(messages, i);
      if !message.System? {
        var blocks := Blocks(message);
        if turns != [] && turns[|turns| - 1].assistant == message.Assistant? {
          var last := turns[|turns| - 1];
          UpdateExtends(turns, blocks);
          turns := turns[|turns| - 1 := last.(blocks := last.blocks + blocks)];
        } else {
          turns := turns + [Turn(message.Assistant?, blocks)];
        }
      }
    }
    assert messages[..|messages|] == messages;
    TranslationKeepsBlocks(messages);
  }

  lemma UpdateExtends(turns: seq<Turn>, blocks: seq<Block>)
    requires turns != []
    ensures var last := turns[|turns| - 1];
            turns[|turns| - 1 := last.(blocks := last.blocks + blocks)] == Extend(turns, last.assistant, blocks)
  {
  }

  lemma TranslatedNext(messages: seq<Message>, i: nat)
    requires i < |messages|
    ensures Translated(messages[..i + 1])
         == if messages[i].System? then Translated(messages[..i])
            else Extend(Translated(messages[..i]), messages[i].Assistant?, Blocks(messages[i]))
  {
    assert messages[..i + 1][..i] == messages[..i];
  }

  ghost predicate Alternates(turns: seq<Turn>) {
    forall i :: 0 < i < |turns| ==> turns[i].assistant != turns[i - 1].assistant
  }

  /** Every block with its side, in order. */
  function Tag(assistant: bool, blocks: seq<Block>): seq<(bool, Block)> {
    seq(|blocks|, i requires 0 <= i < |blocks| => (assistant, blocks[i]))
  }

  function Tagged(turns: seq<Turn>): seq<(bool, Block)> {
    if turns == [] then [] else Tag(turns[0].assistant, turns[0].blocks) + Tagged(turns[1..])
  }

  function TaggedBlocks(messages: seq<Message>): seq<(bool, Block)> {
    if messages == [] then []
    else
      var last := |messages| - 1;
      TaggedBlocks(messages[..last]) + Tag(messages[last].Assistant?, Blocks(messages[last]))
  }

  lemma {:induction false} TaggedAppend(turns: seq<Turn>, more: seq<Turn>)
    ensures Tagged(turns + more) == Tagged(turns) + Tagged(more)
  {
    if turns == [] {
      assert turns + more == more;
    } else {
      assert (turns + more)[1..] == turns[1..] + more;
      TaggedAppend(turns[1..], more);
    }
  }

  lemma TaggedOne(turn: Turn)
    ensures Tagged([turn]) == Tag(turn.assistant, turn.blocks)
  {
    assert [turn][1..] == [];
    assert Tagged([turn]) == Tag(turn.assistant, turn.blocks) + [];
  }

  lemma LongerTurn(front: seq<Turn>, turn: Turn, blocks: seq<Block>)
    ensures Tagged(front + [Turn(turn.assistant, turn.blocks + blocks)])
         == Tagged(front + [turn]) + Tag(turn.assistant, blocks)
  {
    var longer := Turn(turn.assistant, turn.blocks + blocks);
    TaggedAppend(front, [turn]);
    TaggedAppend(front, [longer]);
    TaggedOne(turn);
    TaggedOne(longer);
    assert Tag(turn.assistant, longer.blocks) == Tag(turn.assistant, turn.blocks) + Tag(turn.assistant, blocks);
  }

  lemma ExtendKeepsBlocks(turns: seq<Turn>, assistant: bool, blocks: seq<Block>)
    ensures Tagged(Extend(turns, assistant, blocks)) == Tagged(turns) + Tag(assistant, blocks)
  {
    var last := |turns| - 1;
    if turns != [] && turns[last].assistant == assistant {
      LongerTurn(turns[..last], turns[last], blocks);
      assert turns == turns[..last] + [turns[last]];
    } else {
      TaggedAppend(turns, [Turn(assistant, blocks)]);
      TaggedOne(Turn(assistant, blocks));
    }
  }

  lemma ExtendAlternates(turns: seq<Turn>, assistant: bool, blocks: seq<Block>)
    requires Alternates(turns)
    ensures Alternates(Extend(turns, assistant, blocks))
  {
  }

  /** For every history: roles alternate strictly, and no block is lost, added, reordered or changes sides. */
  lemma {:induction false} TranslationKeepsBlocks(messages: seq<Message>)
    ensures Alternates(Translated(messages))
    ensures Tagged(Translated(messages)) == TaggedBlocks(messages)
  {
    if messages != [] {
      var last := |messages| - 1;
      TranslationKeepsBlocks(messages[..last]);
      if messages[last].System? {
        assert Tag(false, []) == [];
        assert TaggedBlocks(messages) == TaggedBlocks(messages[..last]);
      } else {
        ExtendAlternates(Translated(messages[..last]), messages[last].Assistant?, Blocks(messages[last]));
        ExtendKeepsBlocks(Translated(messages[..last]), messages[last].Assistant?, Blocks(messages[last]));
      }
    }
  }

  ghost predicate NoEmptyTurn(turns: seq<Turn>) {
    forall turn :: turn in turns ==> turn.blocks != []
  }

  /** Among alternating turns without empty ones, the blocks and their sides determine the turns. */
  lemma {:induction false} AlternatingFormIsUnique(a: seq<Turn>, b: seq<Turn>)
    requires Alternates(a) && Alternates(b) && NoEmptyTurn(a) && NoEmptyTurn(b)
    requires Tagged(a) == Tagged(b)
    ensures a == b
  {
    if a == [] || b == [] {
      NonEmptyIsTagged(a);
      NonEmptyIsTagged(b);
    } else {
      FirstTurnNotLonger(a, b);
      FirstTurnNotLonger(b, a);
      var n := |a[0].blocks|;
      FirstTurn(a);
      FirstTurn(b);
      assert a[0].assistant == Tagged(a)[0].0 == b[0].assistant;
      assert forall i :: 0 <= i < n ==> a[0].blocks[i] == Tagged(a)[i].1 == b[0].blocks[i];
      assert a[0].blocks == b[0].blocks;
      assert Tagged(a[1..]) == Tagged(a)[n..] == Tagged(b[1..]);
      AlternatingFormIsUnique(a[1..], b[1..]);
      assert a == [a[0]] + a[1..] && b == [b[0]] + b[1..];
    }
  }

  lemma NonEmptyIsTagged(turns: seq<Turn>)
    requires NoEmptyTurn(turns)
    ensures turns == [] <==> Tagged(turns) == []
  {
    if turns != [] {
      assert turns[0].blocks != [];
      assert |Tag(turns[0].assistant, turns[0].blocks)| > 0;
    }
  }

  lemma FirstTurn(turns: seq<Turn>)
    requires turns != [] && turns[0].blocks != []
    ensures |turns[0].blocks| <= |Tagged(turns)|
    ensures forall i :: 0 <= i < |turns[0].blocks| ==> Tagged(turns)[i] == (turns[0].assistant, turns[0].blocks[i])
    ensures Tagged(turns)[|turns[0].blocks|..] == Tagged(turns[1..])
  {
  }

  lemma FirstTurnNotLonger(a: seq<Turn>, b: seq<Turn>)
    requires a != [] && b != [] && Alternates(a) && Alternates(b) && NoEmptyTurn(a) && NoEmptyTurn(b)
    requires Tagged(a) == Tagged(b)
    ensures |a[0].blocks| <= |b[0].blocks|
  {
    assert a[0].blocks != [] && b[0].blocks != [];
    FirstTurn(a);
    FirstTurn(b);
    var n := |b[0].blocks|;
    if n < |a[0].blocks| {
      assert Tagged(a)[0].0 == Tagged(b)[0].0;
      assert Tagged(a)[n].0 == a[0].assistant;
      assert Tagged(b[1..]) != [];
      assert |b| > 1 && b[1].blocks != [];
      FirstTurn(b[1..]);
    }
  }

  // ---- the conversation loop ----

  datatype Response = Response(
    text: string, calls: seq<Call>, input: nat, cached: nat, output: nat, reasoning: nat, requestId: Option<string>)

  datatype Completion = Fails(endpointFailure: bool) | Answers(response: Response)

  /**
   * The clock, the model and the tools. Each decides on the messages so far, which grow with every step; so
   * any behaviour over time is a function of them.
   */
  datatype World = World(
    late: seq<Message> -> bool, adapter: seq<Message> -> Completion, tool: (seq<Message>, Call) -> Option<string>)

  /** `maxTurns` and `maxToolCalls` with their defaults applied; zero means no limit elsewhere. */
  datatype Budget = Budget(enabled: bool, maxInput: nat, maxOutput: nat, maxTurns: nat, maxToolCalls: nat, maxWall: nat)

  datatype Usage = Usage(
    input: nat, cached: nat, output: nat, reasoning: nat, turns: nat, toolCalls: nat, toolNames: seq<string>,
    requestIds: seq<string>)

  datatype Ending =
    | Completed
    | WallTime
    | AdapterFailed(endpointFailure: bool)
    | InputTokens
    | OutputTokens
    | ToolBudget
    | ToolFailed
    | TurnBudget

  /** The loop's variables; `histories`, `responses` and `executed` record what it asked and did. */
  datatype Session = Session(
    messages: seq<Message>, usage: Usage, summaries: seq<string>, ending: Option<Ending>,
    histories: seq<seq<Message>>, responses: seq<Response>, executed: seq<Call>)

  const INSTRUCTIONS := "You are a Canto delegated Worker. Use only the supplied tools and bounded Workspace."

  function Opening(prompt: string): seq<Message> {
    [System(INSTRUCTIONS), User(prompt)]
  }

  function Start(prompt: string): Session {
    Session(Opening(prompt), Usage(0, 0, 0, 0, 0, 0, [], []), [], None, [], [], [])
  }

  function Charge(usage: Usage, response: Response): Usage {
    usage.(input := usage.input + response.input, cached := usage.cached + response.cached,
           output := usage.output + response.output, reasoning := usage.reasoning + response.reasoning,
           turns := usage.turns + 1,
           requestIds := usage.requestIds + if response.requestId.Some? && response.requestId.value != ""
                                            then [response.requestId.value] else [])
  }

  /** The token budget the usage exceeds. */
  function Exceeded(budget: Budget, usage: Usage): Option<Ending> {
    if budget.enabled && budget.maxInput != 0 && usage.input > budget.maxInput then Some(InputTokens)
    else if budget.enabled && budget.maxOutput != 0 && usage.output > budget.maxOutput then Some(OutputTokens)
    else None
  }

  /** The inner loop over the requested calls. */
  function UseTools(world: World, budget: Budget, s: Session, calls: seq<Call>): Session
    decreases |calls|
  {
    if calls == [] then s
    else
      var usage := s.usage.(toolCalls := s.usage.toolCalls + 1, toolNames := s.usage.toolNames + [calls[0].name]);
      if usage.toolCalls > budget.maxToolCalls then s.(usage := usage, ending := Some(ToolBudget))
      else
        match world.tool(s.messages, calls[0])
        case None => s.(usage := usage, ending := Some(ToolFailed), executed := s.executed + [calls[0]])
        case Some(result) =>
          UseTools(world, budget,
                   s.(usage := usage, executed := s.executed + [calls[0]],
                      messages := s.messages + [Tool(calls[0].id, calls[0].name, result)]),
                   calls[1..])
  }

  /** One turn of the outer loop. */
  function TakeTurn(world: World, budget: Budget, s: Session): Session {
    if budget.maxWall != 0 && world.late(s.messages) then s.(ending := Some(WallTime))
    else
      var asked := s.(histories := s.histories + [s.messages]);
      match world.adapter(s.messages)
      case Fails(endpointFailure) => asked.(ending := Some(AdapterFailed(endpointFailure)))
      case Answers(response) => Answered(world, budget, asked, response)
  }

  function Answered(world: World, budget: Budget, s: Session, response: Response): Session {
    var charged := s.(usage := Charge(s.usage, response), responses := s.responses + [response]);
    if Exceeded(budget, charged.usage).Some? then charged.(ending := Exceeded(budget, charged.usage))
    else
      var noted := if response.text == "" then charged else charged.(summaries := charged.summaries + [response.text]);
      if response.calls == [] then noted.(ending := Some(Completed))
      else UseTools(world, budget, noted.(messages := noted.messages + [Assistant(response.text, response.calls)]), response.calls)
  }

  /** A loop over turns, whatever a turn does. */
  function Repeat(take: Session --> Session, s: Session, left: nat): Session
    requires s.ending.None? && forall x: Session :: x.ending.None? ==> take.requires(x)
    decreases left
  {
    if left == 0 then s.(ending := Some(TurnBudget))
    else
      var s' := take(s);
      if s'.ending.Some? then s' else Repeat(take, s', left - 1)
  }

  function Turns(world: World, budget: Budget, s: Session, left: nat): Session
    requires s.ending.None?
  {
    Repeat((x: Session) requires x.ending.None? => TakeTurn(world, budget, x), s, left)
  }

  /** `APIWorkerHarness.run`. */
  method Run(world: World, budget: Budget, prompt: string) returns (s: Session)
    ensures s == Turns(world, budget, Start(prompt), budget.maxTurns)
  {
    s := Start(prompt);
    for turn := 0 to budget.maxTurns
      invariant s.ending.None?
      invariant Turns(world, budget, s, budget.maxTurns - turn) == Turns(world, budget, Start(prompt), budget.maxTurns)
    {
      s := AskOnce(world, budget, s);
      if s.ending.Some? {
        return;
      }
    }
    s := s.(ending := Some(TurnBudget));
  }

  /** The body of the loop over turns; an ending stands for the return or the error raised there. */
  method AskOnce(world: World, budget: Budget, start: Session) returns (s: Session)
    requires start.ending.None?
    ensures s == TakeTurn(world, budget, start)
  {
    s := start;
    if budget.maxWall != 0 && world.late(s.messages) {
      return s.(ending := Some(WallTime));
    }
    s := s.(histories := s.histories + [s.messages]);
    var completion := world.adapter(s.messages);
    if completion.Fails? {
      return s.(ending := Some(AdapterFailed(completion.endpointFailure)));
    }
    var response := completion.response;
    s := s.(usage := Charge(s.usage, response), responses := s.responses + [response]);
    if budget.enabled {
      if budget.maxInput != 0 && s.usage.input > budget.maxInput {
        return s.(ending := Some(InputTokens));
      }
      if budget.maxOutput != 0 && s.usage.output > budget.maxOutput {
        return s.(ending := Some(OutputTokens));
      }
    }
    if response.text != "" {
      s := s.(summaries := s.summaries + [response.text]);
    }
    if response.calls == [] {
      return s.(ending := Some(Completed));
    }
    s := s.(messages := s.messages + [Assistant(response.text, response.calls)]);
    s := UseToolsInOrder(world, budget, s, response.calls);
  }

  method UseToolsInOrder(world: World, budget: Budget, start: Session, calls: seq<Call>) returns (s: Session)
    requires start.ending.None?
    ensures s == UseTools(world, budget, start, calls)
  {
    s := start;
    for i := 0 to |calls|
      invariant s.ending.None?
      invariant UseTools(world, budget, s, calls[i..]) == UseTools(world, budget, start, calls)
    {
      var call := calls[i];
      assert calls[i..][0] == call && calls[i..][1..] == calls[i + 1..];
      s := s.(usage := s.usage.(toolCalls := s.usage.toolCalls + 1, toolNames := s.usage.toolNames + [call.name]));
      if s.usage.toolCalls > budget.maxToolCalls {
        return s.(ending := Some(ToolBudget));
      }
      var result := world.tool(s.messages, call);
      s := s.(executed := s.executed + [call]);
      if result.None? {
        return s.(ending := Some(ToolFailed));
      }
      s := s.(messages := s.messages + [Tool(call.id, call.name, result.value)]);
    }
  }

  // ---- what a session keeps ----

  /** An answered request for tools: the assistant's message and one result for each call. */
  datatype Exchange = Exchange(response: Response, results: seq<string>)

  ghost predicate Answering(exchanges: seq<Exchange>) {
    forall i :: 0 <= i < |exchanges| ==>
      exchanges[i].response.calls != [] && |exchanges[i].results| == |exchanges[i].response.calls|
  }

  function Results(calls: seq<Call>, results: seq<string>): seq<Message>
    requires |results| <= |calls|
  {
    seq(|results|, i requires 0 <= i < |results| => Tool(calls[i].id, calls[i].name, results[i]))
  }

  /** The messages after the first `n` exchanges. */
  ghost function Spoken(prompt: string, exchanges: seq<Exchange>, n: nat): seq<Message>
    requires Answering(exchanges) && n <= |exchanges|
  {
    if n == 0 then Opening(prompt)
    else
      var x := exchanges[n - 1];
      Spoken(prompt, exchanges, n - 1) + [Assistant(x.response.text, x.response.calls)] + Results(x.response.calls, x.results)
  }

  ghost predicate IsHistory(prompt: string, messages: seq<Message>) {
    exists exchanges :: Answering(exchanges) && Spoken(prompt, exchanges, |exchanges|) == messages
  }

  datatype Tokens = Tokens(input: nat, cached: nat, output: nat, reasoning: nat)

  /** The tokens of all responses. */
  function Total(responses: seq<Response>): Tokens {
    if responses == [] then Tokens(0, 0, 0, 0)
    else
      var r := responses[0];
      var rest := Total(responses[1..]);
      Tokens(r.input + rest.input, r.cached + rest.cached, r.output + rest.output, r.reasoning + rest.reasoning)
  }

  lemma {:induction false} TotalAppend(responses: seq<Response>, r: Response)
    ensures var sum := Total(responses);
            Total(responses + [r])
            == Tokens(sum.input + r.input, sum.cached + r.cached, sum.output + r.output, sum.reasoning + r.reasoning)
  {
    if responses == [] {
      assert Total([r][1..]) == Tokens(0, 0, 0, 0);
      assert [] + [r] == [r];
    } else {
      assert (responses + [r])[1..] == responses[1..] + [r];
      TotalAppend(responses[1..], r);
    }
  }

  /** The calls all responses asked for, in order. */
  function Requested(responses: seq<Response>): seq<Call> {
    if responses == [] then [] else Requested(responses[..|responses| - 1]) + responses[|responses| - 1].calls
  }

  function Names(calls: seq<Call>): seq<string> {
    seq(|calls|, i requires 0 <= i < |calls| => calls[i].name)
  }

  /** Usage is the sum over the responses. */
  ghost predicate Accounted(s: Session) {
    && Tokens(s.usage.input, s.usage.cached, s.usage.output, s.usage.reasoning) == Total(s.responses)
    && s.usage.turns == |s.responses|
  }

  /** Tools ran in the order requested, none twice, within the budget; every attempt is counted and named. */
  ghost predicate ToolsAccounted(budget: Budget, s: Session) {
    && s.executed <= Requested(s.responses)
    && |s.executed| <= budget.maxToolCalls
    && |s.executed| <= s.usage.toolCalls <= |Requested(s.responses)|
    && s.usage.toolNames == Names(Requested(s.responses)[..s.usage.toolCalls])
    && s.usage.toolCalls == |s.executed| + (if s.ending == Some(ToolBudget) then 1 else 0)
    && (s.ending == Some(ToolBudget) ==> |s.executed| == budget.maxToolCalls)
  }

  /** The model's answers to the histories it was given are the recorded responses. */
  ghost predicate Asked(world: World, s: Session) {
    && |s.responses| <= |s.histories|
    && (forall i :: 0 <= i < |s.responses| ==> world.adapter(s.histories[i]) == Answers(s.responses[i]))
  }

  /** A token budget is exceeded exactly when the session ended for it. */
  ghost predicate WithinTokens(budget: Budget, s: Session) {
    Exceeded(budget, s.usage) == if s.ending in {Some(InputTokens), Some(OutputTokens)} then s.ending else None
  }

  /** All accounts are right. */
  ghost predicate Booked(world: World, budget: Budget, s: Session) {
    Accounted(s) && WithinTokens(budget, s) && ToolsAccounted(budget, s) && Asked(world, s)
  }

  /** Every response's calls have been executed. */
  ghost predicate AllExecuted(s: Session) {
    |s.executed| == |Requested(s.responses)|
  }

  /** Between turns every request is answered; a completed session ended with a response that asks for nothing. */
  ghost predicate Standing(prompt: string, s: Session) {
    && (s.ending.None? ==> IsHistory(prompt, s.messages) && |s.responses| == |s.histories| && AllExecuted(s))
    && (s.ending == Some(Completed) ==> s.responses != [] && s.responses[|s.responses| - 1].calls == [] && AllExecuted(s))
  }

  /** The sessions with all accounts right. */
  ghost function KeptSessions(world: World, budget: Budget, prompt: string): iset<Session> {
    iset s: Session | Booked(world, budget, s) && Standing(prompt, s)
  }

  ghost predicate Kept(world: World, budget: Budget, prompt: string, s: Session) {
    s in KeptSessions(world, budget, prompt)
  }

  lemma KeptMeans(world: World, budget: Budget, prompt: string, s: Session)
    ensures Kept(world, budget, prompt, s) <==> Booked(world, budget, s) && Standing(prompt, s)
  {
  }

  /** The tool loop, `done` calls into the last response's: results so far follow that response's message. */
  ghost predicate MidExchange(prompt: string, messages: seq<Message>, response: Response, results: seq<string>) {
    && |results| <= |response.calls|
    && exists base :: IsHistory(prompt, base)
         && messages == base + [Assistant(response.text, response.calls)] + Results(response.calls, results)
  }

  lemma {:induction false} SpokenAgrees(prompt: string, exchanges: seq<Exchange>, longer: seq<Exchange>, n: nat)
    requires Answering(exchanges) && Answering(longer) && exchanges <= longer && n <= |exchanges|
    ensures Spoken(prompt, exchanges, n) == Spoken(prompt, longer, n)
  {
    if n != 0 {
      SpokenAgrees(prompt, exchanges, longer, n - 1);
    }
  }

  lemma SpokenIsHistory(prompt: string, exchanges: seq<Exchange>, messages: seq<Message>)
    requires Answering(exchanges) && Spoken(prompt, exchanges, |exchanges|) == messages
    ensures IsHistory(prompt, messages)
  {
  }

  lemma ExchangeAdds(prompt: string, exchanges: seq<Exchange>, x: Exchange, messages: seq<Message>)
    requires Answering(exchanges) && x.response.calls != [] && |x.results| == |x.response.calls|
    requires messages == Spoken(prompt, exchanges, |exchanges|) + [Assistant(x.response.text, x.response.calls)]
                         + Results(x.response.calls, x.results)
    ensures IsHistory(prompt, messages)
  {
    var longer := exchanges + [x];
    SpokenAgrees(prompt, exchanges, longer, |exchanges|);
    SpokenIsHistory(prompt, longer, messages);
  }

  lemma HistoryGrows(prompt: string, messages: seq<Message>, response: Response, results: seq<string>)
    requires MidExchange(prompt, messages, response, results)
    requires |results| == |response.calls| && response.calls != []
    ensures IsHistory(prompt, messages)
  {
    var base :| IsHistory(prompt, base)
      && messages == base + [Assistant(response.text, response.calls)] + Results(response.calls, results);
    var exchanges :| Answering(exchanges) && Spoken(prompt, exchanges, |exchanges|) == base;
    ExchangeAdds(prompt, exchanges, Exchange(response, results), messages);
  }

  lemma ResultsAppend(calls: seq<Call>, results: seq<string>, result: string)
    requires |results| < |calls|
    ensures Results(calls, results + [result])
         == Results(calls, results) + [Tool(calls[|results|].id, calls[|results|].name, result)]
  {
  }

  lemma ResultArrives(prompt: string, messages: seq<Message>, response: Response, results: seq<string>, result: string)
    requires MidExchange(prompt, messages, response, results) && |results| < |response.calls|
    ensures var call := response.calls[|results|];
            MidExchange(prompt, messages + [Tool(call.id, call.name, result)], response, results + [result])
  {
    var call := response.calls[|results|];
    var base :| IsHistory(prompt, base)
      && messages == base + [Assistant(response.text, response.calls)] + Results(response.calls, results);
    ResultsAppend(response.calls, results, result);
    assert messages + [Tool(call.id, call.name, result)]
        == base + [Assistant(response.text, response.calls)] + Results(response.calls, results + [result]);
  }

  /** The counters between two tool calls of the last response. */
  ghost predicate Counting(budget: Budget, s: Session, results: nat) {
    && s.responses != []
    && results <= |s.responses[|s.responses| - 1].calls|
    && |s.executed| == |Requested(s.responses)| - |s.responses[|s.responses| - 1].calls| + results
    && ToolsAccounted(budget, s)
  }

  lemma RequestedEnd(responses: seq<Response>, j: nat)
    requires responses != [] && j < |responses[|responses| - 1].calls|
    ensures var base := |Requested(responses)| - |responses[|responses| - 1].calls|;
            0 <= base && Requested(responses)[base + j] == responses[|responses| - 1].calls[j]
  {
  }

  lemma NamesNext(calls: seq<Call>, n: nat)
    requires n < |calls|
    ensures calls[..n + 1] == calls[..n] + [calls[n]]
    ensures Names(calls[..n + 1]) == Names(calls[..n]) + [calls[n].name]
  {
  }

  /** One tool call is attempted: counted and named, and executed unless over budget. */
  lemma AttemptCounts(budget: Budget, s: Session, s': Session, j: nat)
    requires s.ending.None? && Counting(budget, s, j) && j < |s.responses[|s.responses| - 1].calls|
    requires var call := s.responses[|s.responses| - 1].calls[j];
             && s'.responses == s.responses
             && s'.usage.toolCalls == s.usage.toolCalls + 1
             && s'.usage.toolNames == s.usage.toolNames + [call.name]
             && (if s'.usage.toolCalls > budget.maxToolCalls
                 then s'.executed == s.executed && s'.ending == Some(ToolBudget)
                 else s'.executed == s.executed + [call] && s'.ending in {None, Some(ToolFailed)})
    ensures ToolsAccounted(budget, s')
    ensures s'.ending != Some(ToolBudget) ==> Counting(budget, s', j + 1)
  {
    RequestedEnd(s.responses, j);
    var requested := Requested(s.responses);
    var n := s.usage.toolCalls;
    NamesNext(requested, n);
  }

  /** The last response is being worked on. */
  ghost predicate Underway(world: World, budget: Budget, s: Session, response: Response) {
    && s.ending.None? && s.responses != [] && response == s.responses[|s.responses| - 1] && response.calls != []
    && Accounted(s) && WithinTokens(budget, s) && Asked(world, s) && |s.responses| == |s.histories|
  }

  /** The sessions between two tool calls of the last response, `results` of which are answered. */
  ghost function WorkingSessions(world: World, budget: Budget, prompt: string, response: Response, results: seq<string>): iset<Session> {
    iset s: Session |
      Underway(world, budget, s, response) && MidExchange(prompt, s.messages, response, results) && Counting(budget, s, |results|)
  }

  ghost predicate Working(world: World, budget: Budget, prompt: string, s: Session, response: Response, results: seq<string>) {
    s in WorkingSessions(world, budget, prompt, response, results)
  }

  lemma AllAnswered(world: World, budget: Budget, prompt: string, s: Session, response: Response, results: seq<string>)
    requires Working(world, budget, prompt, s, response, results) && |results| == |response.calls|
    ensures Kept(world, budget, prompt, s)
  {
    HistoryGrows(prompt, s.messages, response, results);
  }

  /** The session after a call was counted, and executed unless over budget. */
  function Attempted(world: World, budget: Budget, s: Session, call: Call): Session {
    var counted := s.(usage := s.usage.(toolCalls := s.usage.toolCalls + 1, toolNames := s.usage.toolNames + [call.name]));
    if counted.usage.toolCalls > budget.maxToolCalls then counted.(ending := Some(ToolBudget))
    else
      var executed := counted.(executed := s.executed + [call]);
      match world.tool(s.messages, call)
      case None => executed.(ending := Some(ToolFailed))
      case Some(result) => executed.(messages := s.messages + [Tool(call.id, call.name, result)])
  }

  lemma UseToolsUnfolds(world: World, budget: Budget, s: Session, calls: seq<Call>)
    requires s.ending.None? && calls != []
    ensures var s' := Attempted(world, budget, s, calls[0]);
            UseTools(world, budget, s, calls) == if s'.ending.Some? then s' else UseTools(world, budget, s', calls[1..])
  {
  }

  /** Tools cost no tokens and ask the model nothing. */
  lemma AttemptCosts(world: World, budget: Budget, s: Session, call: Call)
    requires s.ending.None? && Accounted(s) && WithinTokens(budget, s) && Asked(world, s)
    ensures var s' := Attempted(world, budget, s, call);
            Accounted(s') && WithinTokens(budget, s') && Asked(world, s') && s'.responses == s.responses && s'.histories == s.histories
  {
  }

  /** The next call was attempted: all accounts are kept, or the work goes on. */
  ghost predicate AttemptIsKept(world: World, budget: Budget, prompt: string, s: Session, response: Response, results: seq<string>)
    requires |results| < |response.calls|
  {
    var call := response.calls[|results|];
    var s' := Attempted(world, budget, s, call);
    if s'.ending.Some? then Kept(world, budget, prompt, s')
    else
      world.tool(s.messages, call).Some?
      && Working(world, budget, prompt, s', response, results + [world.tool(s.messages, call).value])
  }

  lemma AttemptEnds(world: World, budget: Budget, prompt: string, s: Session)
    requires s.ending in {Some(ToolBudget), Some(ToolFailed)} && Booked(world, budget, s)
    ensures Kept(world, budget, prompt, s)
  {
    KeptMeans(world, budget, prompt, s);
  }

  lemma AttemptGoesOn(
    world: World, budget: Budget, prompt: string, s: Session, response: Response, results: seq<string>)
    requires Underway(world, budget, s, response) && MidExchange(prompt, s.messages, response, results)
    requires Counting(budget, s, |results|)
    ensures Working(world, budget, prompt, s, response, results)
  {
  }

  lemma AttemptKept(world: World, budget: Budget, prompt: string, s: Session, response: Response, results: seq<string>)
    requires Working(world, budget, prompt, s, response, results) && |results| < |response.calls|
    ensures AttemptIsKept(world, budget, prompt, s, response, results)
  {
    var call := response.calls[|results|];
    var s' := Attempted(world, budget, s, call);
    AttemptCosts(world, budget, s, call);
    AttemptCounts(budget, s, s', |results|);
    if s'.ending.Some? {
      AttemptEnds(world, budget, prompt, s');
    } else {
      var result := world.tool(s.messages, call).value;
      ResultArrives(prompt, s.messages, response, results, result);
      AttemptGoesOn(world, budget, prompt, s', response, results + [result]);
    }
  }

  lemma DropOne(calls: seq<Call>, n: nat)
    requires n < |calls|
    ensures calls[n..] != [] && calls[n..][0] == calls[n] && calls[n..][1..] == calls[n + 1..]
  {
  }

  /** The tool loop as a whole. */
  lemma {:induction false} ToolsKept(
    world: World, budget: Budget, prompt: string, s: Session, response: Response, results: seq<string>) returns (end: Session)
    requires Working(world, budget, prompt, s, response, results) && |results| <= |response.calls|
    ensures end == UseTools(world, budget, s, response.calls[|results|..])
    ensures Kept(world, budget, prompt, end)
    decreases |response.calls| - |results|, 1
  {
    if |results| == |response.calls| {
      AllAnswered(world, budget, prompt, s, response, results);
      end := s;
    } else {
      AttemptKept(world, budget, prompt, s, response, results);
      end := ToolsGoOn(world, budget, prompt, s, response, results);
    }
  }

  /** After one more attempt the session has ended, or there are more. */
  lemma {:induction false} ToolsGoOn(
    world: World, budget: Budget, prompt: string, s: Session, response: Response, results: seq<string>) returns (end: Session)
    requires |results| < |response.calls| && s.ending.None?
    requires AttemptIsKept(world, budget, prompt, s, response, results)
    ensures end == UseTools(world, budget, s, response.calls[|results|..])
    ensures Kept(world, budget, prompt, end)
    decreases |response.calls| - |results|, 0
  {
    var call := response.calls[|results|];
    var s' := Attempted(world, budget, s, call);
    DropOne(response.calls, |results|);
    UseToolsUnfolds(world, budget, s, response.calls[|results|..]);
    if s'.ending.Some? {
      end := s';
    } else {
      end := ToolsKept(world, budget, prompt, s', response, results + [world.tool(s.messages, call).value]);
    }
  }

  lemma ChargeIsAccounted(s: Session, response: Response, charged: Session)
    requires Accounted(s) && charged.usage == Charge(s.usage, response) && charged.responses == s.responses + [response]
    ensures Accounted(charged)
  {
    TotalAppend(s.responses, response);
  }

  lemma ChargeIsAsked(world: World, s: Session, response: Response, charged: Session)
    requires Asked(world, s) && |s.responses| == |s.histories| && world.adapter(s.messages) == Answers(response)
    requires charged.histories == s.histories + [s.messages] && charged.responses == s.responses + [response]
    ensures Asked(world, charged)
  {
  }

  /** A response is charged. */
  lemma ChargeKept(world: World, budget: Budget, prompt: string, s: Session, response: Response, charged: Session)
    requires Kept(world, budget, prompt, s) && s.ending.None?
    requires world.adapter(s.messages) == Answers(response)
    requires charged == s.(histories := s.histories + [s.messages], usage := Charge(s.usage, response),
                           responses := s.responses + [response])
    ensures Accounted(charged) && Asked(world, charged)
    ensures |charged.responses| == |charged.histories|
  {
    ChargeIsAccounted(s, response, charged);
    ChargeIsAsked(world, s, response, charged);
  }

  /** None of its calls has been attempted yet. */
  lemma ChargeCounts(budget: Budget, s: Session, response: Response, charged: Session)
    requires ToolsAccounted(budget, s) && s.ending.None? && |s.executed| == |Requested(s.responses)|
    requires charged.responses == s.responses + [response] && charged.ending.None? && charged.executed == s.executed
    requires charged.usage.toolCalls == s.usage.toolCalls && charged.usage.toolNames == s.usage.toolNames
    ensures Counting(budget, charged, 0)
  {
    assert charged.responses[..|s.responses|] == s.responses;
    assert Requested(charged.responses) == Requested(s.responses) + response.calls;
    assert Requested(charged.responses)[..s.usage.toolCalls] == Requested(s.responses)[..s.usage.toolCalls];
  }

  lemma ExchangeOpens(prompt: string, messages: seq<Message>, response: Response)
    requires IsHistory(prompt, messages)
    ensures MidExchange(prompt, messages + [Assistant(response.text, response.calls)], response, [])
  {
    var said := messages + [Assistant(response.text, response.calls)];
    assert said == said + Results(response.calls, []);
  }

  /** The response as a whole: out of budget, done, or its tools. */
  lemma AnswerKept(world: World, budget: Budget, prompt: string, s: Session, response: Response) returns (end: Session)
    requires Kept(world, budget, prompt, s) && s.ending.None?
    requires world.adapter(s.messages) == Answers(response)
    ensures end == Answered(world, budget, s.(histories := s.histories + [s.messages]), response)
    ensures Kept(world, budget, prompt, end)
  {
    var charged := s.(histories := s.histories + [s.messages], usage := Charge(s.usage, response),
                      responses := s.responses + [response]);
    ChargeKept(world, budget, prompt, s, response, charged);
    ChargeCounts(budget, s, response, charged);
    if Exceeded(budget, charged.usage).Some? {
      end := charged.(ending := Exceeded(budget, charged.usage));
      EndingKept(world, budget, prompt, charged, end.ending.value);
    } else {
      var noted := if response.text == "" then charged else charged.(summaries := charged.summaries + [response.text]);
      if response.calls == [] {
        end := noted.(ending := Some(Completed));
        EndingKept(world, budget, prompt, noted, Completed);
      } else {
        KeptIsHistory(world, budget, prompt, s);
        end := AnswerAsks(world, budget, prompt, noted, response);
      }
    }
  }

  /** The assistant's message is added, and none of its calls attempted yet. */
  lemma AskingWorks(world: World, budget: Budget, prompt: string, noted: Session, response: Response, asking: Session)
    requires Underway(world, budget, noted, response) && Counting(budget, noted, 0) && IsHistory(prompt, noted.messages)
    requires asking == noted.(messages := noted.messages + [Assistant(response.text, response.calls)])
    ensures Working(world, budget, prompt, asking, response, [])
  {
    ExchangeOpens(prompt, noted.messages, response);
    AttemptGoesOn(world, budget, prompt, asking, response, []);
  }

  lemma AnswerAsks(world: World, budget: Budget, prompt: string, noted: Session, response: Response) returns (end: Session)
    requires Underway(world, budget, noted, response) && Counting(budget, noted, 0) && IsHistory(prompt, noted.messages)
    ensures end == UseTools(world, budget, noted.(messages := noted.messages + [Assistant(response.text, response.calls)]),
                            response.calls)
    ensures Kept(world, budget, prompt, end)
  {
    var asking := noted.(messages := noted.messages + [Assistant(response.text, response.calls)]);
    AskingWorks(world, budget, prompt, noted, response, asking);
    assert response.calls[0..] == response.calls;
    end := ToolsKept(world, budget, prompt, asking, response, []);
  }

  /** Stopping for want of tokens, or because no tool was asked for, leaves the accounts as they are. */
  lemma EndingKept(world: World, budget: Budget, prompt: string, s: Session, ending: Ending)
    requires Accounted(s) && Asked(world, s) && Counting(budget, s, 0) && s.ending.None?
    requires Exceeded(budget, s.usage) == Some(ending)
             || (ending == Completed && Exceeded(budget, s.usage).None? && s.responses[|s.responses| - 1].calls == [])
    ensures Kept(world, budget, prompt, s.(ending := Some(ending)))
  {
  }

  /** An ending for which nothing was charged or executed. */
  predicate IsPlain(ending: Ending) {
    ending.WallTime? || ending.AdapterFailed? || ending.TurnBudget?
  }

  /** The session ends so, perhaps after a question that got no answer. */
  lemma PlainEndIsBooked(world: World, budget: Budget, s: Session, s': Session)
    requires Booked(world, budget, s) && s.ending.None? && s'.ending.Some? && IsPlain(s'.ending.value)
    requires s' == s.(ending := s'.ending, histories := s'.histories) && s.histories <= s'.histories
    ensures Booked(world, budget, s')
  {
  }

  lemma PlainEndIsKept(world: World, budget: Budget, prompt: string, s: Session, s': Session)
    requires Kept(world, budget, prompt, s) && s.ending.None? && s'.ending.Some? && IsPlain(s'.ending.value)
    requires s' == s.(ending := s'.ending, histories := s'.histories) && s.histories <= s'.histories
    ensures Kept(world, budget, prompt, s')
  {
    KeptMeans(world, budget, prompt, s);
    PlainEndIsBooked(world, budget, s, s');
    KeptMeans(world, budget, prompt, s');
  }

  /** No answer, so nothing is charged. */
  lemma UnansweredKept(world: World, budget: Budget, prompt: string, s: Session)
    requires Kept(world, budget, prompt, s) && s.ending.None?
    requires (budget.maxWall != 0 && world.late(s.messages)) || world.adapter(s.messages).Fails?
    ensures Kept(world, budget, prompt, TakeTurn(world, budget, s))
  {
    PlainEndIsKept(world, budget, prompt, s, TakeTurn(world, budget, s));
  }

  lemma TurnKept(world: World, budget: Budget, prompt: string, s: Session)
    requires Kept(world, budget, prompt, s) && s.ending.None?
    ensures Kept(world, budget, prompt, TakeTurn(world, budget, s))
  {
    if (budget.maxWall != 0 && world.late(s.messages)) || world.adapter(s.messages).Fails? {
      UnansweredKept(world, budget, prompt, s);
    } else {
      var _ := AnswerKept(world, budget, prompt, s, world.adapter(s.messages).response);
    }
  }

  lemma {:induction false} ToolsAskNothing(world: World, budget: Budget, s: Session, calls: seq<Call>)
    requires s.ending.None?
    ensures UseTools(world, budget, s, calls).histories == s.histories
    ensures UseTools(world, budget, s, calls).ending != Some(TurnBudget)
    decreases |calls|
  {
    if calls != [] {
      var s' := Attempted(world, budget, s, calls[0]);
      UseToolsUnfolds(world, budget, s, calls);
      if s'.ending.None? {
        ToolsAskNothing(world, budget, s', calls[1..]);
      }
    }
  }

  /** A turn gives the model the messages so far, or nothing. */
  lemma TurnAsksOnce(world: World, budget: Budget, s: Session)
    requires s.ending.None?
    ensures TakeTurn(world, budget, s).histories in {s.histories, s.histories + [s.messages]}
    ensures TakeTurn(world, budget, s).ending.None? ==> |TakeTurn(world, budget, s).histories| == |s.histories| + 1
    ensures TakeTurn(world, budget, s).ending != Some(TurnBudget)
  {
    if !(budget.maxWall != 0 && world.late(s.messages)) && world.adapter(s.messages).Answers? {
      var response := world.adapter(s.messages).response;
      var asked := s.(histories := s.histories + [s.messages]);
      var charged := asked.(usage := Charge(s.usage, response), responses := s.responses + [response]);
      var noted := if response.text == "" then charged else charged.(summaries := charged.summaries + [response.text]);
      ToolsAskNothing(world, budget, noted.(messages := noted.messages + [Assistant(response.text, response.calls)]), response.calls);
    }
  }

  ghost predicate AllHistories(prompt: string, histories: seq<seq<Message>>) {
    forall i :: 0 <= i < |histories| ==> IsHistory(prompt, histories[i])
  }

  lemma OneMoreHistory(prompt: string, histories: seq<seq<Message>>, messages: seq<Message>)
    requires AllHistories(prompt, histories) && IsHistory(prompt, messages)
    ensures AllHistories(prompt, histories + [messages])
  {
  }

  lemma KeptIsHistory(world: World, budget: Budget, prompt: string, s: Session)
    requires Kept(world, budget, prompt, s) && s.ending.None?
    ensures IsHistory(prompt, s.messages)
  {
  }

  /** Each turn so far asked the model once, with a complete history. */
  ghost predicate Turned(prompt: string, s: Session, asked: nat) {
    && AllHistories(prompt, s.histories) && |s.histories| <= asked
    && (s.ending.None? ==> |s.histories| == asked)
  }

  /** The sessions that the loop can have between turns, and at the end. */
  ghost function SaneSessions(world: World, budget: Budget, prompt: string, asked: nat): iset<Session> {
    iset s: Session | Kept(world, budget, prompt, s) && Turned(prompt, s, asked)
  }

  ghost predicate Sane(world: World, budget: Budget, prompt: string, s: Session, asked: nat) {
    s in SaneSessions(world, budget, prompt, asked)
  }

  lemma OutOfTurns(world: World, budget: Budget, prompt: string, s: Session, asked: nat)
    requires Sane(world, budget, prompt, s, asked) && s.ending.None?
    ensures Sane(world, budget, prompt, s.(ending := Some(TurnBudget)), asked) && |s.histories| == asked
  {
    PlainEndIsKept(world, budget, prompt, s, s.(ending := Some(TurnBudget)));
  }

  lemma TurnIsSane(world: World, budget: Budget, prompt: string, s: Session, s': Session, asked: nat)
    requires Sane(world, budget, prompt, s, asked) && s.ending.None?
    requires s' == TakeTurn(world, budget, s)
    ensures Sane(world, budget, prompt, s', asked + 1) && s'.ending != Some(TurnBudget)
  {
    TurnKept(world, budget, prompt, s);
    TurnAsksOnce(world, budget, s);
    KeptIsHistory(world, budget, prompt, s);
    OneMoreHistory(prompt, s.histories, s.messages);
    TurnAdds(world, budget, prompt, s, s', asked);
  }

  lemma TurnAdds(world: World, budget: Budget, prompt: string, s: Session, s': Session, asked: nat)
    requires Kept(world, budget, prompt, s') && |s.histories| == asked
    requires s'.histories in {s.histories, s.histories + [s.messages]}
    requires AllHistories(prompt, s.histories) && AllHistories(prompt, s.histories + [s.messages])
    requires s'.ending.None? ==> |s'.histories| == |s.histories| + 1
    ensures Sane(world, budget, prompt, s', asked + 1)
  {
  }

  /** What each turn keeps, counting the questions, holds of the whole loop. */
  lemma {:induction false} RepeatKeeps(take: Session --> Session, good: nat -> iset<Session>, s: Session, left: nat, asked: nat)
    requires s.ending.None? && s in good(asked)
    requires forall x: Session :: x.ending.None? ==> take.requires(x)
    requires forall x: Session, n: nat :: x.ending.None? && x in good(n) ==> take(x) in good(n + 1) && take(x).ending != Some(TurnBudget)
    ensures var end := Repeat(take, s, left);
      if end.ending != Some(TurnBudget) then end.ending.Some? && exists n: nat :: n <= asked + left && end in good(n)
      else exists x: Session :: x.ending.None? && x in good(asked + left) && end == x.(ending := Some(TurnBudget))
    decreases left
  {
    if left > 0 {
      assert take(s) in good(asked + 1);
      if take(s).ending.None? {
        RepeatKeeps(take, good, take(s), left - 1, asked + 1);
      }
    }
  }

  /** An ended session does not mind that more questions could have been asked. */
  lemma SaneLonger(world: World, budget: Budget, prompt: string, s: Session, asked: nat, more: nat)
    requires Sane(world, budget, prompt, s, asked) && s.ending.Some? && asked <= more
    ensures Sane(world, budget, prompt, s, more)
  {
  }

  lemma StartIsKept(world: World, budget: Budget, prompt: string)
    ensures Kept(world, budget, prompt, Start(prompt))
  {
    StartIsBooked(world, budget, prompt);
    SpokenIsHistory(prompt, [], Start(prompt).messages);
    KeptMeans(world, budget, prompt, Start(prompt));
  }

  lemma StartIsBooked(world: World, budget: Budget, prompt: string)
    ensures Booked(world, budget, Start(prompt))
  {
  }

  lemma StartIsSane(world: World, budget: Budget, prompt: string)
    ensures Sane(world, budget, prompt, Start(prompt), 0)
  {
    StartIsKept(world, budget, prompt);
  }

  /**
   * A whole run: at most `maxTurns` model calls and `maxToolCalls` executed tools, the sums are right, and every
   * history the model sees is complete.
   */
  lemma RunIsBudgeted(world: World, budget: Budget, prompt: string) returns (s: Session)
    ensures s == Turns(world, budget, Start(prompt), budget.maxTurns)
    ensures s.ending.Some? && Sane(world, budget, prompt, s, budget.maxTurns)
    ensures s.ending == Some(TurnBudget) ==> |s.histories| == budget.maxTurns
  {
    StartIsSane(world, budget, prompt);
    var take := (x: Session) requires x.ending.None? => TakeTurn(world, budget, x);
    var good := (n: nat) => SaneSessions(world, budget, prompt, n);
    forall x: Session, n: nat | x.ending.None? && x in good(n) ensures take(x) in good(n + 1) && take(x).ending != Some(TurnBudget) {
      TurnIsSane(world, budget, prompt, x, take(x), n);
    }
    RepeatKeeps(take, good, Start(prompt), budget.maxTurns, 0);
    s := Turns(world, budget, Start(prompt), budget.maxTurns);
    if s.ending == Some(TurnBudget) {
      var x: Session :| x.ending.None? && x in good(budget.maxTurns) && s == x.(ending := Some(TurnBudget));
      OutOfTurns(world, budget, prompt, x, budget.maxTurns);
    } else {
      var n: nat :| n <= budget.maxTurns && s in good(n);
      SaneLonger(world, budget, prompt, s, n, budget.maxTurns);
    }
  }

  // ---- what the provider receives ----

  function ResultBlocks(calls: seq<Call>, results: seq<string>): seq<Block>
    requires |results| <= |calls|
  {
    seq(|results|, i requires 0 <= i < |results| => ToolResult(calls[i].id, results[i]))
  }

  lemma OneResult(before: seq<Message>, message: Message)
    requires message.Tool?
    ensures Translated(before + [message]) == Extend(Translated(before), false, [ToolResult(message.callId, message.content)])
  {
    assert (before + [message])[..|before|] == before;
  }

  /** The first result after the assistant's turn opens a turn. */
  lemma GatherFirst(said: seq<Message>, calls: seq<Call>, result: string)
    requires calls != []
    requires var turns := Translated(said); turns != [] && turns[|turns| - 1].assistant
    ensures Translated(said + Results(calls, [result])) == Translated(said) + [Turn(false, ResultBlocks(calls, [result]))]
  {
    var message := Tool(calls[0].id, calls[0].name, result);
    assert Results(calls, [result]) == [message];
    assert ResultBlocks(calls, [result]) == [ToolResult(calls[0].id, result)];
    OneResult(said, message);
  }

  lemma AppendTwice<T>(a: seq<T>, b: seq<T>, c: T)
    ensures a + (b + [c]) == a + b + [c]
  {
  }

  lemma ResultBlocksAppend(calls: seq<Call>, results: seq<string>, result: string)
    requires |results| < |calls|
    ensures ResultBlocks(calls, results + [result]) == ResultBlocks(calls, results) + [ToolResult(calls[|results|].id, result)]
  {
  }

  /** The next one extends it. */
  lemma GatherNext(said: seq<Message>, calls: seq<Call>, results: seq<string>, result: string)
    requires |results| < |calls|
    requires Translated(said + Results(calls, results)) == Translated(said) + [Turn(false, ResultBlocks(calls, results))]
    ensures Translated(said + Results(calls, results + [result]))
         == Translated(said) + [Turn(false, ResultBlocks(calls, results + [result]))]
  {
    var message := Tool(calls[|results|].id, calls[|results|].name, result);
    ResultsAppend(calls, results, result);
    AppendTwice(said, Results(calls, results), message);
    ResultBlocksAppend(calls, results, result);
    OneResult(said + Results(calls, results), message);
    ExtendLast(Translated(said), ResultBlocks(calls, results), [ToolResult(message.callId, result)]);
  }

  lemma ExtendLast(front: seq<Turn>, blocks: seq<Block>, more: seq<Block>)
    ensures Extend(front + [Turn(false, blocks)], false, more) == front + [Turn(false, blocks + more)]
  {
    assert (front + [Turn(false, blocks)])[..|front|] == front;
  }

  /** The results of one exchange gather in one turn after the assistant's. */
  lemma {:induction false} ResultsGather(said: seq<Message>, calls: seq<Call>, results: seq<string>)
    requires 0 < |results| <= |calls|
    requires var turns := Translated(said); turns != [] && turns[|turns| - 1].assistant
    ensures Translated(said + Results(calls, results)) == Translated(said) + [Turn(false, ResultBlocks(calls, results))]
    decreases |results|
  {
    var front, result := results[..|results| - 1], results[|results| - 1];
    assert results == front + [result];
    if front == [] {
      GatherFirst(said, calls, result);
    } else {
      ResultsGather(said, calls, front);
      GatherNext(said, calls, front, result);
    }
  }

  /** The ids of the requested tools, and of the returned results. */
  function UseIds(blocks: seq<Block>): seq<string> {
    if blocks == [] then [] else (if blocks[0].ToolUse? then [blocks[0].id] else []) + UseIds(blocks[1..])
  }

  function ResultIds(blocks: seq<Block>): seq<string> {
    if blocks == [] then [] else (if blocks[0].ToolResult? then [blocks[0].useId] else []) + ResultIds(blocks[1..])
  }

  function CallIds(calls: seq<Call>): seq<string> {
    if calls == [] then [] else [calls[0].id] + CallIds(calls[1..])
  }

  lemma {:induction false} UseBlockIds(calls: seq<Call>)
    ensures UseIds(UseBlocks(calls)) == CallIds(calls)
  {
    if calls != [] {
      UseBlockIds(calls[1..]);
      assert UseBlocks(calls)[1..] == UseBlocks(calls[1..]);
    }
  }

  lemma AssistantIds(text: string, calls: seq<Call>)
    ensures UseIds(Blocks(Assistant(text, calls))) == CallIds(calls)
  {
    UseBlockIds(calls);
    if text != "" {
      assert ([Text(text)] + UseBlocks(calls))[1..] == UseBlocks(calls);
    } else {
      assert [] + UseBlocks(calls) == UseBlocks(calls);
    }
  }

  lemma {:induction false} ResultBlockIds(calls: seq<Call>, results: seq<string>)
    requires |results| == |calls|
    ensures ResultIds(ResultBlocks(calls, results)) == CallIds(calls)
  {
    if calls != [] {
      ResultBlockIds(calls[1..], results[1..]);
      assert ResultBlocks(calls, results)[1..] == ResultBlocks(calls[1..], results[1..]);
    }
  }

  /** Starts and ends with the user, and each assistant turn is answered, id by id, by the turn after it. */
  ghost predicate Paired(turns: seq<Turn>) {
    && turns != [] && !turns[0].assistant && !turns[|turns| - 1].assistant
    && ResultIds(turns[0].blocks) == []
    && forall i :: 0 <= i < |turns| - 1 && turns[i].assistant ==>
         UseIds(turns[i].blocks) != [] && UseIds(turns[i].blocks) == ResultIds(turns[i + 1].blocks)
  }

  lemma PairAdds(turns: seq<Turn>, asked: Turn, answered: Turn)
    requires Paired(turns) && asked.assistant && !answered.assistant
    requires UseIds(asked.blocks) != [] && UseIds(asked.blocks) == ResultIds(answered.blocks)
    ensures Paired(turns + [asked] + [answered])
  {
  }

  /** An answered request for tools adds two turns. */
  lemma ExchangeTranslates(before: seq<Message>, x: Exchange)
    requires Paired(Translated(before)) && x.response.calls != [] && |x.results| == |x.response.calls|
    ensures Translated(before + [Assistant(x.response.text, x.response.calls)] + Results(x.response.calls, x.results))
         == Translated(before) + [Turn(true, Blocks(Assistant(x.response.text, x.response.calls)))]
            + [Turn(false, ResultBlocks(x.response.calls, x.results))]
  {
    var asking := Assistant(x.response.text, x.response.calls);
    var said := before + [asking];
    assert said[..|before|] == before;
    ResultsGather(said, x.response.calls, x.results);
  }

  lemma ExchangeIsPaired(before: seq<Message>, x: Exchange)
    requires Paired(Translated(before)) && x.response.calls != [] && |x.results| == |x.response.calls|
    ensures Paired(Translated(before + [Assistant(x.response.text, x.response.calls)] + Results(x.response.calls, x.results)))
  {
    var asking := Assistant(x.response.text, x.response.calls);
    ExchangeTranslates(before, x);
    AssistantIds(x.response.text, x.response.calls);
    ResultBlockIds(x.response.calls, x.results);
    PairAdds(Translated(before), Turn(true, Blocks(asking)), Turn(false, ResultBlocks(x.response.calls, x.results)));
  }

  lemma ExchangeIsNotEmpty(turns: seq<Turn>, x: Exchange)
    requires x.response.calls != [] && |x.results| == |x.response.calls|
    ensures var asked := Turn(true, Blocks(Assistant(x.response.text, x.response.calls)));
            NoEmptyTurn(turns + [asked] + [Turn(false, ResultBlocks(x.response.calls, x.results))]) <==> NoEmptyTurn(turns)
  {
    var asked := Turn(true, Blocks(Assistant(x.response.text, x.response.calls)));
    var answered := Turn(false, ResultBlocks(x.response.calls, x.results));
    assert asked.blocks != [] && answered.blocks != [];
    forall turn ensures turn in turns + [asked] + [answered] <==> turn in turns || turn == asked || turn == answered {}
  }

  ghost predicate Filled(messages: seq<Message>) {
    NoEmptyTurn(Translated(messages))
  }

  lemma ExchangeKeepsEmptiness(before: seq<Message>, x: Exchange)
    requires Paired(Translated(before)) && x.response.calls != [] && |x.results| == |x.response.calls|
    ensures Filled(before + [Assistant(x.response.text, x.response.calls)] + Results(x.response.calls, x.results)) <==> Filled(before)
  {
    ExchangeTranslates(before, x);
    ExchangeIsNotEmpty(Translated(before), x);
  }

  lemma OpeningIsNotEmpty(prompt: string)
    ensures Filled(Opening(prompt)) <==> prompt != ""
  {
    OpeningTranslates(prompt);
    assert [Turn(false, Blocks(User(prompt)))][0].blocks != [] <==> prompt != "";
  }

  lemma SpokenNext(prompt: string, exchanges: seq<Exchange>, n: nat)
    requires Answering(exchanges) && 0 < n <= |exchanges|
    ensures var x := exchanges[n - 1];
            Spoken(prompt, exchanges, n) ==
            Spoken(prompt, exchanges, n - 1) + [Assistant(x.response.text, x.response.calls)] + Results(x.response.calls, x.results)
  {
  }

  lemma StaysFilled(prompt: string, exchanges: seq<Exchange>, n: nat)
    requires Answering(exchanges) && 0 < n <= |exchanges|
    ensures Filled(Spoken(prompt, exchanges, n)) <==> Filled(Spoken(prompt, exchanges, n - 1))
  {
    SpokenIsPaired(prompt, exchanges, n - 1);
    SpokenNext(prompt, exchanges, n);
    ExchangeKeepsEmptiness(Spoken(prompt, exchanges, n - 1), exchanges[n - 1]);
  }

  lemma {:induction false} SpokenIsFilled(prompt: string, exchanges: seq<Exchange>, n: nat)
    requires Answering(exchanges) && n <= |exchanges|
    ensures Filled(Spoken(prompt, exchanges, n)) <==> prompt != ""
  {
    if n == 0 {
      OpeningIsNotEmpty(prompt);
    } else {
      SpokenIsFilled(prompt, exchanges, n - 1);
      StaysFilled(prompt, exchanges, n);
    }
  }

  /**
   * The translation of a history the model is asked with has no empty turn exactly when the prompt is not empty, and then
   * it is the only alternating list of non-empty turns with the history's blocks.
   */
  lemma HistoryTranslationIsUnique(world: World, budget: Budget, prompt: string, i: nat)
    requires i < |Turns(world, budget, Start(prompt), budget.maxTurns).histories|
    ensures var messages := Turns(world, budget, Start(prompt), budget.maxTurns).histories[i];
            && (NoEmptyTurn(Translated(messages)) <==> prompt != "")
            && (prompt != "" ==>
                  forall turns :: Alternates(turns) && NoEmptyTurn(turns) && Tagged(turns) == TaggedBlocks(messages)
                                  <==> turns == Translated(messages))
  {
    var s := RunIsBudgeted(world, budget, prompt);
    assert IsHistory(prompt, s.histories[i]);
    UniqueFor(prompt, s.histories[i]);
  }

  lemma UniqueFor(prompt: string, messages: seq<Message>)
    requires IsHistory(prompt, messages)
    ensures NoEmptyTurn(Translated(messages)) <==> prompt != ""
    ensures prompt != "" ==>
              forall turns :: Alternates(turns) && NoEmptyTurn(turns) && Tagged(turns) == TaggedBlocks(messages)
                              <==> turns == Translated(messages)
  {
    var exchanges :| Answering(exchanges) && Spoken(prompt, exchanges, |exchanges|) == messages;
    SpokenIsFilled(prompt, exchanges, |exchanges|);
    TranslationKeepsBlocks(messages);
    if prompt != "" {
      forall turns | Alternates(turns) && NoEmptyTurn(turns) && Tagged(turns) == TaggedBlocks(messages)
        ensures turns == Translated(messages)
      {
        AlternatingFormIsUnique(turns, Translated(messages));
      }
    }
  }

  lemma {:induction false} SpokenIsPaired(prompt: string, exchanges: seq<Exchange>, n: nat)
    requires Answering(exchanges) && n <= |exchanges|
    ensures Paired(Translated(Spoken(prompt, exchanges, n)))
  {
    if n == 0 {
      OpeningTranslates(prompt);
    } else {
      SpokenIsPaired(prompt, exchanges, n - 1);
      ExchangeIsPaired(Spoken(prompt, exchanges, n - 1), exchanges[n - 1]);
    }
  }

  lemma OpeningTranslates(prompt: string)
    ensures Translated(Opening(prompt)) == [Turn(false, Blocks(User(prompt)))]
    ensures ResultIds(Blocks(User(prompt))) == []
  {
    var opening := Opening(prompt);
    assert opening[..1] == [opening[0]];
    assert opening[..1][..0] == [];
    assert Translated(opening[..1]) == [];
    if prompt != "" {
      assert Blocks(User(prompt))[1..] == [];
    }
  }

  /** Every history the model is asked with: alternating turns from user to user, all tool uses answered in order. */
  lemma HistoriesArePaired(world: World, budget: Budget, prompt: string, i: nat)
    requires i < |Turns(world, budget, Start(prompt), budget.maxTurns).histories|
    ensures var turns := Translated(Turns(world, budget, Start(prompt), budget.maxTurns).histories[i]);
            Paired(turns) && Alternates(turns)
  {
    var s := RunIsBudgeted(world, budget, prompt);
    assert IsHistory(prompt, s.histories[i]);
    HistoryIsPaired(prompt, s.histories[i]);
  }

  lemma HistoryIsPaired(prompt: string, messages: seq<Message>)
    requires IsHistory(prompt, messages)
    ensures Paired(Translated(messages)) && Alternates(Translated(messages))
  {
    var exchanges :| Answering(exchanges) && Spoken(prompt, exchanges, |exchanges|) == messages;
    SpokenIsPaired(prompt, exchanges, |exchanges|);
    TranslationKeepsBlocks(messages);
  }
}
