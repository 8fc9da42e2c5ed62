/**
 * The agentic loop of `run_autonomous_search` as functions: the conversation it
 * exchanges with the model, the tool-result batch of one iteration, the
 * activity events it emits, and the outcome of a run. The model is an oracle
 * from the conversation so far to its next response (the system prompt, the
 * tool menu and the sampling settings are the same on every call).
 */
module AgentLoop {
  import opened Wrappers
  import opened PyValue
  import opened ClinicalTrialsApi
  import opened MockTools

  /** The safety limit on model calls per run. */
  const MaxIterations := 10
  const LimitError := "Max iterations reached"
  /** The stop reason with which the model asks for tools. */
  const ToolUseStop := "tool_use"

  /** One content block of a model response. */
  datatype Block =
    | Text(text: string)
    | ToolUse(id: string, name: string, input: Dict)

  datatype Response = Response(stopReason: string, content: seq<Block>)

  /** The model, as the loop sees it. */
  type Model = seq<Message> -> Response

  /** The tool executor: a tool name and input to the handler's output or its exception. */
  type Executor = (string, Dict) -> Result<ToolOutput, PyError>

  /** The executor of the source: `process_tool_call` over the registry client. */
  function Executes(registry: Registry): Executor {
    (name: string, input: Dict) => Dispatch(name, input, registry)
  }

  /** A `tool_result` item; its content is the handler's output (serialised in the source). */
  datatype ToolResultEntry = ToolResultEntry(toolUseId: string, content: ToolOutput)

  datatype Content =
      /** the user prompt, built from the patient criteria */
    | Prompt(criteria: Value)
    | Blocks(blocks: seq<Block>)
    | Results(results: seq<ToolResultEntry>)

  datatype Role = User | Assistant

  datatype Message = Message(role: Role, content: Content)

  /** An activity event without its timestamp. */
  datatype Event =
    | Start(patientCriteria: Value)
    | Iteration(iteration: nat)
    | Thinking(text: string, iteration: nat)
    | ToolCall(toolName: string, toolInput: Dict, iteration: nat)
    | ToolResult(toolName: string)
    | Complete(iterations: nat)

  /** The `type` each event carries. */
  function EventType(e: Event): string {
    match e
    case Start(_) => "start"
    case Iteration(_) => "iteration"
    case Thinking(_, _) => "thinking"
    case ToolCall(_, _, _) => "tool_call"
    case ToolResult(_) => "tool_result"
    case Complete(_) => "complete"
  }

  /** The `content` text each event carries. */
  function EventContent(e: Event): string {
    match e
    case Start(_) => "Agent initialized and starting autonomous search"
    case Iteration(n) => "Starting iteration " + IntToString(n)
    case Thinking(t, _) => t
    case ToolCall(name, _, _) => "Calling tool: " + name
    case ToolResult(name) => "Tool " + name + " completed"
    case Complete(_) => "Agent completed autonomous search"
  }

  /**
   * The dict `_log_activity` hands the callback for an event: its type, its content
   * and its keyword arguments, without the timestamp and the `result_summary`.
   */
  function Activity(e: Event): (d: Dict)
    ensures |d| >= 3 && d[0] == ("type", VStr(EventType(e))) && d[1] == ("content", VStr(EventContent(e)))
  {
    [("type", VStr(EventType(e))), ("content", VStr(EventContent(e)))]
    + match e
      case Start(criteria) => [("patient_criteria", criteria)]
      case Iteration(n) => [("iteration", VInt(n))]
      case Thinking(_, n) => [("iteration", VInt(n))]
      case ToolCall(name, input, n) => [("tool_name", VStr(name)), ("tool_input", VObj(input)), ("iteration", VInt(n))]
      case ToolResult(name) => [("tool_name", VStr(name))]
      case Complete(n) => [("iterations", VInt(n))]
  }

  /** The callback's dict determines the event, so a stream of events stands for the dicts delivered. */
  lemma ActivityDeterminesEvent(e1: Event, e2: Event)
    ensures Activity(e1) == Activity(e2) ==> e1 == e2
  {
    if Activity(e1) == Activity(e2) {
      assert Activity(e1)[0] == Activity(e2)[0];
      assert Activity(e1)[1] == Activity(e2)[1];
      assert Activity(e1)[2] == Activity(e2)[2];
      if e1.ToolCall? {
        assert Activity(e1)[3] == Activity(e2)[3];
        assert Activity(e1)[4] == Activity(e2)[4];
      }
    }
  }

  /** The record a run returns. */
  datatype SearchOutcome =
    | Succeeded(finalResponse: string, iterations: nat, conversation: seq<Message>)
    | Failed(error: string, iterations: nat)

  /** A run either returns its outcome or lets a handler's exception escape. */
  datatype RunResult = Returned(outcome: SearchOutcome) | Raised(error: PyError)

  datatype Trace = Trace(result: RunResult, events: seq<Event>)

  function Seed(criteria: Value): Message {
    Message(User, Prompt(criteria))
  }

  // ------------------------------------------------------------ one batch

  /** The events, results, and possibly the exception, of processing one response's blocks. */
  datatype Batch = Batch(events: seq<Event>, results: seq<ToolResultEntry>, raised: Option<PyError>)

  /**
   * One block of the `for block in response.content` loop: a text block is logged
   * as thinking; a tool-use block is logged, dispatched, logged again and answered
   * with a result carrying its id, unless its handler raises.
   */
  function BlockBatch(block: Block, iteration: nat, tools: Executor): Batch {
    match block
    case Text(t) => Batch([Thinking(t, iteration)], [], None)
    case ToolUse(id, name, input) =>
      match tools(name, input)
      case Err(e) => Batch([ToolCall(name, input, iteration)], [], Some(e))
      case Ok(out) => Batch([ToolCall(name, input, iteration), ToolResult(name)], [ToolResultEntry(id, out)], None)
  }

  /** `head` followed by `rest`; an exception in `head` ends the batch there. */
  function Chain(head: Batch, rest: Batch): Batch {
    if head.raised.Some? then head
    else Batch(head.events + rest.events, head.results + rest.results, rest.raised)
  }

  lemma ChainAssoc(a: Batch, b: Batch, c: Batch)
    ensures Chain(Chain(a, b), c) == Chain(a, Chain(b, c))
  {
    if a.raised.None? && b.raised.None? {
      assert (a.events + b.events) + c.events == a.events + (b.events + c.events);
      assert (a.results + b.results) + c.results == a.results + (b.results + c.results);
    }
  }

  /** The whole loop over a response's blocks, stopping at the first handler that raises. */
  function RunBatch(blocks: seq<Block>, iteration: nat, tools: Executor): Batch {
    if blocks == [] then Batch([], [], None)
    else Chain(BlockBatch(blocks[0], iteration, tools), RunBatch(blocks[1..], iteration, tools))
  }

  /** The tool-use blocks of a response, in order. */
  function ToolUses(blocks: seq<Block>): seq<Block> {
    if blocks == [] then []
    else (if blocks[0].ToolUse? then [blocks[0]] else []) + ToolUses(blocks[1..])
  }

  /** One result per tool-use block, in block order, each carrying its block's id. */
  predicate ResultsMatch(blocks: seq<Block>, results: seq<ToolResultEntry>) {
    var uses := ToolUses(blocks);
    && |results| == |uses|
    && forall k :: 0 <= k < |results| ==> uses[k].ToolUse? && results[k].toolUseId == uses[k].id
  }

  lemma {:induction false} ToolUsesAreToolUse(blocks: seq<Block>)
    ensures forall k :: 0 <= k < |ToolUses(blocks)| ==> ToolUses(blocks)[k].ToolUse?
  {
    if blocks != [] {
      ToolUsesAreToolUse(blocks[1..]);
    }
  }

  /**
   * A batch that does not raise answers every tool-use block once, in order, with
   * its own id and the handler's output for it; text blocks contribute no result.
   */
  lemma {:induction false} BatchResultsMatch(blocks: seq<Block>, iteration: nat, tools: Executor)
    requires RunBatch(blocks, iteration, tools).raised.None?
    ensures var b := RunBatch(blocks, iteration, tools);
      && ResultsMatch(blocks, b.results)
      && forall k :: 0 <= k < |b.results| ==>
           var use := ToolUses(blocks)[k];
           use.ToolUse? && tools(use.name, use.input) == Ok(b.results[k].content)
  {
    ToolUsesAreToolUse(blocks);
    if blocks != [] {
      BatchResultsMatch(blocks[1..], iteration, tools);
      var b := RunBatch(blocks, iteration, tools);
      var rest := RunBatch(blocks[1..], iteration, tools);
      var uses := ToolUses(blocks);
      if blocks[0].ToolUse? {
        assert uses == [blocks[0]] + ToolUses(blocks[1..]);
        assert b.results == [ToolResultEntry(blocks[0].id, tools(blocks[0].name, blocks[0].input).value)] + rest.results;
      } else {
        assert uses == ToolUses(blocks[1..]);
        assert b.results == rest.results;
      }
    }
  }

  // ------------------------------------------------------------- the run

  /** The text of the last text block of a response, or "" if it has none. */
  function LastText(blocks: seq<Block>): string {
    if blocks == [] then ""
    else if blocks[|blocks| - 1].Text? then blocks[|blocks| - 1].text
    else LastText(blocks[..|blocks| - 1])
  }

  lemma {:induction false} LastTextIsLastTextBlock(blocks: seq<Block>)
    ensures (forall k :: 0 <= k < |blocks| ==> !blocks[k].Text?) ==> LastText(blocks) == ""
    ensures (exists k :: 0 <= k < |blocks| && blocks[k].Text?) ==>
      exists k :: 0 <= k < |blocks| && blocks[k] == Text(LastText(blocks))
                  && forall j :: k < j < |blocks| ==> !blocks[j].Text?
  {
    if blocks != [] {
      var last := |blocks| - 1;
      if blocks[last].Text? {
        assert LastText(blocks) == blocks[last].text;
      } else {
        var init := blocks[..last];
        assert LastText(blocks) == LastText(init);
        LastTextIsLastTextBlock(init);
        assert forall k :: 0 <= k < |init| ==> init[k] == blocks[k];
        if exists k :: 0 <= k < |blocks| && blocks[k].Text? {
          var k :| 0 <= k < |blocks| && blocks[k].Text?;
          assert init[k].Text?;
          var w :| 0 <= w < |init| && init[w] == Text(LastText(init))
                   && forall j :: w < j < |init| ==> !init[j].Text?;
          assert blocks[w] == Text(LastText(blocks));
          assert forall j :: w < j < |blocks| ==> !blocks[j].Text? by {
            forall j | w < j < |blocks| ensures !blocks[j].Text? {
              if j < last {
                assert !init[j].Text?;
              }
            }
          }
        }
      }
    }
  }

  /**
   * The loop from iteration counter `iteration` on, with the conversation and
   * the events so far.
   */
  function RunFrom(iteration: nat, messages: seq<Message>, events: seq<Event>,
                   llm: Model, tools: Executor): Trace
    requires iteration <= MaxIterations
    decreases MaxIterations - iteration
  {
    if iteration == MaxIterations then Trace(Returned(Failed(LimitError, iteration)), events)
    else
      var n := iteration + 1;
      var response := llm(messages);
      if response.stopReason == ToolUseStop then
        var batch := RunBatch(response.content, n, tools);
        var events' := events + [Iteration(n)] + batch.events;
        if batch.raised.Some? then Trace(Raised(batch.raised.value), events')
        else
          var turn := [Message(Assistant, Blocks(response.content)), Message(User, Results(batch.results))];
          RunFrom(n, messages + turn, events', llm, tools)
      else
        Trace(Returned(Succeeded(LastText(response.content), n, messages)), events + [Iteration(n), Complete(n)])
  }

  /** `run_autonomous_search` */
  function Run(criteria: Value, llm: Model, tools: Executor): Trace {
    RunFrom(0, [Seed(criteria)], [Start(criteria)], llm, tools)
  }

  // --------------------------------------------------- the conversation

  /**
   * The `j`-th tool turn of a conversation whose turns start at `start`: the model,
   * shown everything before it in iteration `first + j`, asked for tools;
   * the assistant message is its content and the user message the batch's results.
   */
  predicate ToolTurnAt(conv: seq<Message>, start: nat, j: nat, first: nat, llm: Model, tools: Executor) {
    var p := start + 2 * j;
    && p + 1 < |conv|
    && var response := llm(conv[..p]);
       var batch := RunBatch(response.content, first + j + 1, tools);
       && response.stopReason == ToolUseStop
       && batch.raised.None?
       && conv[p] == Message(Assistant, Blocks(response.content))
       && conv[p + 1] == Message(User, Results(batch.results))
  }

  /**
   * `conv` is `messages` followed by the tool turns of iterations `iteration + 1`
   * up to `last`: one assistant and one user message each.
   */
  predicate TurnsUntil(conv: seq<Message>, messages: seq<Message>, iteration: nat, last: nat,
                       llm: Model, tools: Executor) {
    && iteration <= last
    && |conv| == |messages| + 2 * (last - iteration)
    && conv[..|messages|] == messages
    && forall j :: 0 <= j < last - iteration ==> ToolTurnAt(conv, |messages|, j, iteration, llm, tools)
  }

  /**
   * What a run that started at `iteration` with `messages` returns, as a property of
   * its result: a success comes after tool turns up to the iteration before it, with
   * an answer that asked for no tools; a failure after tool turns up to the limit;
   * a raise from the batch of a tool-use response that came after tool turns.
   */
  ghost predicate Reaches(t: RunResult, iteration: nat, messages: seq<Message>, llm: Model, tools: Executor) {
    match t
    case Returned(Succeeded(f, n, conv)) =>
      && iteration < n <= MaxIterations
      && TurnsUntil(conv, messages, iteration, n - 1, llm, tools)
      && llm(conv).stopReason != ToolUseStop
      && f == LastText(llm(conv).content)
    case Returned(Failed(e, n)) =>
      && e == LimitError && n == MaxIterations
      && exists conv :: TurnsUntil(conv, messages, iteration, MaxIterations, llm, tools)
    case Raised(e) =>
      exists conv, last: nat ::
        && last < MaxIterations
        && TurnsUntil(conv, messages, iteration, last, llm, tools)
        && llm(conv).stopReason == ToolUseStop
        && RunBatch(llm(conv).content, last + 1, tools).raised == Some(e)
  }

  /** Turn `j + 1` counted from `start` is turn `j` counted from the next turn on. */
  lemma TurnsShift(conv: seq<Message>, start: nat, next: nat, first: nat, first': nat, count: nat,
                   llm: Model, tools: Executor)
    requires next == start + 2 && first' == first + 1
    requires ToolTurnAt(conv, start, 0, first, llm, tools)
    requires forall j :: 0 <= j < count ==> ToolTurnAt(conv, next, j, first', llm, tools)
    ensures forall j :: 0 <= j < count + 1 ==> ToolTurnAt(conv, start, j, first, llm, tools)
  {
    forall j | 0 < j < count + 1 ensures ToolTurnAt(conv, start, j, first, llm, tools) {
      assert ToolTurnAt(conv, next, j - 1, first', llm, tools);
    }
  }

  /** Tool turns after `next`, which is `messages` and one tool turn, are tool turns after `messages`. */
  lemma TurnsExtend(conv: seq<Message>, messages: seq<Message>, next: seq<Message>, iteration: nat, last: nat,
                    llm: Model, tools: Executor)
    requires |next| == |messages| + 2 && next[..|messages|] == messages
    requires ToolTurnAt(next, |messages|, 0, iteration, llm, tools)
    requires TurnsUntil(conv, next, iteration + 1, last, llm, tools)
    ensures TurnsUntil(conv, messages, iteration, last, llm, tools)
  {
    assert conv[..|next|] == next;
    assert conv[..|messages|] == messages by {
      assert conv[..|messages|] == next[..|messages|];
    }
    assert ToolTurnAt(conv, |messages|, 0, iteration, llm, tools) by {
      assert conv[..|messages|] == next[..|messages|];
      assert conv[|messages|] == next[|messages|];
      assert conv[|messages| + 1] == next[|messages| + 1];
    }
    TurnsShift(conv, |messages|, |next|, iteration, iteration + 1, last - iteration - 1, llm, tools);
  }

  lemma {:induction false} RunFromReaches(iteration: nat, messages: seq<Message>, events: seq<Event>,
                                          llm: Model, tools: Executor)
    requires iteration <= MaxIterations
    ensures Reaches(RunFrom(iteration, messages, events, llm, tools).result, iteration, messages, llm, tools)
    decreases MaxIterations - iteration
  {
    assert TurnsUntil(messages, messages, iteration, iteration, llm, tools) by {
      assert messages[..|messages|] == messages;
    }
    if iteration < MaxIterations {
      var n := iteration + 1;
      var response := llm(messages);
      if response.stopReason == ToolUseStop {
        var batch := RunBatch(response.content, n, tools);
        if batch.raised.None? {
          var turn := [Message(Assistant, Blocks(response.content)), Message(User, Results(batch.results))];
          var next := messages + turn;
          var events' := events + [Iteration(n)] + batch.events;
          assert RunFrom(iteration, messages, events, llm, tools) == RunFrom(n, next, events', llm, tools);
          RunFromReaches(n, next, events', llm, tools);
          assert next[..|messages|] == messages;
          assert ToolTurnAt(next, |messages|, 0, iteration, llm, tools);
          var t := RunFrom(n, next, events', llm, tools).result;
          match t
          case Returned(Succeeded(f, m, conv)) =>
            TurnsExtend(conv, messages, next, iteration, m - 1, llm, tools);
          case Returned(Failed(e, m)) =>
            var conv :| TurnsUntil(conv, next, n, MaxIterations, llm, tools);
            TurnsExtend(conv, messages, next, iteration, MaxIterations, llm, tools);
          case Raised(e) =>
            var conv, last: nat :|
              && last < MaxIterations
              && TurnsUntil(conv, next, n, last, llm, tools)
              && llm(conv).stopReason == ToolUseStop
              && RunBatch(llm(conv).content, last + 1, tools).raised == Some(e);
            TurnsExtend(conv, messages, next, iteration, last, llm, tools);
        }
      }
    }
  }

  /** One iteration of the loop that ends it: the limit, an answer without tool use, or a raising batch. */
  lemma RunFromNextTurn(iteration: nat, messages: seq<Message>, events: seq<Event>, llm: Model, tools: Executor)
    requires iteration <= MaxIterations
    ensures var r := RunFrom(iteration, messages, events, llm, tools).result;
      && (iteration == MaxIterations ==> r == Returned(Failed(LimitError, MaxIterations)))
      && (iteration < MaxIterations ==>
            var response := llm(messages);
            var raised := RunBatch(response.content, iteration + 1, tools).raised;
            && (response.stopReason != ToolUseStop ==>
                  r == Returned(Succeeded(LastText(response.content), iteration + 1, messages)))
            && (response.stopReason == ToolUseStop && raised.Some? ==> r == Raised(raised.value)))
  {
  }

  /**
   * The converse of `RunFromReaches`: once the conversation has grown by tool turns
   * up to iteration `last`, the model's next response decides the result.
   */
  lemma {:induction false} RunFromAfterTurns(iteration: nat, messages: seq<Message>, events: seq<Event>,
                                             conv: seq<Message>, last: nat, llm: Model, tools: Executor)
    requires last <= MaxIterations
    requires TurnsUntil(conv, messages, iteration, last, llm, tools)
    ensures var r := RunFrom(iteration, messages, events, llm, tools).result;
      && (last == MaxIterations ==> r == Returned(Failed(LimitError, MaxIterations)))
      && (last < MaxIterations ==>
            var response := llm(conv);
            var raised := RunBatch(response.content, last + 1, tools).raised;
            && (response.stopReason != ToolUseStop ==>
                  r == Returned(Succeeded(LastText(response.content), last + 1, conv)))
            && (response.stopReason == ToolUseStop && raised.Some? ==> r == Raised(raised.value)))
    decreases last - iteration
  {
    if iteration == last {
      assert conv == conv[..|messages|];
      RunFromNextTurn(iteration, messages, events, llm, tools);
    } else {
      var n := iteration + 1;
      var response := llm(messages);
      assert ToolTurnAt(conv, |messages|, 0, iteration, llm, tools);
      assert conv[..|messages|] == messages;
      var batch := RunBatch(response.content, n, tools);
      var turn := [Message(Assistant, Blocks(response.content)), Message(User, Results(batch.results))];
      var next := messages + turn;
      var events' := events + [Iteration(n)] + batch.events;
      assert RunFrom(iteration, messages, events, llm, tools) == RunFrom(n, next, events', llm, tools);
      assert next == conv[..|messages| + 2];
      assert TurnsUntil(conv, next, n, last, llm, tools) by {
        assert conv[..|next|] == next;
        forall j | 0 <= j < last - n ensures ToolTurnAt(conv, |next|, j, n, llm, tools) {
          assert ToolTurnAt(conv, |messages|, j + 1, iteration, llm, tools);
        }
      }
      RunFromAfterTurns(n, next, events', conv, last, llm, tools);
    }
  }

  /**
   * A run ends within the iteration limit. A success at iteration `n` holds the
   * seed followed by exactly `n - 1` tool turns, each an assistant message and
   * then a user message of results matching its tool-use blocks; the model's
   * response to that conversation was the first that did not ask for tools, and
   * the final answer is its last text. A failure is the iteration limit, reached
   * after ten tool turns; a raise comes from the batch of a tool-use response.
   */
  lemma RunOutcome(criteria: Value, llm: Model, tools: Executor)
    ensures var r := Run(criteria, llm, tools).result;
      match r
      case Returned(Succeeded(f, n, conv)) =>
        && 1 <= n <= MaxIterations
        && |conv| == 2 * n - 1
        && conv[0] == Seed(criteria)
        && llm(conv).stopReason != ToolUseStop
        && f == LastText(llm(conv).content)
        && forall j :: 0 <= j < n - 1 ==> ToolTurnAt(conv, 1, j, 0, llm, tools)
      case Returned(Failed(e, n)) =>
        && e == LimitError && n == MaxIterations
        && exists conv :: TurnsUntil(conv, [Seed(criteria)], 0, MaxIterations, llm, tools)
      case Raised(e) =>
        exists conv, last: nat ::
          && last < MaxIterations
          && TurnsUntil(conv, [Seed(criteria)], 0, last, llm, tools)
          && llm(conv).stopReason == ToolUseStop
          && RunBatch(llm(conv).content, last + 1, tools).raised == Some(e)
  {
    var seed := [Seed(criteria)];
    RunFromReaches(0, seed, [Start(criteria)], llm, tools);
    var r := Run(criteria, llm, tools).result;
    assert Reaches(r, 0, seed, llm, tools);
    if r.Returned? && r.outcome.Succeeded? {
      var conv := r.outcome.conversation;
      assert conv[..1] == seed;
      assert conv[0] == conv[..1][0];
    }
  }

  /**
   * A run succeeds with conversation `conv` at iteration `n` exactly when `conv` is
   * the seed and `n - 1` tool turns and the model's response to it asks for no tools.
   */
  lemma RunSucceedsIff(criteria: Value, llm: Model, tools: Executor, conv: seq<Message>, n: nat)
    ensures Run(criteria, llm, tools).result == Returned(Succeeded(LastText(llm(conv).content), n, conv))
      <==> (&& 1 <= n <= MaxIterations
            && TurnsUntil(conv, [Seed(criteria)], 0, n - 1, llm, tools)
            && llm(conv).stopReason != ToolUseStop)
  {
    var seed := [Seed(criteria)];
    RunFromReaches(0, seed, [Start(criteria)], llm, tools);
    if 1 <= n <= MaxIterations && TurnsUntil(conv, seed, 0, n - 1, llm, tools) && llm(conv).stopReason != ToolUseStop {
      RunFromAfterTurns(0, seed, [Start(criteria)], conv, n - 1, llm, tools);
    }
  }

  /** A run fails on the iteration limit exactly when the seed can be followed by ten tool turns. */
  lemma RunFailsIff(criteria: Value, llm: Model, tools: Executor)
    ensures Run(criteria, llm, tools).result == Returned(Failed(LimitError, MaxIterations))
      <==> exists conv :: TurnsUntil(conv, [Seed(criteria)], 0, MaxIterations, llm, tools)
  {
    var seed := [Seed(criteria)];
    RunFromReaches(0, seed, [Start(criteria)], llm, tools);
    if exists conv :: TurnsUntil(conv, seed, 0, MaxIterations, llm, tools) {
      var conv :| TurnsUntil(conv, seed, 0, MaxIterations, llm, tools);
      RunFromAfterTurns(0, seed, [Start(criteria)], conv, MaxIterations, llm, tools);
    }
  }

  /**
   * A run raises `e` exactly when, after the seed and some tool turns, the model
   * asked for tools and the batch of that response raised `e`.
   */
  lemma RunRaisesIff(criteria: Value, llm: Model, tools: Executor, e: PyError)
    ensures Run(criteria, llm, tools).result == Raised(e)
      <==> exists conv, last: nat ::
             && last < MaxIterations
             && TurnsUntil(conv, [Seed(criteria)], 0, last, llm, tools)
             && llm(conv).stopReason == ToolUseStop
             && RunBatch(llm(conv).content, last + 1, tools).raised == Some(e)
  {
    var seed := [Seed(criteria)];
    RunFromReaches(0, seed, [Start(criteria)], llm, tools);
    if exists conv, last: nat ::
         && last < MaxIterations
         && TurnsUntil(conv, seed, 0, last, llm, tools)
         && llm(conv).stopReason == ToolUseStop
         && RunBatch(llm(conv).content, last + 1, tools).raised == Some(e) {
      var conv, last: nat :|
        && last < MaxIterations
        && TurnsUntil(conv, seed, 0, last, llm, tools)
        && llm(conv).stopReason == ToolUseStop
        && RunBatch(llm(conv).content, last + 1, tools).raised == Some(e);
      RunFromAfterTurns(0, seed, [Start(criteria)], conv, last, llm, tools);
    }
  }

  /** Every tool turn answers its assistant message's tool-use blocks one by one, in order, by id. */
  lemma ToolTurnResultsMatch(conv: seq<Message>, start: nat, j: nat, first: nat, llm: Model, tools: Executor)
    requires ToolTurnAt(conv, start, j, first, llm, tools)
    ensures var p := start + 2 * j;
      && conv[p].role == Assistant && conv[p].content.Blocks?
      && conv[p + 1].role == User && conv[p + 1].content.Results?
      && ResultsMatch(conv[p].content.blocks, conv[p + 1].content.results)
  {
    var p := start + 2 * j;
    BatchResultsMatch(llm(conv[..p]).content, first + j + 1, tools);
  }

  /** A model that always asks for tools runs into the limit, unless a handler raises first. */
  lemma AlwaysToolUseHitsLimit(criteria: Value, llm: Model, tools: Executor)
    requires forall conv :: llm(conv).stopReason == ToolUseStop
    ensures var r := Run(criteria, llm, tools).result;
      r.Raised? || r == Returned(Failed(LimitError, MaxIterations))
  {
    RunOutcome(criteria, llm, tools);
  }

  // ------------------------------------------------------ the event stream

  /** Where the activity stream stands: which iteration it is in and whether a tool call awaits its result. */
  datatype Stage =
    | Fresh
    | Started
    | InIteration(iteration: nat)
    | AwaitingResult(iteration: nat, toolName: string)
    | Finished(iteration: nat)

  /**
   * The event protocol: `start` first; iterations numbered 1, 2, … up to the limit;
   * thinking and tool calls tagged with the current iteration; each tool result
   * right after the call of the same tool; `complete` last, tagged with the
   * current iteration.
   */
  function Step(s: Stage, e: Event): Option<Stage> {
    match (s, e)
    case (Fresh, Start(_)) => Some(Started)
    case (Started, Iteration(m)) => if m == 1 then Some(InIteration(1)) else None
    case (InIteration(n), Iteration(m)) => if m == n + 1 && m <= MaxIterations then Some(InIteration(m)) else None
    case (InIteration(n), Thinking(_, m)) => if m == n then Some(s) else None
    case (InIteration(n), ToolCall(name, _, m)) => if m == n then Some(AwaitingResult(n, name)) else None
    case (AwaitingResult(n, name), ToolResult(name')) => if name' == name then Some(InIteration(n)) else None
    case (InIteration(n), Complete(m)) => if m == n then Some(Finished(n)) else None
    case _ => None
  }

  function Walk(events: seq<Event>, s: Stage): Option<Stage> {
    if events == [] then Some(s)
    else
      match Step(s, events[0])
      case None => None
      case Some(s') => Walk(events[1..], s')
  }

  lemma {:induction false} WalkAppend(a: seq<Event>, b: seq<Event>, s: Stage)
    ensures Walk(a + b, s) == if Walk(a, s).Some? then Walk(b, Walk(a, s).value) else None
  {
    if a == [] {
      assert a + b == b;
    } else {
      assert (a + b)[0] == a[0];
      assert (a + b)[1..] == a[1..] + b;
      if Step(s, a[0]).Some? {
        WalkAppend(a[1..], b, Step(s, a[0]).value);
      }
    }
  }

  /** The events of one block keep the stream in its iteration, unless its handler raises and leaves a call open. */
  lemma BlockFollowsProtocol(block: Block, iteration: nat, tools: Executor)
    ensures var b := BlockBatch(block, iteration, tools);
      var w := Walk(b.events, InIteration(iteration));
      && w.Some?
      && (b.raised.None? ==> w.value == InIteration(iteration))
      && (b.raised.Some? ==> w.value.AwaitingResult? && w.value.iteration == iteration)
  {
    match block
    case Text(t) =>
      WalkOne(Thinking(t, iteration), InIteration(iteration));
    case ToolUse(id, name, input) =>
      var call := ToolCall(name, input, iteration);
      WalkOne(call, InIteration(iteration));
      if tools(name, input).Ok? {
        WalkOne(ToolResult(name), AwaitingResult(iteration, name));
        WalkAppend([call], [ToolResult(name)], InIteration(iteration));
        assert [call] + [ToolResult(name)] == [call, ToolResult(name)];
      }
  }

  /** The events of a non-raising batch keep the stream inside its iteration; a raising one leaves a call open. */
  lemma {:induction false} BatchFollowsProtocol(blocks: seq<Block>, iteration: nat, tools: Executor)
    ensures var b := RunBatch(blocks, iteration, tools);
      var w := Walk(b.events, InIteration(iteration));
      && w.Some?
      && (b.raised.None? ==> w.value == InIteration(iteration))
      && (b.raised.Some? ==> w.value.AwaitingResult? && w.value.iteration == iteration)
  {
    if blocks != [] {
      var head := BlockBatch(blocks[0], iteration, tools);
      var rest := RunBatch(blocks[1..], iteration, tools);
      assert RunBatch(blocks, iteration, tools) == Chain(head, rest);
      BlockFollowsProtocol(blocks[0], iteration, tools);
      if head.raised.None? {
        BatchFollowsProtocol(blocks[1..], iteration, tools);
        WalkAppend(head.events, rest.events, InIteration(iteration));
      }
    }
  }

  function StageAt(iteration: nat): Stage {
    if iteration == 0 then Started else InIteration(iteration)
  }

  /** Where the stream of a run with this result ends. */
  predicate EndsAt(r: RunResult, s: Stage) {
    match r
    case Returned(Succeeded(_, n, _)) => s == Finished(n)
    case Returned(Failed(_, n)) => s == InIteration(n)
    case Raised(_) => s.AwaitingResult?
  }

  lemma {:induction false} RunFromFollowsProtocol(iteration: nat, messages: seq<Message>, events: seq<Event>,
                                                  llm: Model, tools: Executor)
    requires iteration <= MaxIterations
    requires Walk(events, Fresh) == Some(StageAt(iteration))
    ensures var t := RunFrom(iteration, messages, events, llm, tools);
      Walk(t.events, Fresh).Some? && EndsAt(t.result, Walk(t.events, Fresh).value)
    decreases MaxIterations - iteration
  {
    if iteration < MaxIterations {
      var n := iteration + 1;
      var response := llm(messages);
      var entered := events + [Iteration(n)];
      WalkAppend(events, [Iteration(n)], Fresh);
      WalkOne(Iteration(n), StageAt(iteration));
      assert Walk(entered, Fresh) == Some(InIteration(n));
      if response.stopReason == ToolUseStop {
        var batch := RunBatch(response.content, n, tools);
        BatchFollowsProtocol(response.content, n, tools);
        WalkAppend(entered, batch.events, Fresh);
        if batch.raised.None? {
          var turn := [Message(Assistant, Blocks(response.content)), Message(User, Results(batch.results))];
          assert RunFrom(iteration, messages, events, llm, tools)
              == RunFrom(n, messages + turn, entered + batch.events, llm, tools);
          RunFromFollowsProtocol(n, messages + turn, entered + batch.events, llm, tools);
        } else {
          assert RunFrom(iteration, messages, events, llm, tools)
              == Trace(Raised(batch.raised.value), entered + batch.events);
        }
      } else {
        WalkAppend(entered, [Complete(n)], Fresh);
        WalkOne(Complete(n), InIteration(n));
        assert events + [Iteration(n), Complete(n)] == entered + [Complete(n)];
      }
    }
  }

  lemma WalkOne(e: Event, s: Stage)
    ensures Walk([e], s) == Step(s, e)
  {
    assert [e][1..] == [];
  }

  /** A stream that completes has a `complete` event, and then nothing may follow it. */
  lemma {:induction false} FinishedIffComplete(events: seq<Event>, s: Stage)
    requires !s.Finished?
    requires Walk(events, s).Some?
    ensures Walk(events, s).value.Finished? <==> exists k :: 0 <= k < |events| && events[k].Complete?
    ensures forall k :: 0 <= k < |events| && events[k].Complete? ==> k == |events| - 1
  {
    if events != [] {
      var s' := Step(s, events[0]).value;
      if s'.Finished? {
        assert events[0].Complete?;
      } else {
        FinishedIffComplete(events[1..], s');
        assert !events[0].Complete?;
        assert forall k :: 1 <= k < |events| ==> events[k] == events[1..][k - 1];
      }
    }
  }

  /**
   * The activity stream of a run starts with `start` and follows the event
   * protocol; it ends in the stage its result implies, and it holds a
   * `complete` event exactly when the run succeeds, as its last event.
   */
  lemma RunFollowsProtocol(criteria: Value, llm: Model, tools: Executor)
    ensures var t := Run(criteria, llm, tools);
      && t.events[0] == Start(criteria)
      && Walk(t.events, Fresh).Some?
      && EndsAt(t.result, Walk(t.events, Fresh).value)
      && ((exists k :: 0 <= k < |t.events| && t.events[k].Complete?) <==> t.result.Returned? && t.result.outcome.Succeeded?)
      && (forall k :: 0 <= k < |t.events| && t.events[k].Complete? ==> k == |t.events| - 1)
  {
    RunFromFollowsProtocol(0, [Seed(criteria)], [Start(criteria)], llm, tools);
    var t := Run(criteria, llm, tools);
    FinishedIffComplete(t.events, Fresh);
    RunFromEventsExtend(0, [Seed(criteria)], [Start(criteria)], llm, tools);
  }

  /** The loop only ever appends events. */
  lemma {:induction false} RunFromEventsExtend(iteration: nat, messages: seq<Message>, events: seq<Event>,
                                               llm: Model, tools: Executor)
    requires iteration <= MaxIterations
    ensures var t := RunFrom(iteration, messages, events, llm, tools);
      |events| <= |t.events| && t.events[..|events|] == events
    decreases MaxIterations - iteration
  {
    if iteration < MaxIterations {
      var n := iteration + 1;
      var response := llm(messages);
      if response.stopReason == ToolUseStop {
        var batch := RunBatch(response.content, n, tools);
        var events' := events + [Iteration(n)] + batch.events;
        if batch.raised.None? {
          var turn := [Message(Assistant, Blocks(response.content)), Message(User, Results(batch.results))];
          assert RunFrom(iteration, messages, events, llm, tools) == RunFrom(n, messages + turn, events', llm, tools);
          RunFromEventsExtend(n, messages + turn, events', llm, tools);
          var t := RunFrom(n, messages + turn, events', llm, tools);
          assert events'[..|events|] == events;
          assert t.events[..|events|] == t.events[..|events'|][..|events|];
        }
      }
    }
  }
}
