/**
 * The agent object: the activity callback it reports to and the imperative
 * loop of `run_autonomous_search`, proved to follow the functions of
 * `AgentLoop`.
 */
module Orchestrator {
  import opened Wrappers
  import opened PyValue
  import opened ClinicalTrialsApi
  import opened MockTools
  import opened AgentLoop

  /** The final-answer loop: the text of the last text block, or "". */
  method FinalResponse(blocks: seq<Block>) returns (finalResponse: string)
    ensures finalResponse == LastText(blocks)
  {
    finalResponse := "";
    for i := 0 to |blocks|
      invariant finalResponse == LastText(blocks[..i])
    {
      assert blocks[..i + 1][..i] == blocks[..i];
      if blocks[i].Text? {
        finalResponse := blocks[i].text;
      }
    }
    assert blocks[..|blocks|] == blocks;
  }

  class ClinicalTrialAgent {
    /** Whether an activity callback was given at construction. */
    const hasCallback: bool
    /** The activity events the callback has received, in order. */
    var delivered: seq<Event>

    constructor (hasCallback: bool)
      ensures this.hasCallback == hasCallback
      ensures delivered == []
    {
      this.hasCallback := hasCallback;
      delivered := [];
    }

    /** The part of an event stream the callback sees: all of it, or nothing without a callback. */
    function Visible(events: seq<Event>): seq<Event> {
      if hasCallback then events else []
    }

    /** Delivering `b` and then `x` delivers `b + x`. */
    lemma VisibleAppend(o: seq<Event>, b: seq<Event>, x: seq<Event>)
      ensures (o + Visible(b)) + Visible(x) == o + Visible(b + x)
    {
      if hasCallback {
        assert (o + b) + x == o + (b + x);
      }
    }

    /** `_log_activity`: hand the event to the callback, if there is one. */
    method LogActivity(e: Event)
      modifies this
      ensures delivered == old(delivered) + Visible([e])
    {
      if hasCallback {
        delivered := delivered + [e];
      }
    }

    /** `process_tool_call`: report the call, then run the handler its name selects. */
    method ProcessToolCall(name: string, input: Dict, iteration: nat, registry: Registry)
      returns (r: Result<ToolOutput, PyError>)
      modifies this
      ensures delivered == old(delivered) + Visible([ToolCall(name, input, iteration)])
      ensures r == Dispatch(name, input, registry)
    {
      LogActivity(ToolCall(name, input, iteration));
      if name == SearchTool {
        var search := MockSearchTrials(input, registry);
        r := Lift(search, s => SearchOutput(s));
      } else if name == EligibilityTool {
        var report := CheckEligibility(input);
        r := Lift(report, e => EligibilityOutput(e));
      } else if name == RankTool {
        r := Lift(RankTrials(input), t => RankingOutput(t));
      } else if name == SaveTool {
        r := SaveResults(input);
      } else if name == DetailsTool {
        r := Ok(DetailsOutput(GetDetails(input)));
      } else {
        r := Ok(UnknownTool("Unknown tool: " + name));
      }
    }

    /** The body of the `for block in response.content` loop, for one block. */
    method HandleBlock(block: Block, iteration: nat, registry: Registry)
      returns (entry: seq<ToolResultEntry>, raised: Option<PyError>)
      modifies this
      ensures var b := BlockBatch(block, iteration, Executes(registry));
        && entry == b.results
        && raised == b.raised
        && delivered == old(delivered) + Visible(b.events)
    {
      match block
      case Text(text) => {
        LogActivity(Thinking(text, iteration));
        entry, raised := [], None;
      }
      case ToolUse(id, name, input) => {
        var output := ProcessToolCall(name, input, iteration, registry);
        assert Executes(registry)(name, input) == output;
        if output.Err? {
          entry, raised := [], Some(output.error);
        } else {
          LogActivity(ToolResult(name));
          VisibleAppend(old(delivered), [ToolCall(name, input, iteration)], [ToolResult(name)]);
          entry, raised := [ToolResultEntry(id, output.value)], None;
        }
      }
    }

    /**
     * The `for block in response.content` loop of one tool-use iteration: the
     * results it collects, the exception that ends it early if a handler raises,
     * and the events it delivers are those of `AgentLoop.RunBatch`.
     */
    method RunBlocks(content: seq<Block>, iteration: nat, registry: Registry)
      returns (toolResults: seq<ToolResultEntry>, raised: Option<PyError>)
      modifies this
      ensures var batch := RunBatch(content, iteration, Executes(registry));
        && raised == batch.raised
        && (raised.None? ==> toolResults == batch.results)
        && delivered == old(delivered) + Visible(batch.events)
    {
      ghost var tools := Executes(registry);
      ghost var batch := RunBatch(content, iteration, tools);
      toolResults := [];
      ghost var done := Batch([], [], None);
      var i := 0;
      assert content[0..] == content;
      while i < |content|
        invariant 0 <= i <= |content|
        invariant done.raised.None? && done.results == toolResults
        invariant batch == Chain(done, RunBatch(content[i..], iteration, tools))
        invariant delivered == old(delivered) + Visible(done.events)
      {
        ghost var head := BlockBatch(content[i], iteration, tools);
        ghost var rest := RunBatch(content[i + 1..], iteration, tools);
        assert content[i..][1..] == content[i + 1..];
        assert RunBatch(content[i..], iteration, tools) == Chain(head, rest);
        ChainAssoc(done, head, rest);
        var entry, err := HandleBlock(content[i], iteration, registry);
        VisibleAppend(old(delivered), done.events, head.events);
        if err.Some? {
          return toolResults, err;
        }
        done := Chain(done, head);
        toolResults := toolResults + entry;
        i := i + 1;
      }
      assert content[i..] == [];
      raised := None;
    }

    /**
     * `run_autonomous_search`: the result and the delivered events are those of
     * `AgentLoop.Run` with this agent's tools.
     */
    method RunAutonomousSearch(patientCriteria: Value, llm: Model, registry: Registry)
      returns (r: RunResult)
      modifies this
      ensures r == Run(patientCriteria, llm, Executes(registry)).result
      ensures delivered == old(delivered) + Visible(Run(patientCriteria, llm, Executes(registry)).events)
    {
      ghost var tools := Executes(registry);
      ghost var trace := Run(patientCriteria, llm, tools);
      LogActivity(Start(patientCriteria));
      ghost var emitted := [Start(patientCriteria)];
      var messages := [Seed(patientCriteria)];
      var iteration := 0;
      while iteration < MaxIterations
        invariant 0 <= iteration <= MaxIterations
        invariant trace == RunFrom(iteration, messages, emitted, llm, tools)
        invariant delivered == old(delivered) + Visible(emitted)
        decreases MaxIterations - iteration
      {
        ghost var before := emitted;
        iteration := iteration + 1;
        LogActivity(Iteration(iteration));
        VisibleAppend(old(delivered), emitted, [Iteration(iteration)]);
        emitted := emitted + [Iteration(iteration)];
        var response := llm(messages);
        if response.stopReason == ToolUseStop {
          ghost var batch := RunBatch(response.content, iteration, tools);
          ghost var turn := [Message(Assistant, Blocks(response.content)), Message(User, Results(batch.results))];
          assert trace == if batch.raised.Some? then Trace(Raised(batch.raised.value), emitted + batch.events)
            else RunFrom(iteration, messages + turn, emitted + batch.events, llm, tools);
          var toolResults, raised := RunBlocks(response.content, iteration, registry);
          VisibleAppend(old(delivered), emitted, batch.events);
          emitted := emitted + batch.events;
          if raised.Some? {
            return Raised(raised.value);
          }
          messages := messages + [Message(Assistant, Blocks(response.content)), Message(User, Results(toolResults))];
        } else {
          LogActivity(Complete(iteration));
          VisibleAppend(old(delivered), emitted, [Complete(iteration)]);
          assert trace == Trace(Returned(Succeeded(LastText(response.content), iteration, messages)),
                                before + [Iteration(iteration), Complete(iteration)]);
          assert emitted + [Complete(iteration)] == before + [Iteration(iteration), Complete(iteration)];
          emitted := emitted + [Complete(iteration)];
          var finalResponse := FinalResponse(response.content);
          return Returned(Succeeded(finalResponse, iteration, messages));
        }
      }
      r := Returned(Failed(LimitError, iteration));
    }
  }
}
