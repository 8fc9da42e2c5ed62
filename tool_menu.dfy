/**
 * The tool menu the agent offers the model on every call: each tool's name,
 * its input properties (with their JSON types and allowed values) and the
 * properties it marks as required. Nothing checks tool input against the
 * menu; it only informs the model.
 */
module ToolMenu {
  import opened Wrappers
  import opened PyValue
  import MockTools
  import ClinicalTrialsApi
  import AgentLoop

  datatype JsonType = StringType | IntegerType | ArrayType | ObjectType

  datatype Property = Property(name: string, kind: JsonType, enumValues: seq<string>)

  datatype ToolDefinition = ToolDefinition(name: string, properties: seq<Property>, required: seq<string>)

  const RecruitingStatuses: seq<string> := ["recruiting", "not_yet_recruiting", "active", "all"]

  const SearchDefinition := ToolDefinition(
    MockTools.SearchTool,
    [Property("condition", StringType, []),
     Property("location", StringType, []),
     Property("recruiting_status", StringType, RecruitingStatuses),
     Property("max_results", IntegerType, [])],
    ["condition", "location"])

  const EligibilityDefinition := ToolDefinition(
    MockTools.EligibilityTool,
    [Property("trial_ids", ArrayType, []),
     Property("patient_age", IntegerType, []),
     Property("patient_gender", StringType, ["male", "female", "all"]),
     Property("conditions", ArrayType, [])],
    ["trial_ids", "patient_age", "patient_gender"])

  const RankDefinition := ToolDefinition(
    MockTools.RankTool,
    [Property("eligible_trial_ids", ArrayType, []),
     Property("patient_location", StringType, []),
     Property("preference_weights", ObjectType, [])],
    ["eligible_trial_ids"])

  const SaveDefinition := ToolDefinition(
    MockTools.SaveTool,
    [Property("patient_id", StringType, []),
     Property("search_criteria", ObjectType, []),
     Property("matched_trials", ArrayType, [])],
    ["patient_id", "search_criteria", "matched_trials"])

  const DetailsDefinition := ToolDefinition(
    MockTools.DetailsTool,
    [Property("nct_id", StringType, [])],
    ["nct_id"])

  /** One element of the list literal that builds the menu. */
  datatype MenuEntry =
    | Plain(definition: ToolDefinition)
      /** the definition written inside an extra pair of braces, i.e. as a set display */
    | InSetDisplay(definition: ToolDefinition)

  /**
   * Evaluating the list literal: a set display holding a dict raises TypeError
   * (a dict is unhashable), and the first raising element aborts the whole list.
   */
  function EvaluateMenu(entries: seq<MenuEntry>): (r: Result<seq<ToolDefinition>, PyError>)
    ensures r.Err? <==> exists k :: 0 <= k < |entries| && entries[k].InSetDisplay?
    ensures r.Ok? ==> |r.value| == |entries|
                      && forall k :: 0 <= k < |entries| ==> r.value[k] == entries[k].definition
  {
    if entries == [] then Ok([])
    else if entries[0].InSetDisplay? then Err(TypeError)
    else
      match EvaluateMenu(entries[1..])
      case Err(e) =>
        assert exists k :: 0 <= k < |entries| && entries[k].InSetDisplay? by {
          var k :| 0 <= k < |entries[1..]| && entries[1..][k].InSetDisplay?;
          assert entries[k + 1].InSetDisplay?;
        }
        Err(e)
      case Ok(rest) =>
        assert forall k :: 0 < k < |entries| ==> entries[k] == entries[1..][k - 1];
        Ok([entries[0].definition] + rest)
  }

  /** `get_tool_definitions` as written: the search tool sits inside an extra `{ }`. */
  const MenuAsWritten: seq<MenuEntry> := [
    InSetDisplay(SearchDefinition), Plain(EligibilityDefinition), Plain(RankDefinition),
    Plain(SaveDefinition), Plain(DetailsDefinition)]

  /** The literal with the stray braces removed. */
  const MenuCorrected: seq<MenuEntry> := [
    Plain(SearchDefinition), Plain(EligibilityDefinition), Plain(RankDefinition),
    Plain(SaveDefinition), Plain(DetailsDefinition)]

  /** Every call of `get_tool_definitions` as written raises before the model is called. */
  lemma MenuAsWrittenRaises()
    ensures EvaluateMenu(MenuAsWritten) == Err(TypeError)
  {
    assert MenuAsWritten[0].InSetDisplay?;
  }

  /** The menu the corrected literal evaluates to. */
  function Menu(): seq<ToolDefinition> {
    [SearchDefinition, EligibilityDefinition, RankDefinition, SaveDefinition, DetailsDefinition]
  }

  function PropertyNames(d: ToolDefinition): seq<string> {
    seq(|d.properties|, k requires 0 <= k < |d.properties| => d.properties[k].name)
  }

  /** A definition whose required list names only its own properties, each property named once. */
  predicate WellFormed(d: ToolDefinition) {
    && (forall k :: 0 <= k < |d.required| ==> d.required[k] in PropertyNames(d))
    && (forall j, k :: 0 <= j < k < |d.properties| ==> d.properties[j].name != d.properties[k].name)
  }

  /**
   * The corrected menu evaluates without raising, lists exactly the tools the
   * dispatcher routes, in the same order, and every definition is well formed.
   */
  lemma MenuMatchesDispatch()
    ensures EvaluateMenu(MenuCorrected) == Ok(Menu())
    ensures |Menu()| == |MockTools.ToolNames|
    ensures forall k :: 0 <= k < |Menu()| ==> Menu()[k].name == MockTools.ToolNames[k]
    ensures forall k :: 0 <= k < |Menu()| ==> WellFormed(Menu()[k])
  {
    assert forall k :: 0 <= k < |MenuCorrected| ==> !MenuCorrected[k].InSetDisplay?;
    var r := EvaluateMenu(MenuCorrected).value;
    assert forall k :: 0 <= k < |r| ==> r[k] == Menu()[k];
    assert r == Menu();
    assert PropertyNames(SearchDefinition) == ["condition", "location", "recruiting_status", "max_results"];
    assert PropertyNames(EligibilityDefinition) == ["trial_ids", "patient_age", "patient_gender", "conditions"];
    assert PropertyNames(RankDefinition) == ["eligible_trial_ids", "patient_location", "preference_weights"];
    assert PropertyNames(SaveDefinition) == ["patient_id", "search_criteria", "matched_trials"];
    assert PropertyNames(DetailsDefinition) == ["nct_id"];
  }

  /** The statuses the menu offers are exactly the ones the registry client maps. */
  lemma StatusEnumMatchesStatusMap()
    ensures forall k :: 0 <= k < |RecruitingStatuses| ==> RecruitingStatuses[k] in ClinicalTrialsApi.StatusMap
    ensures forall key | key in ClinicalTrialsApi.StatusMap :: key in RecruitingStatuses
  {
  }

  /**
   * A run in which every model call first builds the menu (the tool list is an
   * argument of the call): if building it raises, the run ends in its first
   * iteration, right after the `iteration` event and before the model is asked.
   * This is stated directly rather than derived from a loop that rebuilds the
   * menu on every call: the literal is the same on every call, so whether the
   * first build raises decides every later one.
   */
  function RunOffering(menu: Result<seq<ToolDefinition>, PyError>, criteria: Value,
                       llm: AgentLoop.Model, tools: AgentLoop.Executor): AgentLoop.Trace {
    if menu.Err? then AgentLoop.Trace(AgentLoop.Raised(menu.error), [AgentLoop.Start(criteria), AgentLoop.Iteration(1)])
    else AgentLoop.Run(criteria, llm, tools)
  }

  /** As written, no search ever reaches the model: each one raises TypeError in iteration 1. */
  lemma AsWrittenRunRaises(criteria: Value, llm: AgentLoop.Model, tools: AgentLoop.Executor)
    ensures var t := RunOffering(EvaluateMenu(MenuAsWritten), criteria, llm, tools);
      && t.result == AgentLoop.Raised(TypeError)
      && t.events == [AgentLoop.Start(criteria), AgentLoop.Iteration(1)]
  {
    MenuAsWrittenRaises();
  }

  /** With the corrected literal, offering the menu changes nothing: the run is `AgentLoop.Run`. */
  lemma CorrectedRunIsRun(criteria: Value, llm: AgentLoop.Model, tools: AgentLoop.Executor)
    ensures RunOffering(EvaluateMenu(MenuCorrected), criteria, llm, tools) == AgentLoop.Run(criteria, llm, tools)
  {
    MenuMatchesDispatch();
  }
}
