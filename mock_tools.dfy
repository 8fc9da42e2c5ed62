/**
 * The agent's tool handlers and the name-keyed dispatcher that routes a
 * tool-use request to one of them. Every handler reads its arguments with
 * `dict.get`, so missing arguments fall back to defaults; arguments of the
 * wrong JSON type make Python raise, and the handler's result is then a
 * `PyError`.
 */
module MockTools {
  import opened Wrappers
  import opened PyValue
  import opened ClinicalTrialsApi

  const SearchTool := "search_clinical_trials"
  const EligibilityTool := "check_eligibility"
  const RankTool := "rank_trials"
  const SaveTool := "save_search_results"
  const DetailsTool := "get_trial_details"

  /** The tools the dispatcher knows, in the order it tests their names. */
  const ToolNames: seq<string> := [SearchTool, EligibilityTool, RankTool, SaveTool, DetailsTool]

  const MinAge := 18
  const MaxAge := 75
  const MeetsAgeReason := "Meets age criteria (18-75)"
  const RankReason := "High relevance, close proximity"

  function OutsideAgeReason(age: Value): string {
    "Age " + Str(age) + " outside range (18-75)"
  }

  datatype EligibilityEntry = EligibilityEntry(nctId: Value, eligible: bool, reason: string)

  datatype EligibilityReport = EligibilityReport(
    eligibleCount: nat,
    eligibleTrials: seq<EligibilityEntry>,
    ineligibleTrials: seq<EligibilityEntry>)

  /** A ranking entry; its floating-point relevance score is not part of the model. */
  datatype RankedTrial = RankedTrial(nctId: Value, rank: nat, distanceMiles: nat, reason: string)

  datatype MockSite = MockSite(facility: string, city: string, state: string, status: string)

  datatype TrialDetails = TrialDetails(
    nctId: Value,
    title: string,
    description: string,
    inclusion: seq<string>,
    exclusion: seq<string>,
    locations: seq<MockSite>,
    primaryContact: string,
    phone: string)

  /** What a handler returns, before it is serialised into the conversation. */
  datatype ToolOutput =
    | SearchOutput(search: SearchResponse)
    | EligibilityOutput(report: EligibilityReport)
    | RankingOutput(rankedTrials: seq<RankedTrial>)
    | SavedOutput(saved: bool, patientId: Value, trialsSaved: nat)
    | DetailsOutput(details: TrialDetails)
    | UnknownTool(error: string)

  // ---------------------------------------------------------------- search

  /**
   * `_mock_search_trials`: the condition must be a string (it is lower-cased,
   * though the query is built from the original), then the registry client is
   * called with the remaining arguments or their defaults.
   */
  function SearchTrials(params: Dict, registry: Registry): Result<SearchResponse, PyError> {
    var condition := Get(params, "condition", VStr(""));
    if !condition.VStr? then Err(AttributeError)
    else Search(condition.s, Get(params, "location", VNull),
                Get(params, "recruiting_status", VStr("recruiting")),
                Get(params, "max_results", VInt(20)), registry)
  }

  /**
   * A condition that is not a string raises before any request. Without a status
   * and a page size, the registry is asked for 20 recruiting studies of the
   * condition (the empty one when absent) and, if truthy, the location.
   */
  lemma SearchTrialsDefaults(params: Dict, registry: Registry)
    ensures var condition := Get(params, "condition", VStr(""));
      var location := Get(params, "location", VNull);
      && (!HasKey(params, "condition") ==> condition == VStr(""))
      && (!condition.VStr? ==> SearchTrials(params, registry) == Err(AttributeError))
      && (condition.VStr? && !HasKey(params, "recruiting_status") && !HasKey(params, "max_results") ==>
            var query := ConditionPart(condition.s)
                         + (if Truthy(location) then QuerySeparator + LocationPart(location) else "")
                         + (QuerySeparator + StatusPart("RECRUITING"));
            SearchTrials(params, registry) == Ok(Answer(registry(Request(query, Some(20))))))
  {
    var condition := Get(params, "condition", VStr(""));
    if condition.VStr? && !HasKey(params, "recruiting_status") && !HasKey(params, "max_results") {
      var location := Get(params, "location", VNull);
      assert Get(params, "recruiting_status", VStr("recruiting")) == VStr("recruiting");
      assert Get(params, "max_results", VInt(20)) == VInt(20);
      DefaultStatusIsRecruiting();
      assert SearchTrials(params, registry) == Search(condition.s, location, VStr("recruiting"), VInt(20), registry);
      assert PageSize(VInt(20)) == Ok(20);
      assert Search(condition.s, location, VStr("recruiting"), VInt(20), registry)
          == Ok(Answer(registry(Request(Query(condition.s, location, Some("RECRUITING")), Some(20)))));
      QueryShape(condition.s, location, Some("RECRUITING"));
    }
  }

  /** The handler, which calls the imperative client: the defaults of `SearchTrialsDefaults` apply. */
  method MockSearchTrials(params: Dict, registry: Registry) returns (r: Result<SearchResponse, PyError>)
    ensures r == SearchTrials(params, registry)
    ensures var condition := Get(params, "condition", VStr(""));
      var location := Get(params, "location", VNull);
      && (!condition.VStr? ==> r == Err(AttributeError))
      && (condition.VStr? && !HasKey(params, "recruiting_status") && !HasKey(params, "max_results") ==>
            var query := ConditionPart(condition.s)
                         + (if Truthy(location) then QuerySeparator + LocationPart(location) else "")
                         + (QuerySeparator + StatusPart("RECRUITING"));
            r == Ok(Answer(registry(Request(query, Some(20))))))
  {
    var condition := Get(params, "condition", VStr(""));
    if !condition.VStr? {
      return Err(AttributeError);
    }
    var _ := Lower(condition.s);
    r := SearchStudies(condition.s, Get(params, "location", VNull),
                       Get(params, "recruiting_status", VStr("recruiting")),
                       Get(params, "max_results", VInt(20)), registry);
    SearchTrialsDefaults(params, registry);
  }

  // ----------------------------------------------------------- eligibility

  /** An age that passes the check. */
  predicate Qualifies(age: Value) {
    age.VInt? && MinAge <= age.i <= MaxAge
  }

  /**
   * `age and age >= 18 and age <= 75`: a falsy age fails without comparing; a
   * boolean compares as 0 or 1; a non-empty string, list or dict cannot be
   * compared with an integer.
   */
  function AgeCheck(age: Value): (r: Result<bool, PyError>)
    ensures r == Ok(true) <==> Qualifies(age)
    ensures r.Err? <==> Truthy(age) && (age.VStr? || age.VList? || age.VObj?)
  {
    if !Truthy(age) then Ok(false)
    else
      match age
      case VInt(n) => Ok(MinAge <= n <= MaxAge)
      case VBool(_) => Ok(false)
      case _ => Err(TypeError)
  }

  function Entry(trialId: Value, age: Value, eligible: bool): EligibilityEntry {
    if eligible then EligibilityEntry(trialId, true, MeetsAgeReason)
    else EligibilityEntry(trialId, false, OutsideAgeReason(age))
  }

  datatype Split = Split(eligible: seq<EligibilityEntry>, ineligible: seq<EligibilityEntry>)

  /** The loop over `trial_ids`: the age is checked once per id, so an empty list never raises. */
  function SplitByAge(ids: seq<Value>, age: Value): Result<Split, PyError> {
    if ids == [] then Ok(Split([], []))
    else
      match AgeCheck(age)
      case Err(e) => Err(e)
      case Ok(ok) =>
        var entry := Entry(ids[0], age, ok);
        match SplitByAge(ids[1..], age)
        case Err(e) => Err(e)
        case Ok(rest) =>
          if ok then Ok(Split([entry] + rest.eligible, rest.ineligible))
          else Ok(Split(rest.eligible, [entry] + rest.ineligible))
  }

  /** The result of splitting `ids` after `eligible` and `ineligible` have been collected for a prefix. */
  function Continue(eligible: seq<EligibilityEntry>, ineligible: seq<EligibilityEntry>,
                    rest: Result<Split, PyError>): Result<Split, PyError>
  {
    match rest
    case Err(e) => Err(e)
    case Ok(s) => Ok(Split(eligible + s.eligible, ineligible + s.ineligible))
  }

  lemma ContinueFromNothing(rest: Result<Split, PyError>)
    ensures Continue([], [], rest) == rest
  {
    if rest.Ok? {
      assert [] + rest.value.eligible == rest.value.eligible;
      assert [] + rest.value.ineligible == rest.value.ineligible;
    }
  }

  function NctIds(entries: seq<EligibilityEntry>): seq<Value> {
    seq(|entries|, k requires 0 <= k < |entries| => entries[k].nctId)
  }

  /** `_mock_check_eligibility` */
  function Eligibility(params: Dict): Result<EligibilityReport, PyError> {
    match Iterate(Get(params, "trial_ids", VList([])))
    case Err(e) => Err(e)
    case Ok(ids) =>
      match SplitByAge(ids, Get(params, "patient_age", VNull))
      case Err(e) => Err(e)
      case Ok(s) => Ok(EligibilityReport(|s.eligible|, s.eligible, s.ineligible))
  }

  /**
   * Every id lands in exactly one list, in input order; since the age is the same
   * for every id, either all ids are eligible or none is. The age test raises only
   * on a non-empty list and an age that cannot be compared.
   */
  lemma {:induction false} SplitByAgePartitions(ids: seq<Value>, age: Value)
    ensures SplitByAge(ids, age).Err? <==> ids != [] && AgeCheck(age).Err?
    ensures SplitByAge(ids, age).Ok? ==>
      var s := SplitByAge(ids, age).value;
      && (Qualifies(age) ==> NctIds(s.eligible) == ids && s.ineligible == [])
      && (!Qualifies(age) ==> s.eligible == [] && NctIds(s.ineligible) == ids)
      && (forall k :: 0 <= k < |s.eligible| ==> s.eligible[k] == Entry(ids[k], age, true))
      && (forall k :: 0 <= k < |s.ineligible| ==> s.ineligible[k] == Entry(ids[k], age, false))
  {
    if ids != [] {
      SplitByAgePartitions(ids[1..], age);
    }
  }

  lemma EligibilityReportCases(params: Dict)
    ensures var trialIds := Get(params, "trial_ids", VList([]));
      var age := Get(params, "patient_age", VNull);
      var r := Eligibility(params);
      && (r.Err? <==> Iterate(trialIds).Err? || (Iterate(trialIds).value != [] && AgeCheck(age).Err?))
      && (r.Ok? ==>
            var ids := Iterate(trialIds).value;
            && r.value.eligibleCount == |r.value.eligibleTrials|
            && |r.value.eligibleTrials| + |r.value.ineligibleTrials| == |ids|
            && (Qualifies(age) ==> NctIds(r.value.eligibleTrials) == ids && r.value.ineligibleTrials == [])
            && (!Qualifies(age) ==> r.value.eligibleTrials == [] && NctIds(r.value.ineligibleTrials) == ids))
  {
    var trialIds := Get(params, "trial_ids", VList([]));
    if Iterate(trialIds).Ok? {
      SplitByAgePartitions(Iterate(trialIds).value, Get(params, "patient_age", VNull));
    }
  }

  /** `_mock_check_eligibility` as the source writes it: a loop appending to two lists. */
  method CheckEligibility(params: Dict) returns (r: Result<EligibilityReport, PyError>)
    ensures r == Eligibility(params)
  {
    var trialIds := Iterate(Get(params, "trial_ids", VList([])));
    var age := Get(params, "patient_age", VNull);
    if trialIds.Err? {
      return Err(trialIds.error);
    }
    var ids := trialIds.value;
    var eligible: seq<EligibilityEntry> := [];
    var ineligible: seq<EligibilityEntry> := [];
    var i := 0;
    assert ids[0..] == ids;
    ContinueFromNothing(SplitByAge(ids, age));
    while i < |ids|
      invariant 0 <= i <= |ids|
      invariant SplitByAge(ids, age) == Continue(eligible, ineligible, SplitByAge(ids[i..], age))
    {
      assert ids[i..][1..] == ids[i + 1..];
      var check := AgeCheck(age);
      if check.Err? {
        return Err(check.error);
      }
      var entry := Entry(ids[i], age, check.value);
      ghost var rest := SplitByAge(ids[i + 1..], age);
      if rest.Ok? {
        if check.value {
          assert eligible + ([entry] + rest.value.eligible) == (eligible + [entry]) + rest.value.eligible;
        } else {
          assert ineligible + ([entry] + rest.value.ineligible) == (ineligible + [entry]) + rest.value.ineligible;
        }
      }
      if check.value {
        eligible := eligible + [entry];
      } else {
        ineligible := ineligible + [entry];
      }
      i := i + 1;
    }
    assert ids[i..] == [];
    assert eligible + [] == eligible && ineligible + [] == ineligible;
    r := Ok(EligibilityReport(|eligible|, eligible, ineligible));
  }

  // --------------------------------------------------------------- ranking

  /** `_mock_rank_trials`: one entry per id, ranked in input order, 3 miles further each. */
  function RankTrials(params: Dict): Result<seq<RankedTrial>, PyError> {
    match Iterate(Get(params, "eligible_trial_ids", VList([])))
    case Err(e) => Err(e)
    case Ok(ids) =>
      Ok(seq(|ids|, k requires 0 <= k < |ids| => RankedTrial(ids[k], k + 1, 5 + 3 * k, RankReason)))
  }

  lemma RankTrialsOrder(params: Dict)
    ensures var trialIds := Get(params, "eligible_trial_ids", VList([]));
      var r := RankTrials(params);
      && (r.Err? <==> Iterate(trialIds).Err?)
      && (r.Ok? ==>
            var ids := Iterate(trialIds).value;
            && |r.value| == |ids|
            && (forall k :: 0 <= k < |ids| ==> r.value[k].nctId == ids[k])
            && (forall k :: 0 <= k < |ids| ==> r.value[k].rank == k + 1)
            && (forall j, k :: 0 <= j < k < |ids| ==>
                  r.value[j].rank < r.value[k].rank && r.value[j].distanceMiles < r.value[k].distanceMiles)
            && (forall k :: 0 <= k < |ids| ==> r.value[k].distanceMiles == 2 + 3 * r.value[k].rank))
  {
  }

  // ----------------------------------------------------------------- save

  /** `_mock_save_results`; its timestamp is not part of the model. */
  function SaveResults(params: Dict): Result<ToolOutput, PyError> {
    var patientId := Get(params, "patient_id", VNull);
    match Len(Get(params, "matched_trials", VList([])))
    case Err(e) => Err(e)
    case Ok(n) => Ok(SavedOutput(true, patientId, n))
  }

  lemma SaveResultsEcho(params: Dict)
    ensures var matched := Get(params, "matched_trials", VList([]));
      var r := SaveResults(params);
      && (r.Err? <==> matched.VNull? || matched.VBool? || matched.VInt?)
      && (r.Ok? ==> r.value.SavedOutput? && r.value.saved
                    && r.value.patientId == Get(params, "patient_id", VNull))
      && (r.Ok? ==> Len(matched).Ok? && r.value.trialsSaved == Len(matched).value)
      && (matched.VList? ==> r == Ok(SavedOutput(true, Get(params, "patient_id", VNull), |matched.items|)))
      && (!HasKey(params, "matched_trials") ==> r.Ok? && r.value.trialsSaved == 0)
  {
  }

  // -------------------------------------------------------------- details

  /** The fixed record `_mock_get_details` returns, before the requested id is filled in. */
  const MockDetails := TrialDetails(
    VNull,
    "Detailed Study Information",
    "This is a Phase 2 clinical trial investigating...",
    ["Age 18-75", "Confirmed diagnosis", "Adequate organ function"],
    ["Prior similar treatment", "Significant comorbidities"],
    [MockSite("University of Colorado Hospital", "Aurora", "CO", "Recruiting")],
    "research@uchealth.org",
    "303-555-0100")

  /**
   * `_mock_get_details`: the fixed record, echoing the requested id (None when the
   * key is absent); it never inspects any other argument.
   */
  function GetDetails(params: Dict): (r: TrialDetails)
    ensures r.(nctId := VNull) == MockDetails
    ensures HasKey(params, "nct_id") ==> Some(r.nctId) == Lookup(params, "nct_id")
    ensures !HasKey(params, "nct_id") ==> r.nctId == VNull
  {
    MockDetails.(nctId := Get(params, "nct_id", VNull))
  }

  // ------------------------------------------------------------- dispatch

  function Lift<T>(r: Result<T, PyError>, wrap: T -> ToolOutput): Result<ToolOutput, PyError> {
    match r
    case Ok(v) => Ok(wrap(v))
    case Err(e) => Err(e)
  }

  /** `process_tool_call` after its activity event: the handler named by `name`, or an error payload. */
  function Dispatch(name: string, input: Dict, registry: Registry): Result<ToolOutput, PyError> {
    if name == SearchTool then Lift(SearchTrials(input, registry), s => SearchOutput(s))
    else if name == EligibilityTool then Lift(Eligibility(input), e => EligibilityOutput(e))
    else if name == RankTool then Lift(RankTrials(input), t => RankingOutput(t))
    else if name == SaveTool then SaveResults(input)
    else if name == DetailsTool then Ok(DetailsOutput(GetDetails(input)))
    else Ok(UnknownTool("Unknown tool: " + name))
  }

  /**
   * Exactly the five named tools reach a handler, each the one for its name; any other
   * name yields the error payload and never raises. Only a handler can raise.
   */
  lemma DispatchRoutesByName(name: string, input: Dict, registry: Registry)
    ensures var r := Dispatch(name, input, registry);
      && (name !in ToolNames <==> r == Ok(UnknownTool("Unknown tool: " + name)))
      && (r.Err? ==> name in [SearchTool, EligibilityTool, RankTool, SaveTool])
      && (name == SearchTool ==> r == Lift(SearchTrials(input, registry), s => SearchOutput(s)))
      && (name == EligibilityTool ==> r == Lift(Eligibility(input), e => EligibilityOutput(e)))
      && (name == RankTool ==> r == Lift(RankTrials(input), t => RankingOutput(t)))
      && (name == SaveTool ==> r == SaveResults(input))
      && (name == DetailsTool ==> r == Ok(DetailsOutput(GetDetails(input))))
  {
  }
}
