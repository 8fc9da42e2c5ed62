/**
 * The ClinicalTrials.gov client: how a search builds its query and page size,
 * how each study record of the reply becomes a flat trial record, and how a
 * detail lookup picks its study and fills in defaults. The HTTP exchange itself
 * is a parameter: a registry maps each request to the decoded reply or to a
 * request failure.
 */
module ClinicalTrialsApi {
  import opened Wrappers
  import opened PyValue

  /** The largest page the registry serves. */
  const ApiPageLimit := 100
  const NoLocation := "Location not specified"
  const NoPhase := "N/A"
  const AnySex := "ALL"
  const QuerySeparator := " AND "

  /** One entry of a study's `locations` list; a field is None when its key is absent. */
  datatype Site = Site(facility: Option<string>, city: Option<string>, state: Option<string>)

  /**
   * One study record of a decoded reply, flattened out of its `protocolSection`
   * modules. A field is None when its key, or the module holding it, is absent.
   */
  datatype Study = Study(
    nctId: Option<string>,
    briefTitle: Option<string>,
    overallStatus: Option<string>,
    phases: Option<seq<string>>,
    locations: Option<seq<Site>>,
    briefSummary: Option<string>,
    detailedDescription: Option<string>,
    eligibilityCriteria: Option<string>,
    minimumAge: Option<string>,
    maximumAge: Option<string>,
    sex: Option<string>,
    centralContacts: Option<seq<Value>>)

  /** A GET of `/studies`: the `query.term` parameter and, for a search, `pageSize`. */
  datatype Request = Request(term: string, pageSize: Option<int>)

  /** The outcome of one GET: a request exception, or the decoded body's `studies` and `totalCount`. */
  datatype Fetch =
    | RequestFailed(reason: string)
    | Fetched(studies: Option<seq<Study>>, totalCount: Option<int>)

  /** The registry as the client sees it. */
  type Registry = Request -> Fetch

  /** The flat record a search returns for each study. */
  datatype Trial = Trial(nctId: string, title: string, status: string, phase: string, location: string)

  datatype SearchResponse =
    | Found(trialsFound: nat, trials: seq<Trial>, totalAvailable: int)
    | SearchFailed(error: string, trialsFound: nat, trials: seq<Trial>)

  datatype StudyDetails =
    | DetailsFailed(error: string)
    | Details(
        nctId: string,
        title: string,
        description: string,
        detailedDescription: string,
        eligibilityCriteria: string,
        minAge: string,
        maxAge: string,
        gender: string,
        locations: seq<Site>,
        contacts: seq<Value>)

  /** The client's status names and the registry's; `all` asks for no status filter. */
  const StatusMap: map<string, Option<string>> := map[
    "recruiting" := Some("RECRUITING"),
    "not_yet_recruiting" := Some("NOT_YET_RECRUITING"),
    "active" := Some("ACTIVE_NOT_RECRUITING"),
    "all" := None]

  /** The registry status filter for a lower-cased status name; unknown names mean recruiting. */
  function StatusFilter(key: string): Option<string> {
    if key in StatusMap then StatusMap[key] else Some("RECRUITING")
  }

  /** The registry status filter for a requested status, looked up after lower-casing. */
  function ApiStatus(status: string): Option<string> {
    StatusFilter(Lower(status))
  }

  lemma StatusFilterCases(key: string)
    ensures StatusFilter(key) == None <==> key == "all"
    ensures key == "recruiting" ==> StatusFilter(key) == Some("RECRUITING")
    ensures key == "not_yet_recruiting" ==> StatusFilter(key) == Some("NOT_YET_RECRUITING")
    ensures key == "active" ==> StatusFilter(key) == Some("ACTIVE_NOT_RECRUITING")
    ensures key !in StatusMap ==> StatusFilter(key) == Some("RECRUITING")
  {
    if key == "recruiting" || key == "not_yet_recruiting" || key == "active" {
      assert key in StatusMap && StatusMap[key].Some?;
    } else if key != "all" {
      assert key !in StatusMap;
    }
  }

  /**
   * The four status names of the client map to their registry filters, `all` to
   * none, anything else to recruiting; the comparison ignores case.
   */
  lemma ApiStatusCases(status: string)
    ensures ApiStatus(status) == None <==> Lower(status) == "all"
    ensures Lower(status) == "recruiting" ==> ApiStatus(status) == Some("RECRUITING")
    ensures Lower(status) == "not_yet_recruiting" ==> ApiStatus(status) == Some("NOT_YET_RECRUITING")
    ensures Lower(status) == "active" ==> ApiStatus(status) == Some("ACTIVE_NOT_RECRUITING")
    ensures Lower(status) !in StatusMap ==> ApiStatus(status) == Some("RECRUITING")
    ensures ApiStatus(status) == ApiStatus(Lower(status))
  {
    StatusFilterCases(Lower(status));
    LowerIdempotent(status);
  }

  /** The default status `recruiting` filters for RECRUITING studies. */
  lemma DefaultStatusIsRecruiting()
    ensures ApiStatus("recruiting") == Some("RECRUITING")
  {
    LowerAsciiLower("recruiting");
    StatusFilterCases("recruiting");
  }

  /** `min(max_results, 100)`; Python compares booleans as 0 and 1, and anything else raises. */
  function PageSize(maxResults: Value): (r: Result<int, PyError>)
    ensures r.Ok? <==> maxResults.VInt? || maxResults.VBool?
    ensures r.Ok? ==> r.value <= ApiPageLimit
    ensures maxResults.VInt? ==> r == Ok(if maxResults.i <= ApiPageLimit then maxResults.i else ApiPageLimit)
    ensures maxResults.VBool? ==> r == Ok(if maxResults.b then 1 else 0)
  {
    match maxResults
    case VInt(n) => Ok(if ApiPageLimit < n then ApiPageLimit else n)
    case VBool(b) => Ok(if b then 1 else 0)
    case _ => Err(TypeError)
  }

  function ConditionPart(condition: string): string { "AREA[ConditionSearch]" + condition }
  function LocationPart(location: Value): string { "AREA[LocationSearch]" + Str(location) }
  function StatusPart(status: string): string { "AREA[OverallStatus]" + status }

  /** The filters of a search, condition first, then location (if given), then status (if any). */
  function QueryParts(condition: string, location: Value, status: Option<string>): seq<string> {
    [ConditionPart(condition)]
    + (if Truthy(location) then [LocationPart(location)] else [])
    + (if status.Some? then [StatusPart(status.value)] else [])
  }

  function Query(condition: string, location: Value, status: Option<string>): string {
    Join(QueryParts(condition, location, status), QuerySeparator)
  }

  function Optional(part: Option<string>): seq<string> {
    if part.Some? then [part.value] else []
  }

  function Joined(part: Option<string>, sep: string): string {
    if part.Some? then sep + part.value else ""
  }

  /** A first part and up to two optional ones, joined. */
  lemma JoinOptional(first: string, a: Option<string>, b: Option<string>, sep: string)
    ensures Join([first] + Optional(a) + Optional(b), sep) == first + Joined(a, sep) + Joined(b, sep)
  {
    if a.Some? && b.Some? {
      assert [first] + Optional(a) + Optional(b) == [first] + [a.value, b.value];
      JoinCons(first, [a.value, b.value], sep);
      assert [a.value, b.value] == [a.value] + [b.value];
      JoinCons(a.value, [b.value], sep);
      assert first + sep + (a.value + sep + b.value) == first + (sep + a.value) + (sep + b.value);
    } else if a.Some? {
      assert [first] + Optional(a) + Optional(b) == [first] + [a.value];
      JoinCons(first, [a.value], sep);
    } else if b.Some? {
      assert [first] + Optional(a) + Optional(b) == [first] + [b.value];
      JoinCons(first, [b.value], sep);
    } else {
      assert [first] + Optional(a) + Optional(b) == [first];
    }
  }

  /** The query always starts with the condition filter, followed by the others in a fixed order. */
  lemma QueryShape(condition: string, location: Value, status: Option<string>)
    ensures var q := Query(condition, location, status);
      var c := ConditionPart(condition);
      var l := QuerySeparator + LocationPart(location);
      var st := if status.Some? then QuerySeparator + StatusPart(status.value) else "";
      q == c + (if Truthy(location) then l else "") + st
  {
    var l := if Truthy(location) then Some(LocationPart(location)) else None;
    var st := if status.Some? then Some(StatusPart(status.value)) else None;
    assert QueryParts(condition, location, status) == [ConditionPart(condition)] + Optional(l) + Optional(st);
    JoinOptional(ConditionPart(condition), l, st, QuerySeparator);
  }

  /** The location shown for a study: only its first site counts. */
  function LocationString(sites: seq<Site>): string {
    if sites == [] then NoLocation
    else
      var city := sites[0].city.GetOr("");
      var state := sites[0].state.GetOr("");
      if city != "" && state != "" then city + ", " + state
      else if state != "" then state
      else NoLocation
  }

  lemma LocationStringCases(sites: seq<Site>)
    ensures sites == [] ==> LocationString(sites) == NoLocation
    ensures sites != [] ==>
      var city := sites[0].city.GetOr("");
      var state := sites[0].state.GetOr("");
      && (city != "" && state != "" ==> LocationString(sites) == city + ", " + state)
      && (city == "" && state != "" ==> LocationString(sites) == state)
      && (state == "" ==> LocationString(sites) == NoLocation)
    ensures sites != [] ==> LocationString(sites) == LocationString(sites[..1])
  {
  }

  /** `", ".join(phases)`, with `["N/A"]` standing in for a missing list (but not an empty one). */
  function PhaseString(phases: Option<seq<string>>): string {
    Join(phases.GetOr([NoPhase]), ", ")
  }

  lemma PhaseStringCases(phases: Option<seq<string>>)
    ensures phases == None ==> PhaseString(phases) == NoPhase
    ensures phases == Some([]) ==> PhaseString(phases) == ""
    ensures phases.Some? && |phases.value| == 1 ==> PhaseString(phases) == phases.value[0]
    ensures phases.Some? && |phases.value| == 2 ==>
      PhaseString(phases) == phases.value[0] + ", " + phases.value[1]
    ensures phases.Some? && |phases.value| >= 2 ==>
      PhaseString(phases) == phases.value[0] + ", " + PhaseString(Some(phases.value[1..]))
  {
    if phases.Some? && |phases.value| >= 2 {
      var p := phases.value;
      assert p == [p[0]] + p[1..];
      JoinCons(p[0], p[1..], ", ");
      if |p| == 2 {
        assert p[1..] == [p[1]];
      }
    }
  }

  function ToTrial(study: Study): Trial {
    Trial(
      study.nctId.GetOr(""),
      study.briefTitle.GetOr(""),
      study.overallStatus.GetOr(""),
      PhaseString(study.phases),
      LocationString(study.locations.GetOr([])))
  }

  /** The trials of a reply, one per study, in reply order. */
  function MapTrials(studies: seq<Study>): seq<Trial> {
    if studies == [] then []
    else MapTrials(studies[..|studies| - 1]) + [ToTrial(studies[|studies| - 1])]
  }

  lemma {:induction false} MapTrialsPointwise(studies: seq<Study>)
    ensures |MapTrials(studies)| == |studies|
    ensures forall k :: 0 <= k < |studies| ==> MapTrials(studies)[k] == ToTrial(studies[k])
  {
    if studies != [] {
      var init := studies[..|studies| - 1];
      MapTrialsPointwise(init);
      assert forall k :: 0 <= k < |init| ==> init[k] == studies[k];
    }
  }

  /**
   * `search_studies`: the response to a search, or the exception raised before
   * the request is sent (a status that is not a string, a page size that does
   * not compare with 100).
   */
  function Search(condition: string, location: Value, recruitingStatus: Value, maxResults: Value,
                  registry: Registry): Result<SearchResponse, PyError>
  {
    if !recruitingStatus.VStr? then Err(AttributeError)
    else
      match PageSize(maxResults)
      case Err(e) => Err(e)
      case Ok(page) =>
        Ok(Answer(registry(Request(Query(condition, location, ApiStatus(recruitingStatus.s)), Some(page)))))
  }

  /** The response a search builds from the registry's reply. */
  function Answer(reply: Fetch): SearchResponse {
    match reply
    case RequestFailed(reason) => SearchFailed("API request failed: " + reason, 0, [])
    case Fetched(studies, total) =>
      var trials := MapTrials(studies.GetOr([]));
      Found(|trials|, trials, total.GetOr(0))
  }

  /** What a search promises: its request, one trial per study in order, and the error record. */
  lemma SearchOutcome(condition: string, location: Value, recruitingStatus: Value, maxResults: Value,
                      registry: Registry)
    ensures var r := Search(condition, location, recruitingStatus, maxResults, registry);
      && (!recruitingStatus.VStr? ==> r == Err(AttributeError))
      && (recruitingStatus.VStr? && PageSize(maxResults).Err? ==> r == Err(TypeError))
      && (recruitingStatus.VStr? && PageSize(maxResults).Ok? ==> r.Ok?)
      && (r.Ok? ==>
            var request := Request(Query(condition, location, ApiStatus(recruitingStatus.s)),
                                   Some(PageSize(maxResults).value));
            && request.pageSize.value <= ApiPageLimit
            && match registry(request)
               case RequestFailed(reason) =>
                 r.value == SearchFailed("API request failed: " + reason, 0, [])
               case Fetched(studies, total) =>
                 var ss := studies.GetOr([]);
                 && r.value.Found?
                 && r.value.trialsFound == |r.value.trials| == |ss|
                 && r.value.totalAvailable == total.GetOr(0)
                 && forall k :: 0 <= k < |ss| ==> r.value.trials[k] == ToTrial(ss[k]))
  {
    if recruitingStatus.VStr? && PageSize(maxResults).Ok? {
      var request := Request(Query(condition, location, ApiStatus(recruitingStatus.s)),
                             Some(PageSize(maxResults).value));
      if registry(request).Fetched? {
        MapTrialsPointwise(registry(request).studies.GetOr([]));
      }
    }
  }

  /** `search_studies` as the source writes it: filters appended one by one, trials filled in a loop. */
  method SearchStudies(condition: string, location: Value, recruitingStatus: Value, maxResults: Value,
                       registry: Registry) returns (r: Result<SearchResponse, PyError>)
    ensures r == Search(condition, location, recruitingStatus, maxResults, registry)
  {
    if !recruitingStatus.VStr? {
      return Err(AttributeError);
    }
    var query := BuildQuery(condition, location, ApiStatus(recruitingStatus.s));
    var page := PageSize(maxResults);
    if page.Err? {
      return Err(page.error);
    }
    var fetch := registry(Request(query, Some(page.value)));
    assert Search(condition, location, recruitingStatus, maxResults, registry) == Ok(Answer(fetch));
    match fetch
    case RequestFailed(reason) =>
      r := Ok(SearchFailed("API request failed: " + reason, 0, []));
    case Fetched(studies, total) =>
      var trials := CollectTrials(studies.GetOr([]));
      r := Ok(Found(|trials|, trials, total.GetOr(0)));
  }

  /** The filters of `search_studies`, appended one by one and joined with ` AND `. */
  method BuildQuery(condition: string, location: Value, apiStatus: Option<string>) returns (query: string)
    ensures query == Query(condition, location, apiStatus)
  {
    var parts := [ConditionPart(condition)];
    if Truthy(location) {
      parts := parts + [LocationPart(location)];
    }
    if apiStatus.Some? {
      parts := parts + [StatusPart(apiStatus.value)];
    }
    assert parts == QueryParts(condition, location, apiStatus);
    query := Join(parts, QuerySeparator);
  }

  /** The loop of `search_studies` that appends one trial per study. */
  method CollectTrials(studies: seq<Study>) returns (trials: seq<Trial>)
    ensures trials == MapTrials(studies)
  {
    trials := [];
    for i := 0 to |studies|
      invariant trials == MapTrials(studies[..i])
    {
      assert studies[..i + 1][..i] == studies[..i];
      trials := trials + [ToTrial(studies[i])];
    }
    assert studies[..|studies|] == studies;
  }

  /** `get_study_details`: the first matching study, with a default for every missing field. */
  function GetStudyDetails(nctId: string, registry: Registry): StudyDetails {
    match registry(Request("AREA[NCTId]" + nctId, None))
    case RequestFailed(reason) => DetailsFailed("API request failed: " + reason)
    case Fetched(studies, _) =>
      var ss := studies.GetOr([]);
      if ss == [] then DetailsFailed("Trial " + nctId + " not found")
      else
        var study := ss[0];
        Details(
          nctId,
          study.briefTitle.GetOr(""),
          study.briefSummary.GetOr(""),
          study.detailedDescription.GetOr(""),
          study.eligibilityCriteria.GetOr(""),
          study.minimumAge.GetOr(""),
          study.maximumAge.GetOr(""),
          study.sex.GetOr(AnySex),
          study.locations.GetOr([]),
          study.centralContacts.GetOr([]))
  }

  lemma GetStudyDetailsCases(nctId: string, registry: Registry)
    ensures var d := GetStudyDetails(nctId, registry);
      match registry(Request("AREA[NCTId]" + nctId, None))
      case RequestFailed(reason) => d == DetailsFailed("API request failed: " + reason)
      case Fetched(studies, _) =>
        && (studies.GetOr([]) == [] <==> d == DetailsFailed("Trial " + nctId + " not found"))
        && (studies.GetOr([]) != [] ==>
              var study := studies.value[0];
              && d.Details?
              && d.nctId == nctId
              && d.gender == (if study.sex.Some? then study.sex.value else AnySex)
              && d.title == (if study.briefTitle.Some? then study.briefTitle.value else ""))
  {
  }
}
