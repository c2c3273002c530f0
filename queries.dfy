/**
 * The ten single queries of the client, with the endpoint path and the
 * parameter list each one builds before calling api_request.
 */
module Queries {
  import opened JsonValues
  import opened RequestUris

  datatype Query =
    | CandidateSearch(lastName: string)
    | CandidateDetails(fecId: string)
    | PresidentialTotals
    | PresidentialDetails(candidate: string)
    | PresidentialLocationTotals(location: string)
    | CommitteeSearch(name: string)
    | CommitteeDetails(committeeFecId: string)
    | NewCommittees
    | CommitteeContributions(contributorFecId: string, offset: int)
    | ContributionsToCandidate(committeeId: string, candidateId: string)

  const StatesPrefix: string := "president/states/"
  const ZipsPrefix: string := "president/zips/"

  /** A two-character location is a state abbreviation; anything else is taken as a ZIP code. */
  function LocationEndpoint(location: string): string {
    if |location| == 2 then StatesPrefix + location + ".json" else ZipsPrefix + location + ".json"
  }

  function Endpoint(q: Query): string {
    match q
    case CandidateSearch(_) => "candidates/search.json"
    case CandidateDetails(fecId) => "candidates/" + fecId + ".json"
    case PresidentialTotals => "president/totals.json"
    case PresidentialDetails(candidate) => "president/candidates/" + candidate + ".json"
    case PresidentialLocationTotals(location) => LocationEndpoint(location)
    case CommitteeSearch(_) => "committees/search.json"
    case CommitteeDetails(fecId) => "committees/" + fecId + ".json"
    case NewCommittees => "committees/new.json"
    case CommitteeContributions(fecId, _) => "committees/" + fecId + "/contributions.json"
    case ContributionsToCandidate(committeeId, candidateId) =>
      "committees/" + committeeId + "/contributions/" + "candidates/" + candidateId + ".json"
  }

  /** The parameter dictionary, in the order of its literal. */
  function Parameters(apiKey: string, q: Query): Params {
    match q
    case CandidateSearch(lastName) => [("query", PStr(lastName)), ("api-key", PStr(apiKey))]
    case CommitteeSearch(name) => [("query", PStr(name)), ("api-key", PStr(apiKey))]
    case CommitteeContributions(_, offset) => [("offset", PInt(offset)), ("api-key", PStr(apiKey))]
    case _ => [("api-key", PStr(apiKey))]
  }

  /** The queries a batch method issues: one per id, in the ids' order. */
  function CandidateDetailsBatch(ids: seq<string>): (qs: seq<Query>)
    ensures |qs| == |ids| && forall i :: 0 <= i < |ids| ==> qs[i] == CandidateDetails(ids[i])
  {
    seq(|ids|, i requires 0 <= i < |ids| => CandidateDetails(ids[i]))
  }

  function PresidentialDetailsBatch(candidates: seq<string>): (qs: seq<Query>)
    ensures |qs| == |candidates| && forall i :: 0 <= i < |candidates| ==> qs[i] == PresidentialDetails(candidates[i])
  {
    seq(|candidates|, i requires 0 <= i < |candidates| => PresidentialDetails(candidates[i]))
  }

  function CommitteeDetailsBatch(ids: seq<string>): (qs: seq<Query>)
    ensures |qs| == |ids| && forall i :: 0 <= i < |ids| ==> qs[i] == CommitteeDetails(ids[i])
  {
    seq(|ids|, i requires 0 <= i < |ids| => CommitteeDetails(ids[i]))
  }

  /** The search text of the two search queries. */
  predicate IsSearch(q: Query) { q.CandidateSearch? || q.CommitteeSearch? }

  function SearchText(q: Query): string
    requires IsSearch(q)
  {
    if q.CandidateSearch? then q.lastName else q.name
  }

  /**
   * Every query sends the client's key under "api-key"; the searches add
   * "query" and committee contributions adds "offset"; no other name is sent
   * and no name is sent twice.
   */
  lemma ParametersOfQuery(apiKey: string, q: Query)
    ensures Lookup(Parameters(apiKey, q), "api-key") == Some(PStr(apiKey))
    ensures KeySet(Parameters(apiKey, q))
         == {"api-key"} + (if IsSearch(q) then {"query"} else {}) + (if q.CommitteeContributions? then {"offset"} else {})
    ensures DistinctKeys(Parameters(apiKey, q))
    ensures IsSearch(q) ==> Lookup(Parameters(apiKey, q), "query") == Some(PStr(SearchText(q)))
    ensures q.CommitteeContributions? ==> Lookup(Parameters(apiKey, q), "offset") == Some(PInt(q.offset))
  {
    var key := PStr(apiKey);
    match q
    case CandidateSearch(lastName) => TwoParameters("query", PStr(lastName), "api-key", key);
    case CommitteeSearch(name) => TwoParameters("query", PStr(name), "api-key", key);
    case CommitteeContributions(_, offset) => TwoParameters("offset", PInt(offset), "api-key", key);
    case _ => OneParameter("api-key", key);
  }

  lemma OneParameter(k: string, v: Param)
    ensures KeySet([(k, v)]) == {k} && Lookup([(k, v)], k) == Some(v) && DistinctKeys([(k, v)])
  {
    assert [(k, v)][1..] == [];
  }

  lemma TwoParameters(k1: string, v1: Param, k2: string, v2: Param)
    requires k1 != k2
    ensures KeySet([(k1, v1), (k2, v2)]) == {k1, k2}
    ensures Lookup([(k1, v1), (k2, v2)], k1) == Some(v1) && Lookup([(k1, v1), (k2, v2)], k2) == Some(v2)
    ensures DistinctKeys([(k1, v1), (k2, v2)])
  {
    var ps := [(k1, v1), (k2, v2)];
    assert ps[1..] == [(k2, v2)];
    OneParameter(k2, v2);
  }

  /** When the key and the search text hold no '&', the parameters survive the unencoded URI. */
  lemma ParametersAreSafe(apiKey: string, q: Query)
    requires '&' !in apiKey
    requires IsSearch(q) ==> '&' !in SearchText(q)
    ensures SafeParams(Parameters(apiKey, q))
  {
    var ps := Parameters(apiKey, q);
    if q.CommitteeContributions? {
      Decimal.IntToStringIsPlain(q.offset);
    }
    forall i | 0 <= i < |ps| ensures '&' !in ps[i].0 && '=' !in ps[i].0 && '&' !in Render(ps[i].1) {
      var key := ps[i].0;
      assert key == "api-key" || key == "query" || key == "offset";
      assert forall j :: 0 <= j < |key| ==> key[j] != '&' && key[j] != '=';
    }
  }

  predicate IsStatesEndpoint(endpoint: string) {
    |StatesPrefix| <= |endpoint| && endpoint[..|StatesPrefix|] == StatesPrefix
  }

  predicate IsZipsEndpoint(endpoint: string) {
    |ZipsPrefix| <= |endpoint| && endpoint[..|ZipsPrefix|] == ZipsPrefix
  }

  /** The location a location-totals endpoint was built from. */
  function LocationOf(endpoint: string): string {
    var start := if IsStatesEndpoint(endpoint) then |StatesPrefix| else |ZipsPrefix|;
    if start + 5 <= |endpoint| then endpoint[start .. |endpoint| - 5] else ""
  }

  /**
   * The states resource is chosen exactly for two-character locations, the
   * zips resource for every other length, and the location is carried into
   * the path unchanged.
   */
  lemma LocationDispatch(location: string)
    ensures IsStatesEndpoint(LocationEndpoint(location)) <==> |location| == 2
    ensures IsZipsEndpoint(LocationEndpoint(location)) <==> |location| != 2
    ensures LocationOf(LocationEndpoint(location)) == location
  {
    var e := LocationEndpoint(location);
    if |location| == 2 {
      assert e == StatesPrefix + (location + ".json");
      assert e[..|StatesPrefix|] == StatesPrefix;
      assert e[10] == 's' && ZipsPrefix[10] == 'z';
      assert !IsZipsEndpoint(e);
      assert e[|StatesPrefix| .. |e| - 5] == location;
    } else {
      assert e == ZipsPrefix + (location + ".json");
      assert e[10] == 'z' && StatesPrefix[10] == 's';
      assert !IsStatesEndpoint(e);
      assert e[..|ZipsPrefix|] == ZipsPrefix;
      assert e[|ZipsPrefix| .. |e| - 5] == location;
    }
  }

  /** Only the length of the location decides the resource; its characters are never looked at. */
  lemma DispatchSeesOnlyLength(a: string, b: string)
    requires |a| == |b|
    ensures IsStatesEndpoint(LocationEndpoint(a)) == IsStatesEndpoint(LocationEndpoint(b))
  {
    LocationDispatch(a);
    LocationDispatch(b);
  }

  lemma DispatchExamples()
    ensures LocationEndpoint("NY") == "president/states/NY.json"
    ensures LocationEndpoint("10001") == "president/zips/10001.json"
  {
  }
}
