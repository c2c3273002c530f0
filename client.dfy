/**
 * The PandasCampaignFinance client: a key and an API version fixed at
 * construction, one method per query of the Campaign Finance API, and the
 * three batch methods.  The HTTP transport and the JSON decoder are passed
 * in as an Env.
 */
module CampaignFinance {
  import opened JsonValues
  import opened Decimal
  import opened RequestUris
  import opened Responses
  import opened Shaping
  import Q = Queries

  /** The outside world: what the server answers for a URI, and what the JSON decoder makes of a body. */
  datatype Env = Env(fetch: string -> string, decode: string -> Option<Json>)

  /** An object reply with a results field. */
  predicate HasResults(data: Json) {
    data.JObj? && "results" in data.fields
  }

  /**
   * The entries of results: the items of an array.  Every other shape that
   * a query reads without raising (null, an empty object, an empty string)
   * has none: pd.DataFrame makes the empty table of null and of an empty
   * object, and candidate search's loop runs zero times over an empty
   * object or an empty string.
   */
  function Results(data: Json): seq<Json>
    requires HasResults(data)
  {
    if data.fields["results"].JArr? then data.fields["results"].items else []
  }

  /**
   * The shapes of results a query reads without raising.  Candidate search
   * iterates over them, which fails on null, a number, a boolean and any
   * non-empty string or object (its entries are not candidate records);
   * the other queries hand them to pd.DataFrame, which refuses a string.
   */
  predicate ReadableResults(q: Q.Query, results: Json) {
    if q.CandidateSearch? then results.JArr? || results == JObj(map[]) || results == JStr("")
    else results.JArr? || results.JNull? || results == JObj(map[])
  }

  /**
   * An accepted reply whose results the query's table code reads without
   * raising: a readable shape whose entries are objects; for candidate
   * search each entry has the three sibling fields and a candidate object;
   * for committee details some row has the other_cycles column that is
   * dropped.
   */
  predicate ResultsFit(q: Q.Query, data: Json) {
    && HasResults(data)
    && ReadableResults(q, data.fields["results"])
    && AllObjects(Results(data))
    && (q.CandidateSearch? ==> forall i :: 0 <= i < |Results(data)| ==> IsCandidateEntry(Results(data)[i]))
    && (q.CommitteeDetails? ==> exists i :: 0 <= i < |Results(data)| && "other_cycles" in Results(data)[i].fields)
  }

  /** The table a query makes of an accepted reply. */
  function Shape(q: Q.Query, data: Json): Table
    requires ResultsFit(q, data)
  {
    match q
    case CandidateSearch(_) => FlattenAll(Results(data))
    case CommitteeDetails(_) => DropColumn(RecordsOf(Results(data)), "other_cycles")
    case _ => RecordsOf(Results(data))
  }

  /**
   * The empty shapes of results: an empty object gives the empty table in
   * every query but committee details (whose drop needs a row); null does in
   * the plain queries, and an empty string in candidate search.
   */
  lemma EmptyResultShapes(q: Q.Query, results: Json)
    requires !q.CommitteeDetails?
    requires || results == JObj(map[])
             || (q.CandidateSearch? && results == JStr(""))
             || (!q.CandidateSearch? && results.JNull?)
    ensures var data := JObj(map["status" := JStr("OK"), "results" := results]);
            ResultsFit(q, data) && Shape(q, data) == []
  {
  }

  class PandasCampaignFinance {
    const apiKey: string
    const version: string

    constructor(apiKey: string, version: string := "v3")
      ensures this.apiKey == apiKey && this.version == version
    {
      this.apiKey := apiKey;
      this.version := version;
    }

    function Uri(cycle: int, q: Q.Query): string {
      RequestUri(version, cycle, Q.Endpoint(q), Q.Parameters(apiKey, q))
    }

    function Reply(env: Env, cycle: int, q: Q.Query): Option<Json>
      requires StatusReadable(env.fetch(Uri(cycle, q)), env.decode)
    {
      ApiResponse(env.fetch(Uri(cycle, q)), env.decode)
    }

    /** The query runs to a table rather than an uncaught exception. */
    predicate Answerable(env: Env, cycle: int, q: Q.Query) {
      && StatusReadable(env.fetch(Uri(cycle, q)), env.decode)
      && (Reply(env, cycle, q).Some? ==> ResultsFit(q, Reply(env, cycle, q).value))
    }

    /** The table a single query returns. */
    function QueryTable(env: Env, cycle: int, q: Q.Query): Table
      requires Answerable(env, cycle, q)
    {
      match Reply(env, cycle, q)
      case None => []
      case Some(data) => Shape(q, data)
    }

    predicate AllAnswerable(env: Env, cycle: int, qs: seq<Q.Query>) {
      forall i :: 0 <= i < |qs| ==> Answerable(env, cycle, qs[i])
    }

    /** The single-query tables of the first n queries of a batch, in order. */
    function QueryTables(env: Env, cycle: int, qs: seq<Q.Query>, n: nat): (ts: seq<Table>)
      requires n <= |qs| && AllAnswerable(env, cycle, qs)
      ensures |ts| == n
    {
      if n == 0 then [] else QueryTables(env, cycle, qs, n - 1) + [QueryTable(env, cycle, qs[n - 1])]
    }

    /** QueryTable as a function value over the queries of a batch. */
    function QueryTableOf(env: Env, cycle: int): Q.Query --> Table {
      q requires Answerable(env, cycle, q) => QueryTable(env, cycle, q)
    }

    // -------------------------------------------------------------------
    // The request helper
    // -------------------------------------------------------------------

    /** The first half of api_request: the URI, extended one parameter at a time. */
    method BuildRequestUri(cycle: int, endpoint: string, parameters: Params) returns (requestUri: string)
      ensures requestUri == RequestUri(version, cycle, endpoint, parameters)
    {
      requestUri := ApiRoot;
      requestUri := requestUri + (version + "/finances/");
      requestUri := requestUri + (IntToString(cycle) + "/" + endpoint + "?");
      ghost var prefix := BaseUri(version, cycle, endpoint) + "?";
      assert requestUri == prefix + QueryString(parameters[..0]);
      for i := 0 to |parameters|
        invariant requestUri == prefix + QueryString(parameters[..i])
      {
        var (key, value) := parameters[i];
        QueryStringGrows(prefix, parameters, i);
        requestUri := requestUri + ("&" + key + "=" + Render(value));
      }
      assert parameters[..|parameters|] == parameters;
    }

    /** Builds the URI, fetches it and checks the body; None stands for the False the client returns. */
    method ApiRequest(cycle: int, endpoint: string, parameters: Params, env: Env) returns (data: Option<Json>)
      requires StatusReadable(env.fetch(RequestUri(version, cycle, endpoint, parameters)), env.decode)
      ensures data == ApiResponse(env.fetch(RequestUri(version, cycle, endpoint, parameters)), env.decode)
    {
      var requestUri := BuildRequestUri(cycle, endpoint, parameters);
      var response := env.fetch(requestUri);
      var verdict := CheckApiError(response, env.decode);
      if verdict.Rejected? {
        return None;
      }
      data := env.decode(response);
    }

    // -------------------------------------------------------------------
    // Candidate queries
    // -------------------------------------------------------------------

    method CandidateSearch(lastName: string, cycle: int, env: Env) returns (table: Table)
      requires Answerable(env, cycle, Q.CandidateSearch(lastName))
      ensures table == QueryTable(env, cycle, Q.CandidateSearch(lastName))
    {
      var endpoint := "candidates/search.json";
      var parameters := [("query", PStr(lastName)), ("api-key", PStr(apiKey))];
      var data := ApiRequest(cycle, endpoint, parameters, env);
      if data.None? {
        return [];
      }
      table := FlattenCandidates(Results(data.value));
    }

    method CandidateDetails(fecId: string, cycle: int, env: Env) returns (table: Table)
      requires Answerable(env, cycle, Q.CandidateDetails(fecId))
      ensures table == QueryTable(env, cycle, Q.CandidateDetails(fecId))
    {
      var endpoint := "candidates/" + fecId + ".json";
      var parameters := [("api-key", PStr(apiKey))];
      var data := ApiRequest(cycle, endpoint, parameters, env);
      if data.None? {
        return [];
      }
      table := RecordsOf(Results(data.value));
    }

    method MultipleCandidateDetails(fecIds: seq<string>, cycle: int, env: Env) returns (details: Table)
      requires AllAnswerable(env, cycle, Q.CandidateDetailsBatch(fecIds))
      ensures details == Concat(QueryTables(env, cycle, Q.CandidateDetailsBatch(fecIds), |fecIds|))
    {
      ghost var qs := Q.CandidateDetailsBatch(fecIds);
      details := [];
      for i := 0 to |fecIds|
        invariant details == Concat(QueryTables(env, cycle, qs, i))
      {
        var table := CandidateDetails(fecIds[i], cycle, env);
        ConcatSnoc(QueryTables(env, cycle, qs, i), table);
        details := details + table;
      }
    }

    // -------------------------------------------------------------------
    // Presidential campaign queries
    // -------------------------------------------------------------------

    method PresidentialTotals(cycle: int, env: Env) returns (table: Table)
      requires Answerable(env, cycle, Q.PresidentialTotals)
      ensures table == QueryTable(env, cycle, Q.PresidentialTotals)
    {
      var endpoint := "president/totals.json";
      var parameters := [("api-key", PStr(apiKey))];
      var data := ApiRequest(cycle, endpoint, parameters, env);
      if data.None? {
        return [];
      }
      table := RecordsOf(Results(data.value));
    }

    method PresidentialDetails(candidate: string, cycle: int, env: Env) returns (table: Table)
      requires Answerable(env, cycle, Q.PresidentialDetails(candidate))
      ensures table == QueryTable(env, cycle, Q.PresidentialDetails(candidate))
    {
      var endpoint := "president/candidates/" + candidate + ".json";
      var parameters := [("api-key", PStr(apiKey))];
      var data := ApiRequest(cycle, endpoint, parameters, env);
      if data.None? {
        return [];
      }
      table := RecordsOf(Results(data.value));
    }

    method MultiplePresidentialDetails(candidates: seq<string>, cycle: int, env: Env) returns (details: Table)
      requires AllAnswerable(env, cycle, Q.PresidentialDetailsBatch(candidates))
      ensures details == Concat(QueryTables(env, cycle, Q.PresidentialDetailsBatch(candidates), |candidates|))
    {
      ghost var qs := Q.PresidentialDetailsBatch(candidates);
      details := [];
      for i := 0 to |candidates|
        invariant details == Concat(QueryTables(env, cycle, qs, i))
      {
        var table := PresidentialDetails(candidates[i], cycle, env);
        ConcatSnoc(QueryTables(env, cycle, qs, i), table);
        details := details + table;
      }
    }

    method PresidentialLocationTotals(location: string, cycle: int, env: Env) returns (table: Table)
      requires Answerable(env, cycle, Q.PresidentialLocationTotals(location))
      ensures table == QueryTable(env, cycle, Q.PresidentialLocationTotals(location))
    {
      var endpoint;
      if |location| == 2 {
        endpoint := "president/states/" + location + ".json";
      } else {
        endpoint := "president/zips/" + location + ".json";
      }
      var parameters := [("api-key", PStr(apiKey))];
      var data := ApiRequest(cycle, endpoint, parameters, env);
      if data.None? {
        return [];
      }
      table := RecordsOf(Results(data.value));
    }

    // -------------------------------------------------------------------
    // Committee queries
    // -------------------------------------------------------------------

    method CommitteeSearch(name: string, cycle: int, env: Env) returns (table: Table)
      requires Answerable(env, cycle, Q.CommitteeSearch(name))
      ensures table == QueryTable(env, cycle, Q.CommitteeSearch(name))
    {
      var endpoint := "committees/search.json";
      var parameters := [("query", PStr(name)), ("api-key", PStr(apiKey))];
      var data := ApiRequest(cycle, endpoint, parameters, env);
      if data.None? {
        return [];
      }
      table := RecordsOf(Results(data.value));
    }

    method CommitteeDetails(fecId: string, cycle: int, env: Env) returns (table: Table)
      requires Answerable(env, cycle, Q.CommitteeDetails(fecId))
      ensures table == QueryTable(env, cycle, Q.CommitteeDetails(fecId))
    {
      var endpoint := "committees/" + fecId + ".json";
      var parameters := [("api-key", PStr(apiKey))];
      var data := ApiRequest(cycle, endpoint, parameters, env);
      if data.None? {
        return [];
      }
      table := DropColumn(RecordsOf(Results(data.value)), "other_cycles");
    }

    method MultipleCommitteeDetails(fecIds: seq<string>, cycle: int, env: Env) returns (details: Table)
      requires AllAnswerable(env, cycle, Q.CommitteeDetailsBatch(fecIds))
      ensures details == Concat(QueryTables(env, cycle, Q.CommitteeDetailsBatch(fecIds), |fecIds|))
    {
      ghost var qs := Q.CommitteeDetailsBatch(fecIds);
      details := [];
      for i := 0 to |fecIds|
        invariant details == Concat(QueryTables(env, cycle, qs, i))
      {
        var table := CommitteeDetails(fecIds[i], cycle, env);
        ConcatSnoc(QueryTables(env, cycle, qs, i), table);
        details := details + table;
      }
    }

    method NewCommittees(cycle: int, env: Env) returns (table: Table)
      requires Answerable(env, cycle, Q.NewCommittees)
      ensures table == QueryTable(env, cycle, Q.NewCommittees)
    {
      var endpoint := "committees/new.json";
      var parameters := [("api-key", PStr(apiKey))];
      var data := ApiRequest(cycle, endpoint, parameters, env);
      if data.None? {
        return [];
      }
      table := RecordsOf(Results(data.value));
    }

    method CommitteeContributions(fecId: string, cycle: int, env: Env, offset: int := 0) returns (table: Table)
      requires Answerable(env, cycle, Q.CommitteeContributions(fecId, offset))
      ensures table == QueryTable(env, cycle, Q.CommitteeContributions(fecId, offset))
    {
      var endpoint := "committees/" + fecId + "/contributions.json";
      var parameters := [("offset", PInt(offset)), ("api-key", PStr(apiKey))];
      var data := ApiRequest(cycle, endpoint, parameters, env);
      if data.None? {
        return [];
      }
      table := RecordsOf(Results(data.value));
    }

    method ContributionsToCandidate(committeeId: string, candidateId: string, cycle: int, env: Env)
      returns (table: Table)
      requires Answerable(env, cycle, Q.ContributionsToCandidate(committeeId, candidateId))
      ensures table == QueryTable(env, cycle, Q.ContributionsToCandidate(committeeId, candidateId))
    {
      var endpoint := "committees/" + committeeId + "/contributions/";
      endpoint := endpoint + "candidates/" + candidateId + ".json";
      var parameters := [("api-key", PStr(apiKey))];
      var data := ApiRequest(cycle, endpoint, parameters, env);
      if data.None? {
        return [];
      }
      table := RecordsOf(Results(data.value));
    }

    // -------------------------------------------------------------------
    // Lemmas
    // -------------------------------------------------------------------

    /**
     * When the version and the endpoint hold no '?', and neither the key nor a
     * search's text holds '&', the request URI reads back as its base and its
     * parameters, with the client's key among them.
     */
    lemma UriCarriesApiKey(cycle: int, q: Q.Query)
      requires '?' !in version && '?' !in Q.Endpoint(q) && '&' !in apiKey
      requires Q.IsSearch(q) ==> '&' !in Q.SearchText(q)
      ensures ParseRequestUri(Uri(cycle, q))
           == Some((BaseUri(version, cycle, Q.Endpoint(q)), Rendered(Q.Parameters(apiKey, q))))
      ensures ("api-key", apiKey) in Rendered(Q.Parameters(apiKey, q))
    {
      Q.ParametersAreSafe(apiKey, q);
      RequestUriRoundTrip(version, cycle, Q.Endpoint(q), Q.Parameters(apiKey, q));
      var ps := Q.Parameters(apiKey, q);
      if |ps| == 2 {
        assert ps[1..] == [("api-key", PStr(apiKey))];
        assert Rendered(ps) == [(ps[0].0, Render(ps[0].1))] + Rendered(ps[1..]);
      }
    }

    /**
     * A failed request gives the empty table; a successful plain query gives
     * one row per result, in order, each the result's own fields.
     */
    lemma QueryTableRows(env: Env, cycle: int, q: Q.Query)
      requires Answerable(env, cycle, q)
      ensures Reply(env, cycle, q).None? ==> QueryTable(env, cycle, q) == []
      ensures Reply(env, cycle, q).Some? && !q.CandidateSearch? && !q.CommitteeDetails? ==>
                var t, rs := QueryTable(env, cycle, q), Results(Reply(env, cycle, q).value);
                |t| == |rs| && forall i :: 0 <= i < |t| ==> t[i] == rs[i].fields
    {
    }

    /** A successful candidate search gives one flattened record per result, in order. */
    lemma CandidateSearchRows(env: Env, cycle: int, q: Q.Query)
      requires Answerable(env, cycle, q) && q.CandidateSearch? && Reply(env, cycle, q).Some?
      ensures var t, rs := QueryTable(env, cycle, q), Results(Reply(env, cycle, q).value);
              |t| == |rs| && forall i :: 0 <= i < |t| ==> t[i] == FlattenEntry(rs[i])
    {
    }

    /** A successful committee lookup gives one row per result, in order, without other_cycles. */
    lemma CommitteeDetailsRows(env: Env, cycle: int, q: Q.Query)
      requires Answerable(env, cycle, q) && q.CommitteeDetails? && Reply(env, cycle, q).Some?
      ensures var t, rs := QueryTable(env, cycle, q), Results(Reply(env, cycle, q).value);
              |t| == |rs| && forall i :: 0 <= i < |t| ==> t[i] == rs[i].fields - {"other_cycles"}
      ensures forall i :: 0 <= i < |QueryTable(env, cycle, q)| ==> "other_cycles" !in QueryTable(env, cycle, q)[i]
    {
    }

    /** The inactive-key page empties every query. */
    lemma InactiveKeyYieldsEmptyTable(env: Env, cycle: int, q: Q.Query)
      requires env.fetch(Uri(cycle, q)) == DeveloperInactive
      ensures Answerable(env, cycle, q) && QueryTable(env, cycle, q) == []
    {
    }

    /** An error status empties every query, and the rejection carries the errors field. */
    lemma ErrorStatusYieldsEmptyTable(env: Env, cycle: int, q: Q.Query, fields: map<string, Json>)
      requires env.fetch(Uri(cycle, q)) != DeveloperInactive
      requires env.decode(env.fetch(Uri(cycle, q))) == Some(JObj(fields))
      requires "status" in fields && fields["status"] == JStr("ERROR") && "errors" in fields
      ensures Answerable(env, cycle, q) && QueryTable(env, cycle, q) == []
      ensures CheckApiError(env.fetch(Uri(cycle, q)), env.decode) == Rejected(ErrorResponse(fields["errors"]))
    {
    }

    /**
     * A successful reply with no results gives the same empty table as a
     * failure: the caller cannot tell them apart.
     */
    lemma EmptyResultsLookLikeFailure(env: Env, cycle: int, q: Q.Query)
      requires Answerable(env, cycle, q) && Reply(env, cycle, q).Some?
      requires Results(Reply(env, cycle, q).value) == []
      ensures QueryTable(env, cycle, q) == []
    {
    }

    /** The batch tables are the generic Tables of a batch, made by QueryTable. */
    lemma {:induction false} QueryTablesAreTables(env: Env, cycle: int, qs: seq<Q.Query>, n: nat)
      requires n <= |qs| && AllAnswerable(env, cycle, qs)
      ensures QueryTables(env, cycle, qs, n) == Tables(QueryTableOf(env, cycle), qs, n)
    {
      if n > 0 {
        QueryTablesAreTables(env, cycle, qs, n - 1);
      }
    }

    /** The k-th table of a batch is the k-th query's own table. */
    lemma QueryTablesAt(env: Env, cycle: int, qs: seq<Q.Query>, k: nat)
      requires AllAnswerable(env, cycle, qs) && k < |qs|
      ensures QueryTables(env, cycle, qs, |qs|)[k] == QueryTable(env, cycle, qs[k])
    {
      QueryTablesAreTables(env, cycle, qs, |qs|);
      TablesAt(QueryTableOf(env, cycle), qs, |qs|, k);
    }

    /**
     * A failed query contributes no rows, and the queries after it are still
     * run: the batch is the rows before it followed by the batch of the rest.
     */
    lemma BatchContinuesPastFailure(env: Env, cycle: int, qs: seq<Q.Query>, k: nat)
      requires AllAnswerable(env, cycle, qs)
      requires k < |qs| && Reply(env, cycle, qs[k]).None?
      ensures Concat(QueryTables(env, cycle, qs, |qs|))
           == Concat(QueryTables(env, cycle, qs, k)) + Concat(QueryTables(env, cycle, qs[k + 1..], |qs| - k - 1))
    {
      var rest := qs[k + 1..];
      QueryTablesAreTables(env, cycle, qs, |qs|);
      QueryTablesAreTables(env, cycle, qs, k);
      QueryTablesAreTables(env, cycle, rest, |rest|);
      TablesSkipEmpty(QueryTableOf(env, cycle), qs, k);
    }

    /** Two queries give the first one's table followed by the second's. */
    lemma BatchOfTwo(env: Env, cycle: int, a: Q.Query, b: Q.Query)
      requires Answerable(env, cycle, a) && Answerable(env, cycle, b)
      ensures Concat(QueryTables(env, cycle, [a, b], 2)) == QueryTable(env, cycle, a) + QueryTable(env, cycle, b)
    {
      QueryTablesAreTables(env, cycle, [a, b], 2);
      TablesOfTwo(QueryTableOf(env, cycle), a, b);
    }
  }
}
