# PandasCampaignFinance, modelled in Dafny

`PandasCampaignFinance` is a Python 2 client for the New York Times Campaign
Finance API. It is a single class holding an API key and an API version. Each
query method does three things. It builds an endpoint path and a parameter
dictionary. It calls `api_request`, which writes the request URI, fetches it
and rejects failed bodies. Then it turns the `results` array of the reply into
a pandas DataFrame. Three batch methods run a single-id query once per id and
append the tables in order.

The model keeps the structure of the source. Each file is one part of it:

- `json_values.dfy` holds the decoded JSON value, a record (a map from field
  name to value) and a table (a sequence of records).
- `decimal.dfy` models Python's `str()` on an integer, with a parser to check
  it against.
- `request_uri.dfy` models the request URI: a fixed root, the version, the
  cycle, the endpoint, `?`, and one `&key=value` per parameter. Nothing is
  percent-encoded. It also has a parser that reads a URI back.
- `responses.dfy` models `check_api_error` and the failure mapping of
  `api_request`. `None` stands for the `False` that `api_request` returns.
- `shaping.dfy` models the table side:
  - the candidate-search record merge (the nested fields win);
  - the `other_cycles` column drop;
  - the in-order concatenation that the batch methods build with
    `DataFrame.append`.
- `queries.dfy` models what each query sends: its endpoint path, its
  parameters, and the two-character state or ZIP dispatch for location totals.
- `client.dfy` holds the `PandasCampaignFinance` class:
  - `const` fields, set once by the constructor;
  - `ApiRequest`, whose URI-building loop is the separate method
    `BuildRequestUri`;
  - one method per query, each proved against the specification function
    `QueryTable`;
  - the three batch methods, whose loops are proved against `QueryTables`
    and `Concat`.

The HTTP transport and the JSON decoder are passed in as an `Env`:
- `fetch` maps a URI to a response body;
- `decode` maps a body to `Some` of a JSON value, or to `None` when
  `json.loads` raises.

Some exceptions escape the client uncaught: a `KeyError` on `status`,
`errors` or `results`, a `TypeError` on a reply that is not an object, and
pandas' error when `other_cycles` is missing. Some empty shapes of `results`
are not errors, and the model gives the empty table for each of them:
- in candidate search, an empty object or an empty string, which the loop
  iterates zero times (`null` raises there);
- in the other queries except committee details, `null` or an empty object,
  of which `pd.DataFrame` makes the empty table (a string raises there).
  Committee details raises on both, because `drop('other_cycles', 1)` finds
  no such column in the empty frame.

The model turns the exceptions into preconditions:
- `StatusReadable` is the requirement for reading the status;
- `Answerable` is the requirement for shaping the reply.

A body that is not valid JSON is a failure, not an exception. `json.loads`
raises `ValueError` inside `check_api_error`, the `except ValueError` in
`api_request` catches it, and the caller gets `False`. The model keeps this
case as `Rejection.Undecodable`.

## Model

| member | source | states |
|---|---|---|
| `Decimal.NatToString` | PandasCampaignFinance.py:331 | `str()` of a natural number is a non-empty string of digits, and it starts with `0` only for zero |
| `Decimal.IntToString` | PandasCampaignFinance.py:331 | `str()` of an integer is non-empty, starts with `-` exactly when the integer is negative, and is digits everywhere else |
| `Decimal.NatToStringRoundTrip` | PandasCampaignFinance.py:331 | the digits written for a natural number read back as that number |
| `Decimal.IntToStringRoundTrip` | PandasCampaignFinance.py:331 | the cycle (or offset) written into a URI is an integer literal, and it reads back as the same integer |
| `Decimal.IntToStringIsPlain` | PandasCampaignFinance.py:333 | a written integer never contains `&`, `=` or `?`, so an integer parameter cannot break the query string |
| `RequestUris.Render` | PandasCampaignFinance.py:333 | definition: `str(value)`, which is the string itself for a string parameter and the decimal literal (`Decimal.IntToString`) for an integer |
| `RequestUris.BaseUri` | PandasCampaignFinance.py:329-331 | definition: the root `http://api.nytimes.com/svc/elections/us/`, the version, `/finances/`, `str(cycle)`, `/` and the endpoint; `BaseUriCarriesCycle` and `RequestUriRoundTrip` state what it holds |
| `RequestUris.QueryString` | PandasCampaignFinance.py:332-333 | definition: one `&key=str(value)` per parameter, in order; `QueryStringSnoc` and `QueryStringRoundTrip` state its properties |
| `RequestUris.RequestUri` | PandasCampaignFinance.py:329-333 | definition: the base URI, `?`, then the query string; `BuildRequestUri` is proved to build it and `RequestUriRoundTrip` to read back |
| `RequestUris.QueryStringSnoc` | PandasCampaignFinance.py:332-333 | appending a parameter to the list appends exactly `"&" + key + "=" + str(value)` to the query string |
| `RequestUris.QueryStringGrows` | PandasCampaignFinance.py:332-333 | one pass of the loop takes the URI over the first i parameters to the URI over the first i+1 |
| `RequestUris.SplitQueryString` | PandasCampaignFinance.py:332-333 | when no key holds `&` or `=` and no value holds `&`, cutting the query string at `&` gives an empty piece (the `?&` quirk) and then one `key=value` piece per parameter |
| `RequestUris.ParseSegmentsOfParams` | PandasCampaignFinance.py:333 | under the same condition, each `key=value` piece reads back as its key and `str(value)`, in order |
| `RequestUris.QueryStringRoundTrip` | PandasCampaignFinance.py:332-333 | when no key holds `&` or `=` and no value holds `&`, the query string holds exactly one segment per parameter, in order, and nothing else: it parses back to the (key, `str(value)`) list |
| `RequestUris.NoQuestionMarkInBase` | PandasCampaignFinance.py:329-331 | the root, the cycle and `/finances/` contain no `?`, so the first `?` of the URI is the separator when the version and the endpoint contain none |
| `RequestUris.RequestUriRoundTrip` | PandasCampaignFinance.py:329-333 | when the version and the endpoint hold no `?`, no key holds `&` or `=` and no value holds `&`, a built URI splits at its first `?` into the base URI (root, version, cycle, endpoint) and the parameters in order |
| `RequestUris.BaseUriCarriesCycle` | PandasCampaignFinance.py:331 | right after `<root><version>/finances/` the base URI holds the decimal cycle, which reads back as the cycle |
| `RequestUris.ForgedQueryString` | PandasCampaignFinance.py:333 | a value `a&k=v` produces the same text as the two parameters `a` and `k=v` |
| `RequestUris.UnencodedValueForgesParameter` | PandasCampaignFinance.py:333 | because values are not encoded, a value `a&k=v` builds the same URI as two parameters and reads back as a parameter `k` the caller never sent |
| `Responses.CheckApiError` | PandasCampaignFinance.py:351-359 | the inactive-key page is rejected as a bad key exactly when the body is that literal. Otherwise a body the decoder refuses is rejected as undecodable, and a body with status `ERROR` is rejected with its `errors` value. Every other body is accepted |
| `Responses.ApiResponse` | PandasCampaignFinance.py:340-346 | the result is `None` (False) exactly when the check rejects. Otherwise it is the decoded body, an object whose status is not `ERROR` |
| `Responses.InactiveKeyRejectedBeforeDecoding` | PandasCampaignFinance.py:353-354 | the inactive-key page is rejected whatever the decoder would make of it |
| `Shaping.RecordsOf` | PandasCampaignFinance.py:84 | definition of `pd.DataFrame(data['results'])`: one record per result object, in order, holding that object's fields; `QueryTableRows` states it for every plain query |
| `Shaping.FlattenAll` | PandasCampaignFinance.py:52-61 | definition of the `candidates` list: one flattened record per entry, in order; `FlattenCandidates` is proved to compute it and `CandidateSearchRows` states it for the query |
| `Shaping.FlattenEntry` | PandasCampaignFinance.py:54-59 | a flattened record has exactly the keys `committee`, `state`, `district` and the nested candidate's keys. The candidate's values win, and the three sibling values are kept where the candidate lacks the key |
| `Shaping.FlattenCandidates` | PandasCampaignFinance.py:52-61 | the loop gives one record per entry of `results`, in order, each the flattened entry |
| `Shaping.FlattenExample` | PandasCampaignFinance.py:52-61 | an example entry (committee C1, state NY, district 5, candidate Smith of party X) flattens to the single record holding all five fields |
| `Shaping.DropColumn` | PandasCampaignFinance.py:233 | `drop('other_cycles', 1)` keeps the row count. Every row loses exactly that key and keeps every other key with its value |
| `Shaping.DropColumnExample` | PandasCampaignFinance.py:233 | a row with an `id` and an `other_cycles` keeps only the `id` |
| `Shaping.Concat` | PandasCampaignFinance.py:96-101 | definition of the batch result: the tables appended one after another, starting from the empty table; `ConcatSnoc`, `ConcatAppend` and `ConcatSkipsEmpty` state its properties |
| `Shaping.ConcatSnoc` | PandasCampaignFinance.py:100-101 | appending one more table to a batch appends its rows after the rows so far |
| `Shaping.ConcatAppend` | PandasCampaignFinance.py:96-102 | the rows of two batches run back to back are the rows of the first followed by the rows of the second |
| `Shaping.ConcatSkipsEmpty` | PandasCampaignFinance.py:98-101 | an empty table in a batch adds no rows, and the tables after it still follow |
| `Shaping.Tables` | PandasCampaignFinance.py:98-101 | the first n items of a batch give exactly n tables |
| `Shaping.TablesAt` | PandasCampaignFinance.py:98-101 | the k-th table of a batch is the table of the k-th item |
| `Shaping.TablesSkipEmpty` | PandasCampaignFinance.py:98-101 | for any table function, an item with an empty table adds no rows and the batch goes on with the rest |
| `Shaping.TablesOfTwo` | PandasCampaignFinance.py:94-102 | a batch of two items gives the first item's table followed by the second's |
| `Queries.LocationEndpoint` | PandasCampaignFinance.py:175-178 | definition of the location dispatch: `president/states/<location>.json` for a two-character location, `president/zips/<location>.json` otherwise; `LocationDispatch` states its properties |
| `Queries.Endpoint` | PandasCampaignFinance.py:42-308 | definition: the endpoint path each query passes to `api_request`, taken from lines 42, 75, 116, 135, 176 and 178, 203, 224, 260, 283 and 307-308 |
| `Queries.Parameters` | PandasCampaignFinance.py:43-310 | definition: the parameter dictionary each query passes, in the order of its literal; `ParametersOfQuery` and `ParametersAreSafe` state its properties |
| `Queries.CandidateDetailsBatch` | PandasCampaignFinance.py:98-101 | `multiple_candidate_details` issues one `candidate_details` query per id, in order |
| `Queries.PresidentialDetailsBatch` | PandasCampaignFinance.py:157-160 | `multiple_presidential_details` issues one `presidential_details` query per candidate, in order |
| `Queries.CommitteeDetailsBatch` | PandasCampaignFinance.py:246-249 | `multiple_committee_details` issues one `committee_details` query per id, in order |
| `Queries.ParametersOfQuery` | PandasCampaignFinance.py:281-284 | every query sends the client's key under `api-key`. The two searches add `query` with the search text, and committee contributions adds `offset`. No other name is sent, and no name is sent twice. The same literals appear at lines 43, 76, 117, 136, 180, 204, 225, 261 and 310 |
| `Queries.ParametersAreSafe` | PandasCampaignFinance.py:332-333 | when the key and the search text hold no `&`, every parameter survives the unencoded query string |
| `Queries.LocationDispatch` | PandasCampaignFinance.py:175-178 | the states path is chosen exactly when the location has two characters, the zips path exactly when it has any other length, and the location appears in the path unchanged |
| `Queries.DispatchSeesOnlyLength` | PandasCampaignFinance.py:175 | two locations of the same length always go to the same resource: the characters are never checked |
| `Queries.DispatchExamples` | PandasCampaignFinance.py:175-178 | `NY` goes to `president/states/NY.json` and `10001` goes to `president/zips/10001.json` |
| `CampaignFinance.Shape` | PandasCampaignFinance.py:52-84 | definition of the table made of an accepted reply: flattened for candidate search (lines 52-61), `other_cycles` dropped for committee details (line 233), the results as records for every other query (line 84 and its copies) |
| `CampaignFinance.EmptyResultShapes` | PandasCampaignFinance.py:52-84 | an accepted reply whose `results` is an empty object (any query but committee details), an empty string (candidate search) or `null` (the plain queries) is read without raising and gives the empty table |
| `CampaignFinance.Results` | PandasCampaignFinance.py:53-84 | definition of `data['results']` as the loop at line 53 iterates it and `pd.DataFrame` tabulates it at line 84 and its copies: an array's items, and no entries for `null`, `{}` or `""`; `EmptyResultShapes` and `EmptyResultsLookLikeFailure` state what the empty shapes give |
| `CampaignFinance.PandasCampaignFinance.QueryTable` | PandasCampaignFinance.py:46-84 | definition of a single query's table: the empty table when `api_request` returns False (lines 47-49, 80-82 and their copies), otherwise `Shape` of the reply; the methods are proved to return it and `QueryTableRows`, `CandidateSearchRows` and `CommitteeDetailsRows` state what it holds |
| `CampaignFinance.PandasCampaignFinance.QueryTables` | PandasCampaignFinance.py:98-101 | definition of the single-query tables that the batch loops append (lines 98-101, 157-160 and 246-249): one per query, in order; the three batch methods are proved against it, and `QueryTablesAreTables`, `QueryTablesAt` and `BatchContinuesPastFailure` state its properties |
| `CampaignFinance.PandasCampaignFinance.constructor` | PandasCampaignFinance.py:24-26 | the client keeps the key and the version it was given, with `v3` as the default version |
| `CampaignFinance.PandasCampaignFinance.Uri` | PandasCampaignFinance.py:329-333 | definition: the request URI that `api_request` builds for a query from its endpoint and its parameter dictionary; `UriCarriesApiKey` states that, under its conditions on `?` and `&`, it reads back and carries the key |
| `CampaignFinance.PandasCampaignFinance.Reply` | PandasCampaignFinance.py:46 | definition of `data = self.api_request(...)` (line 46 and its copies at lines 79, 119, 139, 183, 207, 228, 264, 287 and 313): `ApiResponse` of the body fetched for the query's URI; `QueryTableRows`, `CandidateSearchRows`, `CommitteeDetailsRows` and `EmptyResultsLookLikeFailure` are stated in its terms |
| `CampaignFinance.PandasCampaignFinance.BuildRequestUri` | PandasCampaignFinance.py:328-333 | the URI built by `+=` in a loop over the parameters is the request URI: the base, `?`, then one `&key=value` per parameter |
| `CampaignFinance.PandasCampaignFinance.ApiRequest` | PandasCampaignFinance.py:327-346 | the helper returns `None` (False) exactly when the fetched body is rejected, and otherwise the decoded body |
| `CampaignFinance.PandasCampaignFinance.CandidateSearch` | PandasCampaignFinance.py:40-61 | returns the query's table: empty on failure, and otherwise one flattened record per result |
| `CampaignFinance.PandasCampaignFinance.CandidateDetails` | PandasCampaignFinance.py:73-84 | returns the query's table for `candidates/<id>.json` |
| `CampaignFinance.PandasCampaignFinance.MultipleCandidateDetails` | PandasCampaignFinance.py:94-102 | the result is the single-id tables concatenated, in the ids' order |
| `CampaignFinance.PandasCampaignFinance.PresidentialTotals` | PandasCampaignFinance.py:115-124 | returns the query's table for `president/totals.json` |
| `CampaignFinance.PandasCampaignFinance.PresidentialDetails` | PandasCampaignFinance.py:133-144 | returns the query's table for `president/candidates/<candidate>.json` |
| `CampaignFinance.PandasCampaignFinance.MultiplePresidentialDetails` | PandasCampaignFinance.py:153-161 | the result is the single-candidate tables concatenated, in order |
| `CampaignFinance.PandasCampaignFinance.PresidentialLocationTotals` | PandasCampaignFinance.py:173-188 | returns the query's table for the states or zips path that the location's length selects |
| `CampaignFinance.PandasCampaignFinance.CommitteeSearch` | PandasCampaignFinance.py:201-213 | returns the query's table for `committees/search.json` with `query` |
| `CampaignFinance.PandasCampaignFinance.CommitteeDetails` | PandasCampaignFinance.py:222-233 | returns the query's table: empty on failure, and otherwise the results with `other_cycles` dropped |
| `CampaignFinance.PandasCampaignFinance.MultipleCommitteeDetails` | PandasCampaignFinance.py:242-250 | the result is the single-committee tables concatenated, in the ids' order |
| `CampaignFinance.PandasCampaignFinance.NewCommittees` | PandasCampaignFinance.py:258-269 | returns the query's table for `committees/new.json` |
| `CampaignFinance.PandasCampaignFinance.CommitteeContributions` | PandasCampaignFinance.py:281-292 | returns the query's table for `committees/<id>/contributions.json` with `offset`, which defaults to 0 |
| `CampaignFinance.PandasCampaignFinance.ContributionsToCandidate` | PandasCampaignFinance.py:302-318 | returns the query's table for `committees/<c>/contributions/candidates/<id>.json` |
| `CampaignFinance.PandasCampaignFinance.UriCarriesApiKey` | PandasCampaignFinance.py:327-333 | when the version and the query's endpoint hold no `?`, the key holds no `&`, and a search's text holds no `&`, the query's URI reads back as its base path and its parameters, and the client's key is among them |
| `CampaignFinance.PandasCampaignFinance.QueryTableRows` | PandasCampaignFinance.py:79-84 | a failed request gives the empty table. A successful plain query gives one row per result, in order, each the result's fields unchanged |
| `CampaignFinance.PandasCampaignFinance.CandidateSearchRows` | PandasCampaignFinance.py:52-61 | a successful candidate search gives one row per result, in order, each the flattened entry |
| `CampaignFinance.PandasCampaignFinance.CommitteeDetailsRows` | PandasCampaignFinance.py:228-233 | a successful committee lookup gives one row per result, in order, each the result's fields without `other_cycles`, and no row has `other_cycles` |
| `CampaignFinance.PandasCampaignFinance.InactiveKeyYieldsEmptyTable` | PandasCampaignFinance.py:340-344 | when the server answers with the inactive-key page, every query returns the empty table |
| `CampaignFinance.PandasCampaignFinance.ErrorStatusYieldsEmptyTable` | PandasCampaignFinance.py:357-359 | a reply with status `ERROR` empties every query, and the rejection carries the reply's `errors` |
| `CampaignFinance.PandasCampaignFinance.EmptyResultsLookLikeFailure` | PandasCampaignFinance.py:80-84 | a successful reply with no results gives the same empty table as a failure |
| `CampaignFinance.PandasCampaignFinance.QueryTablesAreTables` | PandasCampaignFinance.py:98-101 | the batch tables are the generic per-item tables, with `QueryTable` as the table of each query |
| `CampaignFinance.PandasCampaignFinance.QueryTablesAt` | PandasCampaignFinance.py:98-101 | the k-th table of a batch is exactly the k-th query's own table |
| `CampaignFinance.PandasCampaignFinance.BatchContinuesPastFailure` | PandasCampaignFinance.py:98-101 | a failed query adds no rows, and the queries after it are still run: the batch is the rows before it followed by the batch of the rest |
| `CampaignFinance.PandasCampaignFinance.BatchOfTwo` | PandasCampaignFinance.py:94-102 | a batch of two queries is the first query's table followed by the second's |

## Left out

- Network I/O (`urllib.urlopen`, `read`) is the function `Env.fetch`. The same
  URI therefore always gives the same body, and connection errors, timeouts and
  partial reads are not modelled.
- `json.loads` (and the `simplejson` fallback) is the function `Env.decode`,
  and its internals are not modelled. The JSON datatype has integers but no
  floating-point numbers.
- pandas is reduced to a table as an ordered sequence of records. The model
  leaves out:
  - column alignment and NaN filling on `DataFrame.append`;
  - the index;
  - the column order;
  - the `axis` argument of `drop`.
- The iteration order of a Python 2 dictionary is unspecified. The model fixes
  it as the order of the dictionary literal. Under its conditions on `?`,
  `&` and `=`, the URI round trip recovers the parameters in whatever order
  they were given.
- Some exceptions escape the client uncaught: a `KeyError` or `TypeError` in
  `check_api_error` or on `results`, and pandas refusing to drop a column that
  no row has. These are preconditions (`StatusReadable`, `ResultsFit`,
  `Answerable`), not modelled behaviour. In particular, `committee_details`
  raises when `results` is an empty list, `null` or an empty object, so
  `ResultsFit` asks for a row with `other_cycles`.
- The `print` calls that report a failure are not modelled. The caller sees
  only the empty table, except for the reply named in the next line.
- ApiResponse: an `ERROR` reply whose `errors` is a JSON string with a
  non-ASCII character, such as `{"status":"ERROR","errors":"é"}`, is mapped to
  `None`. In the source, `json.loads` makes `errors` a `unicode`, so the
  message built at line 359 is `unicode`, and so is the argument of the
  `ValueError` raised there. `print e` at line 343 writes `str(e)`, which
  encodes that argument with Python 2's default ASCII codec, whatever the
  encoding of standard output. So it raises `UnicodeEncodeError` inside the
  `except` block, and the exception escapes `api_request`. The model has no
  standard output, so it does not capture this.
- ApiRequest: returns `None` for that reply, where the source raises the same
  `UnicodeEncodeError`.
- ErrorStatusYieldsEmptyTable: gives the empty table for that reply, where
  every query in the source raises the same `UnicodeEncodeError`.
- `str()` applied to ids, names and locations is the identity on strings. A
  non-integer `offset` is not modelled, since the offset is an `int`.
- LocationEndpoint, Render: strings are sequences of characters, while a
  Python 2 `str` is a sequence of bytes. So `len(location)` counts UTF-8 bytes
  in the source: `"é"` has length 2 there and goes to the states path, but it
  has length 1 in the model and goes to the zips path. Also, `str()` of a
  `unicode` id, name or location with a non-ASCII character raises
  `UnicodeEncodeError` in the source (lines 75, 135, 176, 178, 224, 283,
  307-308 and 333), and the model has no such exception.
- ResultsFit: for the plain queries it asks that `results` be `null`, an
  empty object or an array of objects. pandas also makes tables of other
  shapes: an array of scalars such as `[1]` gives a one-column table, and a
  non-empty object gives a table built by columns. The model does not cover
  those replies. For candidate search every excluded shape raises in the
  source.
- The unused `datetime` import is not part of this model, and neither is
  `setup.py`, which is packaging metadata.
