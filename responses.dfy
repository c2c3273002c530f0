/**
 * check_api_error and the failure mapping of api_request: which response
 * bodies are rejected, and why.  JSON decoding is a parameter: a partial
 * function from the body to a value.
 */
module Responses {
  import opened JsonValues

  /** The exact body the service sends for an unknown or inactive API key. */
  const DeveloperInactive: string := "<h1>Developer Inactive</h1>"

  /** Why a body was rejected; each is a ValueError in the client. */
  datatype Rejection =
    | BadApiKey
    | Undecodable
    | ErrorResponse(errors: Json)

  datatype Verdict = Accepted | Rejected(reason: Rejection)

  /**
   * The check can only end in a verdict or a ValueError: a decodable body
   * other than the inactive-key page is an object with a status, and an
   * error status comes with errors.  Anything else raises KeyError or
   * TypeError, which the client does not catch.
   */
  predicate StatusReadable(body: string, decode: string -> Option<Json>) {
    || body == DeveloperInactive
    || decode(body).None?
    || (var j := decode(body).value;
        j.JObj? && "status" in j.fields && (j.fields["status"] == JStr("ERROR") ==> "errors" in j.fields))
  }

  function CheckApiError(body: string, decode: string -> Option<Json>): (v: Verdict)
    requires StatusReadable(body, decode)
    ensures v == Rejected(BadApiKey) <==> body == DeveloperInactive
    ensures v == Rejected(Undecodable) <==> body != DeveloperInactive && decode(body).None?
    ensures v.Rejected? && v.reason.ErrorResponse?
        <==> body != DeveloperInactive && decode(body).Some? && decode(body).value.fields["status"] == JStr("ERROR")
    ensures v.Rejected? && v.reason.ErrorResponse? ==> v.reason.errors == decode(body).value.fields["errors"]
  {
    if body == DeveloperInactive then Rejected(BadApiKey)
    else match decode(body)
      case None => Rejected(Undecodable)
      case Some(j) =>
        if j.fields["status"] == JStr("ERROR") then Rejected(ErrorResponse(j.fields["errors"])) else Accepted
  }

  /** What api_request hands back for a body: None stands for False. */
  function ApiResponse(body: string, decode: string -> Option<Json>): (data: Option<Json>)
    requires StatusReadable(body, decode)
    ensures data.None? <==> CheckApiError(body, decode).Rejected?
    ensures data.Some? ==> data == decode(body)
    ensures data.Some? ==>
              data.value.JObj? && "status" in data.value.fields && data.value.fields["status"] != JStr("ERROR")
  {
    if CheckApiError(body, decode).Rejected? then None else decode(body)
  }

  /**
   * The inactive-key page is rejected before any decoding: the verdict is the
   * same whatever the decoder would have made of it.
   */
  lemma InactiveKeyRejectedBeforeDecoding(decode1: string -> Option<Json>, decode2: string -> Option<Json>)
    ensures StatusReadable(DeveloperInactive, decode1) && StatusReadable(DeveloperInactive, decode2)
    ensures CheckApiError(DeveloperInactive, decode1) == CheckApiError(DeveloperInactive, decode2) == Rejected(BadApiKey)
    ensures ApiResponse(DeveloperInactive, decode1) == None
  {
  }
}
