/**
 * A response of the LicenseJet API (LicenseJet/Response.php), with its
 * payload already decoded: the status code, the reason phrase and the payload.
 */
module Responses {
  import opened Values

  /** 200 OK (section 15.3.1 of RFC 9110). */
  const STATUS_OK := 200
  /** 304 Not Modified (section 15.4.5 of RFC 9110). */
  const STATUS_NOT_CHANGED := 304

  datatype Response = Response(status: int, reason: string, payload: Value)
  {
    /** `getStatusCode`: the status of the underlying HTTP response. */
    function StatusCode(): (code: int)
      ensures code == status
    {
      status
    }

    /** `isSuccessful`: the status is OK or Not Modified. */
    predicate IsSuccessful()
      ensures IsSuccessful() <==> status == 200 || status == 304
    {
      StatusCode() in [STATUS_OK, STATUS_NOT_CHANGED]
    }

    /** `getErrorMessage`: no message on success, the reason phrase otherwise. */
    function ErrorMessage(): (m: Option<string>)
      ensures m.None? <==> status == 200 || status == 304
      ensures m.Some? ==> m.value == reason
    {
      if IsSuccessful() then None else Some(reason)
    }

    /** `getPayload($default)`: the payload when it is truthy, else the default. */
    function Payload(default: Value): (p: Value)
      ensures Truthy(payload) ==> p == payload
      ensures !Truthy(payload) ==> p == default
    {
      if Truthy(payload) then payload else default
    }
  }

  /** An empty array, an empty string or a null payload yields the caller's default. */
  lemma EmptyPayloadGivesDefault(status: int, reason: string, payload: Value, default: Value)
    requires payload in {List([]), Dict(map[]), Str(""), Null}
    ensures Response(status, reason, payload).Payload(default) == default
  {
  }
}
