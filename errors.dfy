/** The gateway's error taxonomy and the error envelope every rejection
    carries. The clock is an input: `isoNow` is the text `isoformat()` gives
    for the current UTC time. */
module Errors {
  import opened Common

  datatype ErrorCode =
    | InvalidRequest
    | Unauthorized
    | Forbidden
    | NotFound
    | RateLimited
    | InternalServerError
    | ServiceUnavailable
    | RequestTimeout
  {
    /** The enum's string value. */
    function Value(): string {
      match this
      case InvalidRequest => "INVALID_REQUEST"
      case Unauthorized => "UNAUTHORIZED"
      case Forbidden => "FORBIDDEN"
      case NotFound => "NOT_FOUND"
      case RateLimited => "RATE_LIMITED"
      case InternalServerError => "INTERNAL_SERVER_ERROR"
      case ServiceUnavailable => "SERVICE_UNAVAILABLE"
      case RequestTimeout => "REQUEST_TIMEOUT"
    }
  }

  /** `map_http_status_to_error_code`. */
  function MapHttpStatusToErrorCode(status: int): (c: ErrorCode)
    ensures status == 400 <==> c == InvalidRequest
    ensures status == 401 <==> c == Unauthorized
    ensures status == 403 <==> c == Forbidden
    ensures status == 404 <==> c == NotFound
    ensures status == 429 <==> c == RateLimited
    ensures status == 502 || status == 503 <==> c == ServiceUnavailable
    ensures status == 504 <==> c == RequestTimeout
    ensures c == InternalServerError <==> status !in {400, 401, 403, 404, 429, 502, 503, 504}
  {
    if status == 400 then InvalidRequest
    else if status == 401 then Unauthorized
    else if status == 403 then Forbidden
    else if status == 404 then NotFound
    else if status == 429 then RateLimited
    else if status == 500 then InternalServerError
    else if status == 502 || status == 503 then ServiceUnavailable
    else if status == 504 then RequestTimeout
    else InternalServerError
  }

  /** The status each code is the image of (503 for SERVICE_UNAVAILABLE). */
  function CanonicalStatus(c: ErrorCode): int {
    match c
    case InvalidRequest => 400
    case Unauthorized => 401
    case Forbidden => 403
    case NotFound => 404
    case RateLimited => 429
    case InternalServerError => 500
    case ServiceUnavailable => 503
    case RequestTimeout => 504
  }

  /** Every code is reached: the status map is onto, and the canonical
      status of a code maps back to it. */
  lemma StatusMapOnto(c: ErrorCode)
    ensures MapHttpStatusToErrorCode(CanonicalStatus(c)) == c
  {
  }

  /** Distinct codes have distinct string values. */
  lemma ValuesDistinct(a: ErrorCode, b: ErrorCode)
    ensures a.Value() == b.Value() ==> a == b
  {
  }

  /** `ErrorDetail`: code, message and optional details. */
  datatype ErrorDetail = ErrorDetail(code: ErrorCode, message: string, details: Option<Dict>)

  /** `ErrorResponse`: `success` is false and `data` is null by construction. */
  datatype ErrorResponse = ErrorResponse(success: bool, data: Json, error: ErrorDetail, metadata: map<string, string>)

  /** `create_error_response`. */
  function CreateErrorResponse(code: ErrorCode, message: string, details: Option<Dict>,
                               correlationId: Option<string>, isoNow: string): (r: ErrorResponse)
    ensures !r.success && r.data == JNull
    ensures r.error == ErrorDetail(code, message, details)
    ensures "timestamp" in r.metadata && r.metadata["timestamp"] == isoNow + "Z"
    ensures "correlation_id" in r.metadata <==> Present(correlationId)
    ensures Present(correlationId) ==> r.metadata["correlation_id"] == correlationId.value
    ensures r.metadata.Keys <= {"timestamp", "correlation_id"}
  {
    var metadata := map["timestamp" := isoNow + "Z"];
    var metadata := if Present(correlationId) then metadata["correlation_id" := correlationId.value] else metadata;
    ErrorResponse(false, JNull, ErrorDetail(code, message, details), metadata)
  }

  const DEFAULT_MESSAGE := "An error occurred"

  /** `service_response.get("error", {}).get("message")`: the nested message,
      JNull when either level is missing; raises when "error" holds
      something other than an object. */
  function NestedMessage(response: Dict): (r: Fallible<Json>)
    ensures "error" !in response ==> r == Returns(JNull)
    ensures "error" in response && response["error"].JObject? ==> r == Returns(Get(response["error"].fields, "message"))
    ensures "error" in response && !response["error"].JObject? ==> r.Raises?
  {
    if "error" !in response then Returns(JNull)
    else match response["error"]
      case JObject(fields) => Returns(Get(fields, "message"))
      case _ => Raises("AttributeError")
  }

  /** `translate_service_error`: the code comes from the status; the message
      is the first truthy one of `error.message`, `message` and `detail`,
      else "An error occurred". A chosen message that is not a string fails
      the envelope's validation and raises. */
  function TranslateServiceError(status: int, response: Json, correlationId: Option<string>,
                                 isoNow: string): (r: Fallible<ErrorResponse>)
    ensures r.Returns? ==> r.value.error.code == MapHttpStatusToErrorCode(status)
    ensures r.Returns? ==> r.value == CreateErrorResponse(MapHttpStatusToErrorCode(status), r.value.error.message,
                                                          None, correlationId, isoNow)
    ensures !response.JObject? ==> r.Returns? && r.value.error.message == DEFAULT_MESSAGE
    ensures response.JObject? && NestedMessage(response.fields).Raises? ==> r.Raises?
  {
    var code := MapHttpStatusToErrorCode(status);
    if !response.JObject? then Returns(CreateErrorResponse(code, DEFAULT_MESSAGE, None, correlationId, isoNow))
    else
      var d := response.fields;
      match NestedMessage(d)
      case Raises(reason) => Raises(reason)
      case Returns(nested) =>
        var chosen := Or(nested, Or(Get(d, "message"), Or(Get(d, "detail"), JStr(DEFAULT_MESSAGE))));
        if chosen.JStr? then Returns(CreateErrorResponse(code, chosen.s, None, correlationId, isoNow))
        else Raises("ValidationError")
  }

  /** The message fallback chain on an object response whose `error` entry
      can be read: the first truthy one of the nested `error.message`, the
      top-level `message` and `detail` is the message when it is a string
      and makes the call raise otherwise; with none of the three truthy
      (an `error` object without a message included) the default message
      is used. */
  lemma TranslateMessageChain(status: int, d: Dict, correlationId: Option<string>, isoNow: string)
    ensures NestedMessage(d).Returns? ==>
              var t := TranslateServiceError(status, JObject(d), correlationId, isoNow);
              var code := MapHttpStatusToErrorCode(status);
              var nested, message, detail := NestedMessage(d).value, Get(d, "message"), Get(d, "detail");
              && (Truthy(nested) && nested.JStr? ==>
                    t == Returns(CreateErrorResponse(code, nested.s, None, correlationId, isoNow)))
              && (!Truthy(nested) && Truthy(message) && message.JStr? ==>
                    t == Returns(CreateErrorResponse(code, message.s, None, correlationId, isoNow)))
              && (!Truthy(nested) && !Truthy(message) && Truthy(detail) && detail.JStr? ==>
                    t == Returns(CreateErrorResponse(code, detail.s, None, correlationId, isoNow)))
              && (!Truthy(nested) && !Truthy(message) && !Truthy(detail) ==>
                    t == Returns(CreateErrorResponse(code, DEFAULT_MESSAGE, None, correlationId, isoNow)))
              && (Truthy(nested) && !nested.JStr? ==> t.Raises?)
              && (!Truthy(nested) && Truthy(message) && !message.JStr? ==> t.Raises?)
              && (!Truthy(nested) && !Truthy(message) && Truthy(detail) && !detail.JStr? ==> t.Raises?)
  {
  }
}
