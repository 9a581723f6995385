/** Token post-checks and claim extraction. Decoding and signature
    verification happen in a library and are an input here: the decoded
    payload, or None when decoding raised. Time `now` is in whole seconds
    since the epoch; the `exp` claim is a NumericDate in the sense of
    section 4.1.4 of RFC 7519. */
module Jwt {
  import opened Common

  /** `datetime.fromtimestamp(exp)` on a JSON claim: an integer (a boolean
      counts as 0 or 1, as in Python) gives those seconds; any other type
      raises. */
  function ExpSeconds(exp: Json): (r: Option<int>)
    ensures exp.JInt? ==> r == Some(exp.i)
    ensures exp.JBool? ==> r == Some(if exp.b then 1 else 0)
    ensures !exp.JInt? && !exp.JBool? ==> r.None?
  {
    match exp
    case JInt(i) => Some(i)
    case JBool(b) => Some(if b then 1 else 0)
    case _ => None
  }

  /** `validate_token` after decoding. */
  function ValidateToken(decoded: Option<Dict>, now: int): (r: Option<Dict>)
    ensures decoded.None? ==> r.None?
    ensures r.Some? ==> r == decoded
    ensures r.Some? ==> Truthy(Get(decoded.value, "user_id"))
    ensures (decoded.Some? && Get(decoded.value, "exp").JInt? && Get(decoded.value, "exp").i != 0
             && now > Get(decoded.value, "exp").i) ==> r.None?
    ensures decoded.Some? && Truthy(Get(decoded.value, "exp")) && ExpSeconds(Get(decoded.value, "exp")).None? ==> r.None?
    ensures decoded.Some? && Truthy(Get(decoded.value, "user_id")) && !Truthy(Get(decoded.value, "exp")) ==> r == decoded
    ensures (decoded.Some? && Truthy(Get(decoded.value, "user_id")) && Get(decoded.value, "exp").JInt?
             && now <= Get(decoded.value, "exp").i) ==> r == decoded
  {
    match decoded
    case None => None
    case Some(payload) =>
      var exp := Get(payload, "exp");
      if Truthy(exp) && ExpSeconds(exp).None? then None
      else if Truthy(exp) && now > ExpSeconds(exp).value then None
      else if !Truthy(Get(payload, "user_id")) then None
      else Some(payload)
  }

  /** `get_user_id`: `user_id` when truthy, else `sub` (JNull when absent). */
  function GetUserId(payload: Dict): (r: Json)
    ensures Truthy(Get(payload, "user_id")) ==> r == payload["user_id"]
    ensures !Truthy(Get(payload, "user_id")) ==> r == Get(payload, "sub")
  {
    Or(Get(payload, "user_id"), Get(payload, "sub"))
  }

  /** `get_tenant_id`: the claim as is, JNull when absent. */
  function GetTenantId(payload: Dict): (r: Json)
    ensures "tenant_id" in payload ==> r == payload["tenant_id"]
    ensures "tenant_id" !in payload ==> r == JNull
  {
    Get(payload, "tenant_id")
  }

  /** `get_roles`: a string becomes a one-element list, a list is kept, and
      anything else (including an absent claim) gives the empty list. */
  function GetRoles(payload: Dict): (r: seq<Json>)
    ensures "roles" in payload && payload["roles"].JStr? ==> r == [payload["roles"]]
    ensures "roles" in payload && payload["roles"].JList? ==> r == payload["roles"].items
    ensures ("roles" !in payload || (!payload["roles"].JStr? && !payload["roles"].JList?)) ==> r == []
  {
    var roles := if "roles" in payload then payload["roles"] else JList([]);
    match roles
    case JStr(_) => [roles]
    case JList(items) => items
    case _ => []
  }

  /** `is_token_near_expiry`: false without a truthy `exp`, else whether
      `exp` falls no later than `threshold` minutes from now. A non-numeric
      `exp` raises, since the source does not catch the error. */
  function IsTokenNearExpiry(payload: Dict, thresholdMinutes: int, now: int): (r: Fallible<bool>)
    ensures !Truthy(Get(payload, "exp")) ==> r == Returns(false)
    ensures Truthy(Get(payload, "exp")) && !Get(payload, "exp").JInt? && !Get(payload, "exp").JBool? ==> r.Raises?
    ensures Get(payload, "exp").JInt? && Get(payload, "exp").i != 0 ==>
              r == Returns(Get(payload, "exp").i <= now + thresholdMinutes * 60)
  {
    var exp := Get(payload, "exp");
    if !Truthy(exp) then Returns(false)
    else
      match ExpSeconds(exp)
      case None => Raises("TypeError")
      case Some(seconds) => Returns(seconds <= now + thresholdMinutes * 60)
  }

  /** A decoded token that is not near expiry for a non-negative threshold
      passes the expiry check, so it is valid exactly when it carries a
      user id. */
  lemma NotNearExpiryIsUnexpired(payload: Dict, thresholdMinutes: int, now: int)
    requires thresholdMinutes >= 0
    requires IsTokenNearExpiry(payload, thresholdMinutes, now) == Returns(false)
    ensures ValidateToken(Some(payload), now).Some? <==> Truthy(Get(payload, "user_id"))
  {
  }

  /** On a token the validator accepts, the near-expiry check never raises,
      whatever the threshold, and a truthy `exp` lies no earlier than `now`. */
  lemma AcceptedTokenNearExpiryDefined(payload: Dict, thresholdMinutes: int, now: int)
    requires ValidateToken(Some(payload), now).Some?
    ensures IsTokenNearExpiry(payload, thresholdMinutes, now).Returns?
    ensures Truthy(Get(payload, "exp")) ==> now <= ExpSeconds(Get(payload, "exp")).value
  {
  }

  /** A claim as `check_all_limits` uses it: `if user_id:` skips a falsy
      claim, and a truthy one is formatted into the storage key by
      `f"user:{user_id}"`, so a string is kept, an integer is written in
      decimal and `True` reads "True". Lists and objects are not rendered. */
  function ClaimText(v: Json): (r: Option<string>)
    ensures Present(r) <==> Truthy(v) && !v.JList? && !v.JObject?
    ensures !Truthy(v) || v.JList? || v.JObject? ==> r.None?
    ensures v.JStr? && Truthy(v) ==> r == Some(v.s)
    ensures v.JInt? && Truthy(v) ==> r.Some? && ParseDecimal(r.value) == Some(v.i)
    ensures v == JBool(true) ==> r == Some("True")
  {
    if !Truthy(v) then None
    else match v
      case JStr(s) => Some(s)
      case JInt(i) => DecimalStringRoundTrip(i); Some(DecimalString(i))
      case JBool(_) => Some("True")
      case _ => None
  }
}
