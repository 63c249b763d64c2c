/**
  The request filter that runs before the create, update and delete
  handlers. It reads the body once, flags it as invalid when a required
  product field is missing, and copies the client's `admin` value into the
  request as its authorization flag. It never answers the request itself.
 */
module BodyFilter {
  import opened JsValues

  /** The product fields a create or update body must carry, in the order the
      filter tests them. */
  const RequiredFields: seq<string> := ["nombre", "descripcion", "codigo", "url", "precio", "stock"]

  /** The body field read as the authorization signal. */
  const AdminField: string := "admin"

  /** What the filter leaves on the request for the handler: the invalid-body
      flag and the authorization flag (`undefined` when the filter did not set it). */
  datatype FilterResult = FilterResult(invalidBody: bool, isAdmin: JsValue)

  /** The left-to-right chain `body.f0 == null || body.f1 == null || ...`. */
  function AnyNullish(body: Body, fields: seq<string>): (r: bool)
    ensures r <==> exists i :: 0 <= i < |fields| && IsNullish(Get(body, fields[i]))
    decreases |fields|
  {
    if |fields| == 0 then false
    else if IsNullish(Get(body, fields[0])) then true
    else
      var rest := AnyNullish(body, fields[1..]);
      assert forall i :: 1 <= i < |fields| ==> fields[i] == fields[1..][i - 1];
      rest
  }

  /** The filter itself. */
  function ValidateBodyAndAuthenticate(body: Body): (f: FilterResult)
    ensures f.invalidBody <==> exists k :: k in RequiredFields && IsNullish(Get(body, k))
    ensures !IsNullish(Get(body, AdminField)) ==> f.isAdmin == body[AdminField]
    ensures IsNullish(Get(body, AdminField)) ==> f.isAdmin == Undefined
  {
    var admin := Get(body, AdminField);
    FilterResult(AnyNullish(body, RequiredFields), if !IsNullish(admin) then admin else Undefined)
  }

  /** Fields other than the six required ones never change the invalid-body
      flag: two bodies that agree on the required fields get the same flag. */
  lemma InvalidBodyIgnoresOtherFields(b1: Body, b2: Body)
    requires forall k :: k in RequiredFields ==> Get(b1, k) == Get(b2, k)
    ensures ValidateBodyAndAuthenticate(b1).invalidBody == ValidateBodyAndAuthenticate(b2).invalidBody
  {
  }

  /** A required field that is present counts as present even when it is
      falsy: a stock of 0 or an empty description does not make the body invalid. */
  lemma PresentFalsyFieldsAreValid(body: Body)
    requires forall k :: k in RequiredFields ==> k in body && body[k] in {Num(0.0), Str(""), Bool(false), NaN}
    ensures !ValidateBodyAndAuthenticate(body).invalidBody
  {
  }

  /** The authorization flag left by the filter is truthy exactly when the
      body's own `admin` value is; an unset flag is falsy. */
  lemma AuthorizedIffAdminTruthy(body: Body)
    ensures Truthy(ValidateBodyAndAuthenticate(body).isAdmin) <==> Truthy(Get(body, AdminField))
  {
  }
}
