/**
  The decision logic of the five product routes. A handler first decides,
  from the route, the request body and what the filter left on the request,
  either to answer at once (403 or 400) or to make one storage-adapter call;
  the adapter's outcome (a value, the `null` not-found sentinel, or a thrown
  failure) then fixes the response. The adapter and the clock are inputs.
 */
module ProductRouter {
  import opened JsValues
  import opened BodyFilter

  datatype Route =
    | ListAll                // GET /
    | GetOne(id: string)     // GET /:id
    | Create                 // POST /
    | Update(id: string)     // PUT /:id
    | Remove(id: string)     // DELETE /:id

  /** The routes that sit behind the filter and require the admin flag. */
  predicate IsWrite(route: Route)
  {
    route.Create? || route.Update? || route.Remove?
  }

  datatype Request = Request(route: Route, body: Body)

  /** One call on the storage adapter's contract. */
  datatype AdapterCall =
    | GetAll
    | GetById(id: string)
    | Save(record: Body)
    | UpdateById(id: string, record: Body)
    | DeleteById(id: string)

  /** How an adapter call ended: it returned a value (possibly the `null`
      not-found sentinel) or it threw. */
  datatype AdapterOutcome = Returned(value: JsValue) | Threw(error: JsValue)

  /** A response body: an error object `{ error, descripcion }` (the
      description text is not modelled), a one-key success object, or a value
      sent as it is. */
  datatype Payload =
    | ErrorCode(code: int)
    | Keyed(key: string, value: JsValue)
    | Raw(value: JsValue)

  datatype Response = Response(status: int, payload: Payload)

  /** The first half of a handler: answer at once, or call the adapter. */
  datatype Step = Respond(response: Response) | Invoke(call: AdapterCall)

  const NotAuthorized: int := -1
  const InvalidFormat: int := -3
  const NotFound: int := -4

  const ProductsKey: string := "productos"
  const SavedKey: string := "idProductoGuardado"
  const UpdatedKey: string := "idProductoActualizado"
  const DeletedKey: string := "idProductoEliminado"

  const TimestampField: string := "timestamp"

  const Forbidden: Response := Response(403, ErrorCode(NotAuthorized))
  const BadFormat: Response := Response(400, ErrorCode(InvalidFormat))
  const Missing: Response := Response(404, ErrorCode(NotFound))

  /** What the request carries on the read routes, which the filter does not see. */
  const Unfiltered: FilterResult := FilterResult(false, Undefined)

  /** The record handed to `save` and `updateById`: the body without `admin`,
      spread into a new object whose `timestamp` is the current time. */
  function StoredRecord(body: Body, now: nat): (rec: Body)
    ensures AdminField !in rec
    ensures rec.Keys == (body.Keys - {AdminField}) + {TimestampField}
    ensures rec[TimestampField] == Num(now as real)
    ensures forall k :: k in body && k != AdminField && k != TimestampField ==> rec[k] == body[k]
  {
    (body - {AdminField})[TimestampField := Num(now as real)]
  }

  /** The adapter call each route makes, when it makes one. */
  predicate CallFits(route: Route, call: AdapterCall, body: Body, now: nat)
  {
    match route
    case ListAll => call == GetAll
    case GetOne(id) => call == GetById(id)
    case Create => call == Save(StoredRecord(body, now))
    case Update(id) => call == UpdateById(id, StoredRecord(body, now))
    case Remove(id) => call == DeleteById(id)
  }

  /** The part of each handler before its `await`. */
  function Decide(route: Route, body: Body, ctx: FilterResult, now: nat): (s: Step)
    ensures s.Invoke? ==> CallFits(route, s.call, body, now)
    ensures s.Invoke? && IsWrite(route) ==> Truthy(ctx.isAdmin)
    ensures s.Invoke? && (route.Create? || route.Update?) ==> !ctx.invalidBody
    ensures s.Respond? <==> IsWrite(route) && (!Truthy(ctx.isAdmin) || (!route.Remove? && ctx.invalidBody))
    ensures s.Respond? ==> s.response in {Forbidden, BadFormat}
    ensures s.Respond? ==> (s.response == Forbidden <==> !Truthy(ctx.isAdmin))
  {
    match route
    case ListAll => Invoke(GetAll)
    case GetOne(id) => Invoke(GetById(id))
    case Create =>
      if !Truthy(ctx.isAdmin) then Respond(Forbidden)
      else if ctx.invalidBody then Respond(BadFormat)
      else Invoke(Save(StoredRecord(body, now)))
    case Update(id) =>
      if !Truthy(ctx.isAdmin) then Respond(Forbidden)
      else if ctx.invalidBody then Respond(BadFormat)
      else Invoke(UpdateById(id, StoredRecord(body, now)))
    case Remove(id) =>
      if !Truthy(ctx.isAdmin) then Respond(Forbidden)
      else Invoke(DeleteById(id))
  }

  /** The part of each handler after its `await`, including its `catch`. */
  function Complete(route: Route, outcome: AdapterOutcome): (resp: Response)
    ensures resp.status in {200, 400, 404}
    ensures resp.status == 400 <==> outcome.Threw?
    ensures outcome.Threw? ==> resp.payload == Raw(outcome.error)
    ensures resp.status == 404 <==> resp == Missing
    ensures resp.status == 404 <==>
              (route.GetOne? || route.Update? || route.Remove?) && outcome == Returned(Null)
    ensures resp.status == 200 ==> outcome.Returned? && !resp.payload.ErrorCode? && resp.payload.value == outcome.value
  {
    match outcome
    case Threw(e) => Response(400, Raw(e))
    case Returned(v) =>
      match route
      case ListAll => Response(200, Keyed(ProductsKey, v))
      case GetOne(_) => if v == Null then Missing else Response(200, Raw(v))
      case Create => Response(200, Keyed(SavedKey, v))
      case Update(_) => if v != Null then Response(200, Keyed(UpdatedKey, v)) else Missing
      case Remove(_) => if v == Null then Missing else Response(200, Keyed(DeletedKey, v))
  }

  /** A whole handler, given the outcome the adapter would produce if called. */
  function Handle(route: Route, body: Body, ctx: FilterResult, now: nat, outcome: AdapterOutcome): (r: Response)
    ensures r.status in {200, 400, 403, 404}
    ensures r.status == 403 <==> IsWrite(route) && !Truthy(ctx.isAdmin)
    ensures r.status == 403 ==> r == Forbidden
    ensures r == BadFormat <==> (route.Create? || route.Update?) && Truthy(ctx.isAdmin) && ctx.invalidBody
  {
    match Decide(route, body, ctx, now)
    case Respond(r) => r
    case Invoke(_) => Complete(route, outcome)
  }

  /** The router: the filter runs first on the write routes and always hands
      on to the handler. */
  function Serve(req: Request, now: nat, outcome: AdapterOutcome): (r: Response)
    ensures r.status == 403 <==> IsWrite(req.route) && !Truthy(Get(req.body, AdminField))
    ensures r == BadFormat <==>
              && (req.route.Create? || req.route.Update?)
              && Truthy(Get(req.body, AdminField))
              && exists k :: k in RequiredFields && IsNullish(Get(req.body, k))
    ensures !IsWrite(req.route) ==> r == Complete(req.route, outcome)
  {
    var ctx := if IsWrite(req.route) then ValidateBodyAndAuthenticate(req.body) else Unfiltered;
    Handle(req.route, req.body, ctx, now, outcome)
  }

  /** On create and update, a falsy authorization flag gives 403 with error -1
      whatever the body's validity, and the adapter is not called. */
  lemma AuthorizationPrecedesValidation(route: Route, body: Body, ctx: FilterResult, now: nat, outcome: AdapterOutcome)
    requires route.Create? || route.Update?
    requires !Truthy(ctx.isAdmin)
    ensures Decide(route, body, ctx, now) == Respond(Forbidden)
    ensures Handle(route, body, ctx, now, outcome) == Response(403, ErrorCode(-1))
  {
  }

  /** On create and update, an authorized request with an invalid body gives
      400 with error -3, and the adapter is not called. */
  lemma InvalidBodyRejected(route: Route, body: Body, ctx: FilterResult, now: nat, outcome: AdapterOutcome)
    requires route.Create? || route.Update?
    requires Truthy(ctx.isAdmin) && ctx.invalidBody
    ensures Decide(route, body, ctx, now) == Respond(BadFormat)
    ensures Handle(route, body, ctx, now, outcome) == Response(400, ErrorCode(-3))
  {
  }

  /** Delete looks only at the authorization flag: the invalid-body flag never
      changes its response, and an authorized delete always reaches `deleteById`. */
  lemma DeleteIgnoresBodyValidity(id: string, body: Body, admin: JsValue, inv1: bool, inv2: bool, now: nat, outcome: AdapterOutcome)
    ensures Handle(Remove(id), body, FilterResult(inv1, admin), now, outcome)
         == Handle(Remove(id), body, FilterResult(inv2, admin), now, outcome)
    ensures Truthy(admin) ==> Decide(Remove(id), body, FilterResult(inv1, admin), now) == Invoke(DeleteById(id))
  {
  }

  /** When the handler answers before its adapter call, the adapter's outcome
      cannot influence the response. */
  lemma EarlyResponseIgnoresAdapter(route: Route, body: Body, ctx: FilterResult, now: nat, o1: AdapterOutcome, o2: AdapterOutcome)
    requires Decide(route, body, ctx, now).Respond?
    ensures Handle(route, body, ctx, now, o1) == Handle(route, body, ctx, now, o2)
  {
  }

  /** The read routes do not depend on the filter's result. */
  lemma ReadsIgnoreFilter(route: Route, body: Body, c1: FilterResult, c2: FilterResult, now: nat, outcome: AdapterOutcome)
    requires !IsWrite(route)
    ensures Handle(route, body, c1, now, outcome) == Handle(route, body, c2, now, outcome)
    ensures Handle(route, body, c1, now, outcome) == Complete(route, outcome)
  {
  }

  /** The `null` sentinel means not found on get, update and delete; any other
      returned value is a 200 that carries it back unchanged. The comparison is
      strict, so an adapter returning `undefined` gets a 200. */
  lemma NotFoundSentinel(route: Route, v: JsValue)
    requires route.GetOne? || route.Update? || route.Remove?
    ensures Complete(route, Returned(v)) == Missing <==> v == Null
    ensures v != Null && route.GetOne? ==> Complete(route, Returned(v)) == Response(200, Raw(v))
    ensures v != Null && route.Update? ==> Complete(route, Returned(v)) == Response(200, Keyed(UpdatedKey, v))
    ensures v != Null && route.Remove? ==> Complete(route, Returned(v)) == Response(200, Keyed(DeletedKey, v))
    ensures Complete(route, Returned(Undefined)).status == 200
  {
  }

  /** On every route, an adapter failure becomes a 400 whose body is the
      thrown value itself. */
  lemma AdapterFailureIsRaw400(route: Route, body: Body, ctx: FilterResult, now: nat, e: JsValue)
    requires Decide(route, body, ctx, now).Invoke?
    ensures Handle(route, body, ctx, now, Threw(e)) == Response(400, Raw(e))
  {
  }

  /** The stored record passes the filter exactly when the original body did,
      and it can no longer carry an authorization flag. */
  lemma StoredRecordRefilters(body: Body, now: nat)
    ensures ValidateBodyAndAuthenticate(StoredRecord(body, now)).invalidBody
         == ValidateBodyAndAuthenticate(body).invalidBody
    ensures ValidateBodyAndAuthenticate(StoredRecord(body, now)).isAdmin == Undefined
  {
  }

  /** A client-supplied timestamp never reaches the adapter: the handler's
      clock value overrides it. */
  lemma TimestampOverridesClient(body: Body, now: nat, client: JsValue)
    ensures StoredRecord(body[TimestampField := client], now) == StoredRecord(body, now)
  {
  }

  /** End to end: a write whose body has no truthy `admin` is refused with 403,
      whatever else the body holds and whatever the adapter would do. */
  lemma NonAdminWriteForbidden(req: Request, now: nat, outcome: AdapterOutcome)
    requires IsWrite(req.route)
    requires !Truthy(Get(req.body, AdminField))
    ensures Serve(req, now, outcome) == Forbidden
  {
  }

  /** End to end: an admin create or update missing a required field is
      refused with 400 and error -3. */
  lemma AdminInvalidWriteRejected(req: Request, now: nat, outcome: AdapterOutcome, k: string)
    requires req.route.Create? || req.route.Update?
    requires Truthy(Get(req.body, AdminField))
    requires k in RequiredFields && IsNullish(Get(req.body, k))
    ensures Serve(req, now, outcome) == BadFormat
  {
  }

  /** End to end: an admin create with every required field present saves the
      stripped, timestamped record and answers 200 with the new id. */
  lemma AdminValidCreateSaves(body: Body, now: nat, id: JsValue)
    requires Truthy(Get(body, AdminField))
    requires forall k :: k in RequiredFields ==> !IsNullish(Get(body, k))
    ensures Decide(Create, body, ValidateBodyAndAuthenticate(body), now) == Invoke(Save(StoredRecord(body, now)))
    ensures Serve(Request(Create, body), now, Returned(id)) == Response(200, Keyed(SavedKey, id))
  {
  }
}
