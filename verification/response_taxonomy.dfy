/**
  A reference description of the router, written from its error taxonomy
  rather than handler by handler: which requirement a request fails first
  (authorization, then body format, then the backend, then existence), and
  the status, error code or success key each outcome is rendered with.
 */
module ResponseTaxonomy {
  import opened JsValues
  import opened BodyFilter
  import opened ProductRouter

  /** The classes of outcome a request can end in. */
  datatype Verdict =
    | AuthorizationError
    | ValidationError
    | BackendError(error: JsValue)
    | NotFoundError
    | Success(value: JsValue)

  /** Routes guarded by the admin flag: create, update and delete. */
  predicate NeedsAdmin(route: Route)
  {
    !route.ListAll? && !route.GetOne?
  }

  /** Routes whose body must carry every required product field. */
  predicate NeedsValidBody(route: Route)
  {
    route.Create? || route.Update?
  }

  /** Routes whose adapter call may answer with the not-found sentinel. */
  predicate MayBeMissing(route: Route)
  {
    !route.ListAll? && !route.Create?
  }

  /** The first requirement the request fails, in the order the router checks them. */
  function Classify(req: Request, outcome: AdapterOutcome): Verdict
  {
    if NeedsAdmin(req.route) && !Truthy(Get(req.body, AdminField)) then AuthorizationError
    else if NeedsValidBody(req.route) && exists k :: k in RequiredFields && IsNullish(Get(req.body, k)) then ValidationError
    else if outcome.Threw? then BackendError(outcome.error)
    else if MayBeMissing(req.route) && outcome.value == Null then NotFoundError
    else Success(outcome.value)
  }

  /** The success key of each route; get answers with the product itself. */
  function SuccessKey(route: Route): string
  {
    match route
    case ListAll => ProductsKey
    case GetOne(_) => ""
    case Create => SavedKey
    case Update(_) => UpdatedKey
    case Remove(_) => DeletedKey
  }

  /** The status and body each verdict is sent with. */
  function Render(route: Route, v: Verdict): Response
  {
    match v
    case AuthorizationError => Response(403, ErrorCode(-1))
    case ValidationError => Response(400, ErrorCode(-3))
    case BackendError(e) => Response(400, Raw(e))
    case NotFoundError => Response(404, ErrorCode(-4))
    case Success(x) => if route.GetOne? then Response(200, Raw(x)) else Response(200, Keyed(SuccessKey(route), x))
  }

  /** The router and the taxonomy agree on every request and every adapter outcome. */
  lemma ServeFollowsTaxonomy(req: Request, now: nat, outcome: AdapterOutcome)
    ensures Serve(req, now, outcome) == Render(req.route, Classify(req, outcome))
  {
  }

  /** Status codes determine the class of error: 403 only for authorization,
      404 only for a missing product, and 400 for format or backend failures. */
  lemma StatusDeterminesVerdict(req: Request, now: nat, outcome: AdapterOutcome)
    ensures Serve(req, now, outcome).status == 403 <==> Classify(req, outcome) == AuthorizationError
    ensures Serve(req, now, outcome).status == 404 <==> Classify(req, outcome) == NotFoundError
    ensures Serve(req, now, outcome).status == 400 <==>
              Classify(req, outcome) == ValidationError || Classify(req, outcome).BackendError?
    ensures Serve(req, now, outcome).status == 200 <==> Classify(req, outcome).Success?
  {
  }
}
