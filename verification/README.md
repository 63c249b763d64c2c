# Product router decision logic

This project models the request logic of the `products` CRUD router of a small
Express application. It has three parts:

- **The validation and authorization filter.** It runs before create, update
  and delete. It flags a body as invalid when one of the six required product
  fields (`nombre`, `descripcion`, `codigo`, `url`, `precio`, `stock`) is
  `null` or absent. It copies a present `admin` value, verbatim, into the
  request's authorization flag.
- **The five route handlers.** Each handler is split at its `await`:
  - `Decide` either answers at once (403 with error -1, or 400 with error -3)
    or names the single storage-adapter call to make.
  - `Complete` maps the adapter's outcome to the response: a value, the
    `null` not-found sentinel (404 with error -4), or a thrown failure (400,
    with the thrown value as the body).
  - `Serve` chains the filter and the handler, as the router does.
- **Adapter selection.** This maps the `PERSISTENCE` setting to one of the
  four storage adapters, or to none.

JavaScript values are a datatype `JsValues.JsValue` covering undefined, null,
booleans, numbers (with NaN), strings, arrays and objects. The model defines
two JavaScript semantics precisely:

- loose `== null`, which the filter uses;
- truthiness, which the `!isAdmin` tests use.

The strict `=== null` tests in the handlers are plain equality with `Null`.
So an adapter that answers `undefined` gets a 200, exactly as in the code.

`ResponseTaxonomy` is an independent reference description of the router. It
classifies a request by the first requirement it fails, in this order:
authorization, then body format, then the backend, then existence. It then
renders that class with its status and code. `ResponseTaxonomy.ServeFollowsTaxonomy`
proves that the router and the reference agree on every request and every
adapter outcome.

The success keys are `productos`, `idProductoGuardado`, `idProductoActualizado`
and `idProductoEliminado` (src/router/product.js lines 29, 78, 103 and 126). The
required field names are Spanish (lines 53-54).

Every storage-adapter access sits inside its handler's `try` (lines 28, 39, 76,
101 and 121). So when no adapter is configured, the `TypeError` from reading
it is caught and sent with 400, like any other thrown value.

## Model

| member | source | states |
|---|---|---|
| JsValues.Get | src/router/product.js:53-56 | property access `body.x`: a value other than `undefined` comes from the body's own key |
| JsValues.IsNullish | src/router/product.js:53-56 | loose `v == null` holds of `null` and `undefined` only |
| JsValues.Truthy | src/router/product.js:66 | JavaScript truthiness as `!isAdmin` tests it; a truthy value is never nullish, and arrays and objects are always truthy |
| JsValues.NullishIsFalsy | src/router/product.js:56-66 | a value loosely equal to null is falsy; the only falsy values that are present are `false`, `0`, NaN and `""` |
| BodyFilter.AnyNullish | src/router/product.js:53-54 | the short-circuit chain of `== null` tests is true exactly when some listed field is null or missing |
| BodyFilter.ValidateBodyAndAuthenticate | src/router/product.js:51-60 | invalidBody holds exactly when some required field is null or absent; isAdmin is the body's `admin` value verbatim when that value is non-nullish, otherwise it stays undefined |
| BodyFilter.InvalidBodyIgnoresOtherFields | src/router/product.js:53-54 | two bodies that agree on the six required fields get the same invalid-body flag, whatever their other fields |
| BodyFilter.PresentFalsyFieldsAreValid | src/router/product.js:53-54 | required fields that are present but falsy (0, "", false, NaN) still make a valid body |
| BodyFilter.AuthorizedIffAdminTruthy | src/router/product.js:56-59 | the flag the filter leaves is truthy exactly when the body's `admin` is truthy, so an unset flag is falsy |
| AdapterSelection.SelectAdapter | src/router/product.js:9-24 | an adapter is selected exactly when the setting is one of the four recognised strings; the selected adapter is the one that setting names; the cloud and NoSQL adapters are built with their flag set |
| AdapterSelection.SelectionRoundTrip | src/router/product.js:9-24 | each adapter, as built by the selector, is selected by its own setting name and by no other string |
| AdapterSelection.SelectionIsCaseSensitive | src/router/product.js:9-24 | any setting that contains a lower-case ASCII letter, and an absent setting, leaves the adapter unset |
| ProductRouter.StoredRecord | src/router/product.js:74-75 | the record passed to the adapter has no `admin` key; its keys are the body's, minus `admin`, plus `timestamp`; `timestamp` is the clock value; every other field is unchanged |
| ProductRouter.Decide | src/router/product.js:26-121 | the adapter is reached only through the call that fits the route; a write reaches it only with a truthy flag, and create or update only with a valid body; an early answer happens exactly on the failed gates and is 403 or 400, and it is 403 exactly when the flag is falsy |
| ProductRouter.Complete | src/router/product.js:26-131 | a thrown failure, and only that, gives 400 with the raw thrown value; 404 with -4 happens exactly when get, update or delete returns `null`; a 200 echoes the adapter's value |
| ProductRouter.AuthorizationPrecedesValidation | src/router/product.js:66-73 | on create and update, a falsy flag gives 403 with -1 whatever the body's validity, before any adapter call |
| ProductRouter.InvalidBodyRejected | src/router/product.js:70-73 | on create and update, a truthy flag with an invalid body gives 400 with -3, before any adapter call |
| ProductRouter.DeleteIgnoresBodyValidity | src/router/product.js:113-121 | delete's response never depends on the invalid-body flag; with a truthy flag it always calls `deleteById` on the route's id |
| ProductRouter.EarlyResponseIgnoresAdapter | src/router/product.js:66-73 | when a handler answers before its adapter call, no adapter outcome can change the response |
| ProductRouter.ReadsIgnoreFilter | src/router/product.js:26-49 | list and get do not depend on any filter result; their response is determined by the adapter outcome alone |
| ProductRouter.NotFoundSentinel | src/router/product.js:39-126 | on get, update and delete, a 404 happens exactly when the adapter returns `null`; any other value, `undefined` included, gives 200 and is carried back unchanged |
| ProductRouter.AdapterFailureIsRaw400 | src/router/product.js:26-131 | on every route, once the adapter is called, a thrown failure gives 400 with the thrown value as the body |
| ProductRouter.StoredRecordRefilters | src/router/product.js:74-76 | the stored record is valid exactly when the body was, and it no longer carries an authorization flag |
| ProductRouter.TimestampOverridesClient | src/router/product.js:75 | a client-supplied `timestamp` has no effect on the stored record |
| ProductRouter.NonAdminWriteForbidden | src/router/product.js:56-67 | end to end, a create, update or delete whose body has no truthy `admin` gets 403, whatever the rest of the body and the adapter |
| ProductRouter.AdminInvalidWriteRejected | src/router/product.js:53-72 | end to end, an admin create or update missing a required field gets 400 with -3 |
| ProductRouter.AdminValidCreateSaves | src/router/product.js:62-78 | end to end, a valid admin create saves the stripped, timestamped body and answers 200 with `idProductoGuardado` set to the returned id |
| ProductRouter.Handle | src/router/product.js:62-131 | a handler answers with 200, 400, 403 or 404; 403 happens exactly on a write with a falsy flag; 400 with -3 happens exactly on an authorized create or update with an invalid body |
| ProductRouter.Serve | src/router/product.js:62-131 | the filter runs on the write routes and always hands on: 403 happens exactly on a write whose body has no truthy `admin`; 400 with -3 happens exactly on an admin create or update missing a required field; reads are decided by the adapter outcome alone |
| ResponseTaxonomy.ServeFollowsTaxonomy | src/router/product.js:26-131 | the router's response always equals the rendering of the first failed requirement, in the order authorization, body format, backend, existence |
| ResponseTaxonomy.StatusDeterminesVerdict | src/router/product.js:26-131 | 403 means only an authorization failure; 404 means only a missing product; 400 means a format or backend failure; 200 means success |

## Left out

- Express routing, `req`/`res` mutation and `next()`. The filter's result is an
  explicit value passed to the handler.
- `dotenv` and the dynamic `import()` of the adapter modules. Only the mapping
  from the setting string to the adapter kind is modelled.
- The four storage adapters, which are I/O. Each adapter call is an outcome
  supplied as input. So the end-to-end properties that depend on storage are
  not modelled: "create then get returns the same fields", and "a second
  delete of the same id gives 404".
- An unconfigured adapter. Every access to it sits inside the handler's `try`,
  so its `TypeError` is one of the thrown outcomes. The error object itself is
  not modelled.
- `async`/`await` and concurrency between requests.
- `Date.now()`. The clock value is the `now` parameter.
- The Spanish description strings. Only status codes, error codes and success
  keys are modelled.
- A `null` or `undefined` request body. Reading `body.nombre` on it throws
  outside the `try`. A primitive body does not throw: it reads like an empty
  body, which the model covers.
- Express's one-argument `res.send(n)` with a number `n`. It sets the status
  to `n`, so a numeric product or numeric thrown value would not give 200 or
  400 with that value as the body. The model sends every value with the
  handler's status.
- Property order of JavaScript objects. Bodies are maps.
- Numbers as IEEE doubles. Numbers are reals, with NaN kept apart. Only the
  zero test that truthiness performs matters to the router.
- The mutation of `req.body` by `delete product.admin`. Nothing reads the body
  afterwards.
