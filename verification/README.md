# Authorization and session handling of the snippets web application

This project models, in Dafny, the decision logic of a small Express web
application in which users manage their own text "snippets":

- the three guards of `AuthorizationController`
  (`src/controllers/authorization-controller.js`): `ifNOTLoggedIn`, which in
  fact requires an authenticated visitor; `ifLoggedIn`, which in fact requires
  an anonymous one; and `authorizeUser`, which requires the session's user to
  be strictly equal to the snippet's author;
- from `src/server.js`: the `BASE_URL` default, the production-only hardening
  of the session cookie, the per-request middleware that takes the one-shot
  flash message out of the session and exposes flash, user and base URL to the
  views, and the terminal error handler.

Files:

- `js_values.dfy` (module `JsValues`): optional properties, JavaScript
  truthiness of strings and numbers, the `Error` object with its `status`.
- `sessions.dfy` (module `Sessions`): the session record, as a value
  (`SessionState`) and as the object the middleware mutates (`Session`).
- `authorization_controller.dfy` (module `AuthorizationController`): the guards
  as functions from the session (and, for ownership, the result of the snippet
  lookup) to the one argument of their single `next` call.
- `server.dfy` (module `Server`): configuration, the middleware (a method on
  `Session` and `Locals` objects, specified by the function `Expose`), a model
  of successive requests sharing a session, and the error handler.
- `pipeline.dfy` (module `Pipeline`): how a guard's outcome becomes the
  response, with the end-to-end scenarios.

Modelling choices:

- A guard ends in exactly one call of `next`, thanks to the early `return`s.
  The model makes this structural: a guard returns one `Outcome` value,
  `Proceed` for `next()` and `Fail(e)` for `next(e)`. Being functions, the
  guards cannot change the session or the snippet.
- The awaited `Snippet.findById` becomes the parameter `Lookup`:
  `Found(author)`, `NoSnippet` (the query yields `null`) or `Fault(e)` (the
  promise rejects, e.g. for a malformed id).
- `session.user`, `session.flash`, `BASE_URL` and the `locals` properties are
  `Option<string>`; `None` is `undefined`, and `""` is falsy like `undefined`
  (`Truthy`). An `err.status` is `Option<int>`, falsy when absent or `0`.
- The middleware's single `next()` call is its return.

In two places the code behaves differently from what such a gate is
usually meant to do; the model follows the code:

- A missing snippet is not answered with 403. At
  `src/controllers/authorization-controller.js:70` the code reads `.author` of
  `null`; the TypeError thrown has no status, the `catch` forwards it, and the
  error handler renders it with status 500 (`MissingSnippetIsServerError`).
- The error handler shows the full error in every environment. The branch that
  would send a generic 500 page outside development
  (`src/server.js:158-164`) is commented out (`DetailShownInEveryMode`).

## Model

| member | source | states |
|---|---|---|
| `AuthorizationController.IfNotLoggedIn` | src/controllers/authorization-controller.js:23-33 | proceeds exactly when `session.user` is truthy; otherwise fails with the 403 `Forbidden` error |
| `AuthorizationController.IfLoggedIn` | src/controllers/authorization-controller.js:44-54 | proceeds exactly when `session.user` is falsy; otherwise fails with the 403 `Forbidden` error |
| `AuthorizationController.AuthorizeUser` | src/controllers/authorization-controller.js:65-79 | proceeds exactly when a snippet was found and `session.user` is strictly equal to its author; a found snippet with any other user (or none) gives the 403 `Forbidden` error; a lookup fault is forwarded unchanged; a missing snippet gives an error with no status |
| `AuthorizationController.LoginGuardsComplementary` | src/controllers/authorization-controller.js:23-54 | for every session exactly one of `ifNOTLoggedIn` and `ifLoggedIn` lets the request through |
| `AuthorizationController.OwnershipImpliesAuthenticated` | src/controllers/authorization-controller.js:65-79 | passing the ownership guard for a non-empty author implies a present user who also passes `ifNOTLoggedIn` |
| `AuthorizationController.FaultNeverBecomesForbidden` | src/controllers/authorization-controller.js:66-78 | a lookup fault ends as 403 only if it already carried status 403; a fault without status stays without status |
| `Server.BaseURL` | src/server.js:43 | the base URL is `BASE_URL` when that is truthy and `/` otherwise, so it is never empty |
| `Server.ConfigureSession` | src/server.js:71-89 | the cookie is secure and the first proxy trusted exactly in `production`; the cookie lives 86,400,000 ms with `sameSite` `strict`; `resave` is on and `saveUninitialized` off |
| `Server.Expose` | src/server.js:102-133 | a truthy flash moves from the session to the locals; a falsy one is neither copied nor deleted; a truthy user is copied and kept in the session; the base URL is always set |
| `Server.ExposeSession` | src/server.js:102-133 | the in-place middleware changes only `session.flash` and the locals, and leaves them as `Expose` says |
| `Server.BaseURLAlwaysExposed` | src/server.js:43-129 | the locals' base URL is the configured `BASE_URL` when truthy, `/` otherwise, and is never empty |
| `Server.FlashTakenOnlyOnce` | src/server.js:104-109 | of two runs on the same session with no re-arming, only the first exposes the flash, and the user stays |
| `Server.RunShape` | src/server.js:102-133 | over any sequence of requests and re-armings, one `res.locals.flash` value is recorded per request and `session.user` never changes |
| `Server.FlashAtMostOncePerArming` | src/server.js:103-109 | messages exposed in `res.locals.flash` plus the one still pending never exceed the messages armed: no flash is exposed twice |
| `Server.DeliveredFlashIsTruthy` | src/server.js:104-107 | every flash exposed in `res.locals.flash` is a truthy message |
| `Server.ArmedFlashDeliveredExactlyOnce` | src/server.js:103-109 | an armed flash is exposed in `res.locals.flash` of the first of any number of following requests and of none of the others |
| `Server.HandleError` | src/server.js:142-177 | status 404 gives the 404 page, status 403 the 403 page, anything else the error view carrying the error itself, with its status when truthy and 500 otherwise; the response status is never 0 |
| `Server.DetailShownInEveryMode` | src/server.js:157-176 | for an error that is neither 404 nor 403 the response is the detailed error view and does not depend on the environment |
| `Pipeline.Respond` | src/server.js:142-177 | a failed guard yields one error response: the 403 page exactly for status 403, the 404 page exactly for status 404, otherwise the detailed view showing that very error; its status is never 0; a passed guard yields none |
| `Pipeline.FlashUsedUpByRefusedRequest` | src/server.js:104-108 | the flash is taken before routing, so a request that a guard then refuses with the static 403 page still uses the message up |
| `Pipeline.AnonymousGetsForbiddenPage` | src/controllers/authorization-controller.js:23-54 | an anonymous visitor gets the 403 page from `ifNOTLoggedIn` and passes `ifLoggedIn` |
| `Pipeline.LoggedInGetsForbiddenPage` | src/controllers/authorization-controller.js:23-54 | a logged-in visitor gets the 403 page from `ifLoggedIn` and passes `ifNOTLoggedIn` |
| `Pipeline.NonOwnerGetsForbiddenPage` | src/controllers/authorization-controller.js:67-74 | a user other than the author, or no user, gets the 403 page |
| `Pipeline.OwnerProceeds` | src/controllers/authorization-controller.js:67-75 | the author goes on to the route handler |
| `Pipeline.MissingSnippetIsServerError` | src/controllers/authorization-controller.js:67-77 | an id with no snippet ends as a detailed 500 error page, neither 403 nor 404 |
| `Pipeline.FaultIsServerError` | src/controllers/authorization-controller.js:76-78 | a lookup fault without status ends as a detailed 500 error page showing that fault |
| `Pipeline.ForbiddenPageOnlyFor403` | src/server.js:150-155 | the 403 page is sent exactly for failures whose status is 403 |

## Left out

- Database connection, server start-up and shutdown (`src/server.js:23-25`, `:181-188`): I/O and process lifecycle.
- Express wiring without decisions: logger, view engine and layouts, body parsing, static files, CORS preflight options, route registration.
- The session store (`MemoryStore`), cookie signing and session persistence; the session is a record passed in and out, and `saveUninitialized`/`resave` are only recorded as options.
- `Snippet.findById`, Mongoose id casting and the snippet schema: replaced by the `Lookup` parameter. The snippet's author is taken to be a string; `src/models/snippet.js` is not part of this model.
- `async`/`await` and races between concurrent requests sharing a session: requests are processed one after another.
- The `console.log`/`console.error` debugging output.
- Rendering: the HTML files and the error template are abstract pages; `res.status` rejecting out-of-range codes is not modelled.
- How Express derives the environment (`NODE_ENV`, defaulting to `development`): the environment is a string parameter.
- JavaScript values other than strings for `user` and `flash` (a flash object is truthy like a non-empty string), and `status` values that are not integers (a string `"403"` is not strictly equal to `403`).
- A downstream handler throwing out of `next()` inside the `try` of `authorizeUser` could reach the `catch` and call `next` a second time; Express catches such exceptions itself, so the model treats `next` as returning normally.
- A flash is taken from the session before routing (`src/server.js:104-108`), so a request answered without a view (a redirect, or the static 403 and 404 pages at `src/server.js:145-154`) uses the message up unseen: the model proves delivery into `res.locals.flash` at most once per arming, not that some view displays it.
