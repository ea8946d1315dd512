/**
 * How a guard's single `next` call reaches the visitor: `next()` lets the
 * request go on to its route handler, `next(error)` skips to the terminal error
 * handler, which sends exactly one response.
 */
module Pipeline {
  import opened JsValues
  import opened Sessions
  import opened AuthorizationController
  import opened Server

  /**
   * None when the request goes on to its route handler; otherwise the one error
   * response: the 403 page exactly for a 403 failure, a detailed view showing
   * the failure itself for anything neither 403 nor 404, and never status 0.
   */
  function Respond(outcome: Outcome, env: string): (r: Option<Response>)
    ensures r.None? <==> outcome.Proceed?
    ensures r.Some? ==> r.value.status != 0
    ensures r.Some? ==> (r.value.page == ForbiddenPage <==> outcome.error.status == Some(403))
    ensures r.Some? ==> (r.value.page == NotFoundPage <==> outcome.error.status == Some(404))
    ensures r.Some? && r.value.page.ErrorView? ==> r.value.page.error == outcome.error
  {
    match outcome
    case Proceed => None
    case Fail(e) => Some(HandleError(e, env))
  }

  const ForbiddenResponse := Response(403, ForbiddenPage)

  /** An anonymous visitor asking for an authenticated-only action gets the 403 page. */
  lemma AnonymousGetsForbiddenPage(session: SessionState, env: string)
    requires !Truthy(session.user)
    ensures Respond(IfNotLoggedIn(session), env) == Some(ForbiddenResponse)
    ensures Respond(IfLoggedIn(session), env).None?
  {
  }

  /** A logged-in visitor asking for an anonymous-only action gets the 403 page. */
  lemma LoggedInGetsForbiddenPage(session: SessionState, env: string)
    requires Truthy(session.user)
    ensures Respond(IfLoggedIn(session), env) == Some(ForbiddenResponse)
    ensures Respond(IfNotLoggedIn(session), env).None?
  {
  }

  /** Any user other than the author, an absent one included, gets the 403 page. */
  lemma NonOwnerGetsForbiddenPage(session: SessionState, author: string, env: string)
    requires session.user != Some(author)
    ensures Respond(AuthorizeUser(session, Found(author)), env) == Some(ForbiddenResponse)
  {
  }

  /** The author of the snippet goes on to the route handler. */
  lemma OwnerProceeds(user: string, flash: Option<string>, env: string)
    ensures Respond(AuthorizeUser(SessionState(Some(user), flash), Found(user)), env).None?
  {
  }

  /**
   * An id with no snippet ends as an unclassified server error showing the
   * TypeError, not as a 403 or a 404.
   */
  lemma MissingSnippetIsServerError(session: SessionState, env: string)
    ensures Respond(AuthorizeUser(session, NoSnippet), env) == Some(Response(500, ErrorView(NullSnippetError)))
  {
  }

  /** A lookup fault without a status is rendered in detail with status 500. */
  lemma FaultIsServerError(session: SessionState, e: JsError, env: string)
    requires e.status == None
    ensures Respond(AuthorizeUser(session, Fault(e)), env) == Some(Response(500, ErrorView(e)))
  {
  }

  /**
   * The middleware takes the flash before routing, so a request that is then
   * refused by a guard (answered with the static 403 page, not a view) still
   * uses the message up: delivery is at most once, not exactly once per view.
   */
  lemma FlashUsedUpByRefusedRequest(s: SessionState, baseURL: string, env: string)
    requires Truthy(s.flash) && !Truthy(s.user)
    ensures var (s1, l1) := Expose(s, EmptyLocals, baseURL);
            l1.flash == s.flash && s1.flash == None &&
            Respond(IfNotLoggedIn(s1), env) == Some(ForbiddenResponse)
  {
  }

  /** The forbidden page is sent exactly for the errors classified 403, which every guard raises. */
  lemma ForbiddenPageOnlyFor403(outcome: Outcome, env: string)
    ensures Respond(outcome, env) == Some(ForbiddenResponse) <==> outcome.Fail? && outcome.error.status == Some(403)
  {
  }
}
