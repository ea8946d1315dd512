/**
 * The three authorization guards of `AuthorizationController`. Each guard is an
 * Express middleware that ends in exactly one call of `next`: with no argument
 * (the request proceeds) or with an error (the request is handed to the error
 * handler). A guard is modelled as a function whose single `Outcome` value is
 * that one call; being a function, it cannot change the session or the snippet.
 */
module AuthorizationController {
  import opened JsValues
  import opened Sessions

  /** The argument of the guard's single `next` call. */
  datatype Outcome = Proceed | Fail(error: JsError)

  /**
   * What the awaited `Snippet.findById(req.params.id)` delivers: a snippet with
   * its author, `null` when no snippet has that id, or a rejection (a malformed
   * id, a storage fault).
   */
  datatype Lookup = Found(author: string) | NoSnippet | Fault(error: JsError)

  /** The error every guard raises itself: `new Error('Forbidden')` with `status = 403`. */
  const ForbiddenError := JsError(Some(403), "Forbidden")

  /**
   * The TypeError thrown by reading `snippet.author` when the lookup yielded
   * `null`; it carries no `status` property.
   */
  const NullSnippetError := JsError(None, "Cannot read properties of null (reading 'author')")

  /** `ifNOTLoggedIn`: despite its name, it lets only authenticated visitors through. */
  function IfNotLoggedIn(session: SessionState): (r: Outcome)
    ensures r.Proceed? <==> Truthy(session.user)
    ensures r.Fail? ==> r.error == ForbiddenError
  {
    if !Truthy(session.user) then Fail(ForbiddenError) else Proceed
  }

  /** `ifLoggedIn`: despite its name, it lets only anonymous visitors through. */
  function IfLoggedIn(session: SessionState): (r: Outcome)
    ensures r.Proceed? <==> !Truthy(session.user)
    ensures r.Fail? ==> r.error == ForbiddenError
  {
    if Truthy(session.user) then Fail(ForbiddenError) else Proceed
  }

  /**
   * `authorizeUser`: only the snippet's author, compared with strict equality,
   * gets through. A rejected lookup is forwarded unchanged by the `catch`, and a
   * `null` snippet makes the property read throw, which the `catch` forwards too.
   */
  function AuthorizeUser(session: SessionState, lookup: Lookup): (r: Outcome)
    ensures r.Proceed? <==> lookup.Found? && session.user == Some(lookup.author)
    ensures lookup.Found? && r.Fail? ==> r.error == ForbiddenError
    ensures lookup.Fault? ==> r == Fail(lookup.error)
    ensures lookup.NoSnippet? ==> r.Fail? && r.error.status == None
  {
    match lookup
    case Fault(e) => Fail(e)
    case NoSnippet => Fail(NullSnippetError)
    case Found(author) =>
      if session.user != Some(author) then Fail(ForbiddenError) else Proceed
  }

  /** For every session exactly one of the two login guards lets the request through. */
  lemma LoginGuardsComplementary(session: SessionState)
    ensures IfNotLoggedIn(session).Proceed? != IfLoggedIn(session).Proceed?
  {
  }

  /**
   * The ownership guard admits only a present user; when the author is a
   * non-empty name, passing it implies passing the authentication guard.
   */
  lemma OwnershipImpliesAuthenticated(session: SessionState, author: string)
    requires author != ""
    ensures AuthorizeUser(session, Found(author)).Proceed? ==> IfNotLoggedIn(session).Proceed?
    ensures AuthorizeUser(session, Found(author)).Proceed? ==> session.user.Some?
  {
  }

  /**
   * A lookup fault keeps its own classification: it becomes a 403 only if the
   * fault itself already carried status 403.
   */
  lemma FaultNeverBecomesForbidden(session: SessionState, e: JsError)
    ensures AuthorizeUser(session, Fault(e)).error.status == Some(403) <==> e.status == Some(403)
    ensures e.status == None ==> AuthorizeUser(session, Fault(e)).error.status == None
  {
  }
}
