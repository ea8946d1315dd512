/** The per-visitor session record (`req.session`) the request pipeline reads and updates. */
module Sessions {
  import opened JsValues

  /** A snapshot of the two session properties the core reads: `user` and the one-shot `flash`. */
  datatype SessionState = SessionState(user: Option<string>, flash: Option<string>)

  /** The session object itself, which the per-request middleware mutates in place. */
  class Session {
    var user: Option<string>
    var flash: Option<string>

    constructor (user: Option<string>, flash: Option<string>)
      ensures State() == SessionState(user, flash)
    {
      this.user := user;
      this.flash := flash;
    }

    function State(): SessionState
      reads this
    {
      SessionState(user, flash)
    }
  }
}
