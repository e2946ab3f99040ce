// The auth slice of the front-end store: the signed-in user and token,
// restored from browser storage at start-up, and the loading and error
// flags of sign-in and registration.

module AuthSlice {
  import opened Util
  import opened Store

  datatype User = User(id: string, username: string, email: string, avatar: Option<string>)

  /** What sign-in and registration return. */
  datatype Session = Session(user: User, token: string)

  /** The slice's state. */
  datatype Auth = Auth(user: Option<User>, token: Option<string>, isAuthenticated: bool, loading: bool, error: Option<string>)

  const LoginFailed := "登录失败"
  const RegisterFailed := "注册失败"

  /** A stored item counts only when present and non-empty. */
  predicate Present(item: Option<string>)
  {
    item.Some? && item.value != ""
  }

  /** The state restored from the stored `user` and `token` items; `parse`
    * is `JSON.parse` of a user, `None` for the text `null`. */
  function Restored(savedUser: Option<string>, savedToken: Option<string>, parse: string -> Option<User>): (s: Auth)
    ensures s.user.Some? <==> Present(savedUser) && parse(savedUser.value).Some?
    ensures s.token == savedToken
    ensures s.isAuthenticated <==> Present(savedToken) && s.user.Some?
    ensures !s.loading && s.error.None?
  {
    var user := if Present(savedUser) then parse(savedUser.value) else None;
    Auth(user, savedToken, Present(savedToken) && user.Some?, false, None)
  }

  /** Signed in: authenticated with both a user and a non-empty token. */
  predicate Consistent(s: Auth)
  {
    s.isAuthenticated ==> s.user.Some? && Present(s.token)
  }

  // Each reducer as a function of the state.

  function AfterPending(s: Auth): Auth { s.(loading := true, error := None) }

  function AfterSignIn(s: Auth, session: Session): Auth
  {
    s.(loading := false, user := Some(session.user), token := Some(session.token), isAuthenticated := true)
  }

  function AfterRejected(s: Auth, message: Option<string>, fallback: string): Auth
  {
    s.(loading := false, error := Some(ErrorText(message, fallback)))
  }

  const SignedOut := Auth(None, None, false, false, None)

  function AfterProfile(s: Auth, user: User): Auth { s.(user := Some(user)) }

  /** The restored state is consistent, and every reducer keeps the state
    * consistent — sign-in only when the returned token is non-empty. A
    * rejected request keeps an earlier session, and signing out clears
    * everything. */
  lemma ReducersKeepConsistent(s: Auth, session: Session, message: Option<string>, fallback: string, user: User,
                               savedUser: Option<string>, savedToken: Option<string>, parse: string -> Option<User>)
    ensures Consistent(Restored(savedUser, savedToken, parse))
    ensures Consistent(s) ==>
      (Consistent(AfterPending(s)) && Consistent(AfterRejected(s, message, fallback))
       && Consistent(AfterProfile(s, user)) && Consistent(SignedOut))
    ensures Consistent(AfterSignIn(s, session)) <==> session.token != ""
    ensures AfterSignIn(s, session).isAuthenticated && AfterSignIn(s, session).user == Some(session.user)
    ensures AfterRejected(s, message, fallback).isAuthenticated == s.isAuthenticated
      && AfterRejected(s, message, fallback).user == s.user && AfterRejected(s, message, fallback).token == s.token
    ensures fallback != "" ==> Present(AfterRejected(s, message, fallback).error)
  {
  }

  class AuthStore {
    var user: Option<User>
    var token: Option<string>
    var isAuthenticated: bool
    var loading: bool
    var error: Option<string>

    function State(): Auth
      reads this
    {
      Auth(user, token, isAuthenticated, loading, error)
    }

    /** The store at start-up, from the stored items. */
    constructor(savedUser: Option<string>, savedToken: Option<string>, parse: string -> Option<User>)
      ensures State() == Restored(savedUser, savedToken, parse)
    {
      var initialUser := if savedUser.Some? && savedUser.value != "" then parse(savedUser.value) else None;
      user := initialUser;
      token := savedToken;
      isAuthenticated := savedToken.Some? && savedToken.value != "" && initialUser.Some?;
      loading := false;
      error := None;
    }

    /** `clearError`. */
    method ClearError()
      modifies this
      ensures State() == old(State()).(error := None)
    {
      error := None;
    }

    /** `login.pending` and `register.pending`. */
    method Pending()
      modifies this
      ensures State() == AfterPending(old(State()))
    {
      loading := true;
      error := None;
    }

    /** `login.fulfilled` and `register.fulfilled`. */
    method Fulfilled(session: Session)
      modifies this
      ensures State() == AfterSignIn(old(State()), session)
    {
      loading := false;
      user := Some(session.user);
      token := Some(session.token);
      isAuthenticated := true;
    }

    /** `login.rejected` (fallback `LoginFailed`) and `register.rejected`
      * (fallback `RegisterFailed`). */
    method Rejected(message: Option<string>, fallback: string)
      modifies this
      ensures State() == AfterRejected(old(State()), message, fallback)
    {
      loading := false;
      error := Some(if message.Some? && message.value != "" then message.value else fallback);
    }

    /** `logout.fulfilled`. */
    method Logout()
      modifies this
      ensures State() == SignedOut
    {
      user := None;
      token := None;
      isAuthenticated := false;
      loading := false;
      error := None;
    }

    /** `fetchUserProfile.fulfilled`. */
    method ProfileFulfilled(u: User)
      modifies this
      ensures State() == AfterProfile(old(State()), u)
    {
      user := Some(u);
    }
  }
}
