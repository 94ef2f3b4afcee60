/** The default value of the authentication context (src/auth/AuthContext.ts):
    the state the application starts in before a provider is mounted, and
    placeholder operations that do nothing. */
module AuthContext {
  import opened AuthTypes

  /** The data part of the context; its operations are the functions below. */
  datatype Auth = Auth(authenticated: bool, user: User)

  /** The empty identity the context starts with, authority list included. */
  function DefaultUser(): (u: User)
    ensures IsZeroIdentity(u)
    ensures u.authority == Some([])
  {
    User(0, "", "", "", false, "", Some([]))
  }

  /** The initial context: not authenticated, holding the empty identity. */
  function DefaultAuth(): (a: Auth)
    ensures !a.authenticated
    ensures IsZeroIdentity(a.user) && a.user.authority == Some([])
  {
    Auth(false, DefaultUser())
  }

  /** What every default request operation resolves to (after a zero delay,
      not modelled): a status outside the declared 'success' | 'failed'. */
  function DefaultFunctionPlaceHolder(): (r: AuthResponse)
    ensures r.status == "" && r.message == ""
    ensures !IsDeclaredStatus(r.status)
  {
    AuthResponse("", "")
  }

  function DefaultSignIn(values: SignInCredential): (r: AuthResponse)
    ensures r == DefaultFunctionPlaceHolder()
  {
    DefaultFunctionPlaceHolder()
  }

  function DefaultSignUp(values: SignUpCredential): (r: AuthResponse)
    ensures r == DefaultFunctionPlaceHolder()
  {
    DefaultFunctionPlaceHolder()
  }

  function DefaultSaveBusinessDetails(values: BusinessDetails): (r: AuthResponse)
    ensures r == DefaultFunctionPlaceHolder()
  {
    DefaultFunctionPlaceHolder()
  }

  /** The default sign-out has no effect on whatever state it is given. */
  function DefaultSignOut<S>(state: S): (r: S)
    ensures r == state
  {
    state
  }

  /** Both handlers leave every state as it is. */
  ghost predicate IsNoOpPayload<S(!new)>(p: OAuthSignInPayload<S>) {
    (forall t, u, s :: p.onSignIn(t, u, s) == s) && (forall s :: p.redirect(s) == s)
  }

  function NoOpPayload<S>(): OAuthSignInPayload<S> {
    OAuthSignInPayload((t, u, s) => s, s => s)
  }

  /** The default OAuth sign-in invokes `callback` on `state` with a payload
      of no-op handlers. The result is the state afterwards together with the
      payload the callback received. The second ensures is the exactly-once
      claim: for every callback, the state afterwards is one application of
      the callback to the initial state. */
  function DefaultOAuthSignIn<S(!new)>(callback: (OAuthSignInPayload<S>, S) -> S, state: S)
    : (r: (S, OAuthSignInPayload<S>))
    ensures IsNoOpPayload(r.1)
    ensures r.0 == callback(r.1, state)
  {
    var payload := NoOpPayload();
    (callback(payload, state), payload)
  }
}
