/** The response-error callback of the HTTP client
    (src/services/axios/AxiosResponseIntrceptorErrorCallback.ts): an error
    response whose status marks the session as no longer valid clears the
    token, the user and the signed-in flag of the auth store. */
module ResponseErrorCallback {
  import opened AuthTypes
  import JsArray
  import AuthContext

  /** Statuses treated as "the session is no longer valid". */
  const UnauthorizedCodes: seq<int> := [401, 419, 440]

  datatype Response = Response(status: int)

  /** An error from the HTTP client; `response` is absent for transport failures. */
  datatype AxiosError = AxiosError(response: Option<Response>)

  function IsUnauthorized(status: int): (unauthorized: bool)
    ensures unauthorized <==> status == 401 || status == 419 || status == 440
  {
    JsArray.Includes(UnauthorizedCodes, status)
  }

  /** The error carries a response whose status is an unauthorized code. */
  function IsUnauthorizedError(error: AxiosError): (unauthorized: bool)
    ensures unauthorized <==> error.response.Some? && error.response.value.status in {401, 419, 440}
  {
    error.response.Some? && IsUnauthorized(error.response.value.status)
  }

  /** The user record written on invalidation: the zero identity, but with
      no `authority` field, unlike the context's default user. */
  function ResetUser(): (u: User)
    ensures IsZeroIdentity(u)
    ensures u.authority == None
    ensures SameIdentity(u, AuthContext.DefaultUser()) && u != AuthContext.DefaultUser()
  {
    User(0, "", "", "", false, "", None)
  }

  /** The part of the auth store the callback writes. */
  datatype Session = Session(token: string, user: User, signedIn: bool)

  /** A signed-out session holds no identity. */
  predicate SignedOutIsEmpty(s: Session) {
    !s.signedIn ==> IsZeroIdentity(s.user)
  }

  /** The session after the callback has seen `error`. */
  function Invalidate(s: Session, error: AxiosError): (r: Session)
    ensures IsUnauthorizedError(error) ==> r.token == "" && r.user == ResetUser() && !r.signedIn
    ensures !IsUnauthorizedError(error) ==> r == s
    ensures SignedOutIsEmpty(s) ==> SignedOutIsEmpty(r)
  {
    if error.response.Some? && IsUnauthorized(error.response.value.status) then
      Session("", ResetUser(), false)
    else
      s
  }

  /** The session after several failing responses have been handled in order. */
  function HandleErrors(s: Session, errors: seq<AxiosError>): Session
    decreases |errors|
  {
    if errors == [] then s else HandleErrors(Invalidate(s, errors[0]), errors[1..])
  }

  /** The token, user and sign-in state; the setters are plain assignments. */
  class AuthStore {
    var token: string
    var user: User
    var signedIn: bool

    function Snapshot(): Session
      reads this
    {
      Session(token, user, signedIn)
    }

    constructor (token: string, user: User, signedIn: bool)
      ensures Snapshot() == Session(token, user, signedIn)
    {
      this.token := token;
      this.user := user;
      this.signedIn := signedIn;
    }

    method SetToken(t: string)
      modifies this
      ensures Snapshot() == old(Snapshot()).(token := t)
    {
      token := t;
    }

    method SetUser(u: User)
      modifies this
      ensures Snapshot() == old(Snapshot()).(user := u)
    {
      user := u;
    }

    method SetSessionSignedIn(b: bool)
      modifies this
      ensures Snapshot() == old(Snapshot()).(signedIn := b)
    {
      signedIn := b;
    }

    /** The callback itself: three store writes in order, or none. */
    method ResponseErrorCallback(error: AxiosError)
      modifies this
      ensures Snapshot() == Invalidate(old(Snapshot()), error)
      ensures IsUnauthorizedError(error) ==> token == "" && user == ResetUser() && !signedIn
      ensures !IsUnauthorizedError(error) ==> unchanged(this)
    {
      if error.response.Some? && JsArray.Includes(UnauthorizedCodes, error.response.value.status) {
        SetToken("");
        SetUser(ResetUser());
        SetSessionSignedIn(false);
      }
    }
  }

  /** Invalidating twice with the same error is the same as invalidating once. */
  lemma InvalidateIdempotent(s: Session, error: AxiosError)
    ensures Invalidate(Invalidate(s, error), error) == Invalidate(s, error)
  {
  }

  /** Whatever order several failing responses arrive in, the session ends
      cleared if any of them was unauthorized, and untouched otherwise. */
  lemma {:induction false} HandleErrorsOutcome(s: Session, errors: seq<AxiosError>)
    ensures (exists i :: 0 <= i < |errors| && IsUnauthorizedError(errors[i])) ==>
              HandleErrors(s, errors) == Session("", ResetUser(), false)
    ensures (forall i :: 0 <= i < |errors| ==> !IsUnauthorizedError(errors[i])) ==>
              HandleErrors(s, errors) == s
    decreases |errors|
  {
    if errors != [] {
      HandleErrorsOutcome(Invalidate(s, errors[0]), errors[1..]);
      if IsUnauthorizedError(errors[0]) {
        HandleErrorsCleared(errors[1..]);
      } else {
        forall i | 0 <= i < |errors[1..]|
          ensures IsUnauthorizedError(errors[1..][i]) == IsUnauthorizedError(errors[i + 1])
        {
        }
      }
    }
  }

  /** A cleared session stays cleared whatever errors follow. */
  lemma {:induction false} HandleErrorsCleared(errors: seq<AxiosError>)
    ensures HandleErrors(Session("", ResetUser(), false), errors) == Session("", ResetUser(), false)
  {
    if errors != [] {
      HandleErrorsCleared(errors[1..]);
    }
  }

  /** Replaying the same failing responses on the resulting session changes nothing. */
  lemma HandleErrorsIdempotent(s: Session, errors: seq<AxiosError>)
    ensures HandleErrors(HandleErrors(s, errors), errors) == HandleErrors(s, errors)
  {
    HandleErrorsOutcome(s, errors);
    HandleErrorsOutcome(HandleErrors(s, errors), errors);
  }
}
