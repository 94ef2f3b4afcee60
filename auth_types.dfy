/** Records shared by the session and onboarding code (src/@types/auth.ts). */
module AuthTypes {

  datatype Option<+T> = None | Some(value: T)

  /** A user as the session holds it. `authority` is optional here, although
      the type declares it, because the unauthorized-response handler stores
      a user record that has no `authority` field at all; `None` stands for
      that absent field. */
  datatype User = User(
    id: int,
    email: string,
    name: string,
    createdAt: string,
    isVerified: bool,
    role: string,
    authority: Option<seq<string>>)

  datatype Token = Token(accessToken: string)

  datatype SignInCredential = SignInCredential(email: string, password: string)

  datatype SignUpCredential = SignUpCredential(name: string, email: string, password: string, phone: string)

  /** The onboarding payload; `logo` is the base64 data of the image. */
  datatype BusinessDetails = BusinessDetails(
    name: string,
    email: string,
    phone: string,
    address: string,
    logo: string,
    logoFileName: string)

  /** `status` is a string so that values outside the declared union can be represented. */
  datatype AuthResponse = AuthResponse(status: string, message: string)

  /** The two statuses the type declares. */
  predicate IsDeclaredStatus(status: string) {
    status == "success" || status == "failed"
  }

  /** The payload handed to an OAuth callback. `S` is the state its two
      handlers would act on; each handler is a state transformer. */
  datatype OAuthSignInPayload<!S> = OAuthSignInPayload(
    onSignIn: (Token, Option<User>, S) -> S,
    redirect: S -> S)

  /** The six identity fields hold their zero values (authority is not among them). */
  predicate IsZeroIdentity(u: User) {
    u.id == 0 && u.email == "" && u.name == "" && u.createdAt == ""
    && !u.isVerified && u.role == ""
  }

  /** Two users agree on every field except `authority`. */
  predicate SameIdentity(a: User, b: User) {
    a.id == b.id && a.email == b.email && a.name == b.name
    && a.createdAt == b.createdAt && a.isVerified == b.isVerified && a.role == b.role
  }
}

/** JavaScript array operations the session and onboarding code relies on. */
module JsArray {

  /** `list.includes(x)`: a front-to-back search for `x`. */
  function Includes<T(==)>(list: seq<T>, x: T): (found: bool)
    ensures found <==> x in list
  {
    if list == [] then false
    else
      assert list == [list[0]] + list[1..];
      list[0] == x || Includes(list[1..], x)
  }
}
