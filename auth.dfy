/**
 * Identity resolution and user management over the identity provider. Every provider
 * answer is an input datatype; the only write is the `users` metadata row.
 */
module Auth {
  import opened Wrappers
  import opened Http
  import Ascii
  import Platform

  /** The caller as the routes see it. */
  datatype User = User(id: string, email: Option<string>)

  // ---------------------------------------------------------------------------
  // Unverified claim reader

  /** A JSON claim value; an absent claim reads as `JNull`, as `dict.get` returns None. */
  datatype Json = JNull | JString(s: string) | JInt(i: int) | JBool(b: bool)

  /** What decoding the token's claims without checking the signature gives. */
  datatype Decoded = Malformed(reason: string) | Claims(claims: map<string, Json>)

  function Claim(claims: map<string, Json>, key: string): Json {
    if key in claims then claims[key] else JNull
  }

  /** The dict `{"user_id": ..., "email": ...}` returned on success. */
  datatype TokenIdentity = TokenIdentity(userId: Json, email: Json)

  /** `verify_supabase_token`: every failure is a 401; success carries `sub` and `email`. */
  function VerifySupabaseToken(d: Decoded): (r: Result<TokenIdentity, HttpError>)
    ensures r.Failure? ==> r.error.status == Unauthorized
    ensures r.Success? <==> d.Claims? && Claim(d.claims, "sub") != JNull
    ensures r.Success? ==> r.value.userId == d.claims["sub"] && r.value.email == Claim(d.claims, "email")
    ensures d.Claims? && Claim(d.claims, "sub") == JNull ==>
              r == Failure(HttpError(Unauthorized, "Invalid Supabase token."))
  {
    match d
    case Malformed(reason) =>
      Failure(HttpError(Unauthorized, "Token verification failed: " + reason))
    case Claims(claims) =>
      var sub := Claim(claims, "sub");
      if sub == JNull then Failure(HttpError(Unauthorized, "Invalid Supabase token."))
      else Success(TokenIdentity(sub, Claim(claims, "email")))
  }

  // ---------------------------------------------------------------------------
  // Verified current user

  /** A user record as the identity provider returns it. */
  datatype ProviderUser = ProviderUser(id: string, email: Option<string>)

  /** The provider's answer to `auth.get_user(token)`. */
  datatype GetUserReply = GetUserRaised(message: string) | GetUserReturned(user: Option<ProviderUser>)

  const InvalidOrExpired := HttpError(Unauthorized, "Invalid or expired token.")

  /**
   * `get_current_user`. The 401 raised inside the `try` for "no user" is itself caught by
   * `except Exception` and raised again with the wrapped message.
   */
  function GetCurrentUser(reply: GetUserReply): (r: Result<User, HttpError>)
    ensures r.Success? <==> reply.GetUserReturned? && reply.user.Some?
    ensures r.Success? ==> r.value == User(reply.user.value.id, reply.user.value.email)
    ensures r.Failure? ==> r.error.status == Unauthorized
  {
    match reply
    case GetUserRaised(message) =>
      Failure(HttpError(Unauthorized, "Token verification failed: " + message))
    case GetUserReturned(None) =>
      Failure(HttpError(Unauthorized, "Token verification failed: " + Str(InvalidOrExpired)))
    case GetUserReturned(Some(u)) =>
      Success(User(u.id, u.email))
  }

  // ---------------------------------------------------------------------------
  // Registration

  const DefaultRole := "employee"
  const SuperuserRole := "superuser"

  /** `email.split("@")[0]`: the text before the first "@", or all of it. */
  function LocalPart(email: string): (r: string)
    ensures '@' !in r
    ensures r <= email
    ensures |r| < |email| ==> email[|r|] == '@'
  {
    if email == [] || email[0] == '@' then ""
    else [email[0]] + LocalPart(email[1..])
  }

  /** The `full_name` column: the local part, title-cased. */
  function FullName(email: string): string {
    Ascii.Title(LocalPart(email))
  }

  /** The full name is the local part with the title-case rule applied character by character. */
  lemma FullNameShape(email: string)
    ensures |FullName(email)| == |LocalPart(email)|
    ensures forall i :: 0 <= i < |LocalPart(email)| ==>
              FullName(email)[i] == Ascii.TitleCharAt(LocalPart(email), i)
  {
    Ascii.TitleIsPointwise(LocalPart(email));
  }

  /** The `users` table after `create_user_metadata`; an email of None fails before the insert. */
  function MetadataEffect(users: map<string, Platform.UserRow>, userId: string, email: Option<string>,
                          role: string, reply: Platform.WriteReply): (u: map<string, Platform.UserRow>)
    ensures u == users || (email.Some? && reply.Written?)
    ensures email.Some? && reply.Written? ==>
              userId in u && u[userId] == Platform.UserRow(userId, FullName(email.value), role, email.value)
    ensures forall k :: k in users && k != userId ==> k in u && u[k] == users[k]
    ensures u.Keys <= users.Keys + {userId}
  {
    if email.Some? && reply.Written?
    then users[userId := Platform.UserRow(userId, FullName(email.value), role, email.value)]
    else users
  }

  /** The writes `create_user_metadata` issues. */
  function MetadataWrites(userId: string, email: Option<string>, role: string): seq<Platform.Write> {
    if email.Some? then [Platform.InsertUser(Platform.UserRow(userId, FullName(email.value), role, email.value))]
    else []
  }

  /** `create_user_metadata`: any failure is swallowed and nothing is returned. */
  method CreateUserMetadata(b: Platform.Backend, userId: string, email: Option<string>, role: string,
                            reply: Platform.WriteReply)
    modifies b`users, b`writes
    ensures b.users == MetadataEffect(old(b.users), userId, email, role, reply)
    ensures b.writes == old(b.writes) + MetadataWrites(userId, email, role)
  {
    if email.Some? {
      var row := Platform.UserRow(userId, FullName(email.value), role, email.value);
      b.InsertUser(row, reply);
    }
  }

  /** The provider's answer to `sign_up`; `text` is `str(response)`. */
  datatype SignUpReply = SignUpRaised(message: string) | SignUpReturned(user: Option<ProviderUser>, text: string)

  /** The dict `register_user` returns. */
  datatype RegisterResponse = Registered(email: Option<string>, role: string) | RegisterFailed(message: string)

  /** What `register_user` answers, whatever became of the metadata insert. */
  function RegisterOutcome(signUp: SignUpReply, role: string): (r: RegisterResponse)
    ensures r.Registered? <==> signUp.SignUpReturned? && signUp.user.Some?
    ensures r.Registered? ==> r.email == signUp.user.value.email && r.role == role
    ensures signUp.SignUpRaised? ==> r == RegisterFailed(signUp.message)
    ensures signUp.SignUpReturned? && signUp.user.None? ==> r == RegisterFailed(signUp.text)
  {
    match signUp
    case SignUpRaised(message) => RegisterFailed(message)
    case SignUpReturned(None, text) => RegisterFailed(text)
    case SignUpReturned(Some(u), _) => Registered(u.email, role)
  }

  /** The `users` table after `register_user`: metadata is written only for a signed-up user. */
  function RegisterEffect(users: map<string, Platform.UserRow>, signUp: SignUpReply, role: string,
                          metaReply: Platform.WriteReply): map<string, Platform.UserRow> {
    if signUp.SignUpReturned? && signUp.user.Some?
    then MetadataEffect(users, signUp.user.value.id, signUp.user.value.email, role, metaReply)
    else users
  }

  function RegisterWrites(signUp: SignUpReply, role: string): seq<Platform.Write> {
    if signUp.SignUpReturned? && signUp.user.Some?
    then MetadataWrites(signUp.user.value.id, signUp.user.value.email, role)
    else []
  }

  /**
   * `register_user(email, password, role)`. The email and password go to the provider,
   * whose answer is `signUp`; `metaReply` is the table's answer to the metadata insert.
   */
  method RegisterUser(b: Platform.Backend, email: string, password: string, role: string,
                      signUp: SignUpReply, metaReply: Platform.WriteReply)
    returns (r: RegisterResponse)
    modifies b`users, b`writes
    ensures r == RegisterOutcome(signUp, role)
    ensures b.users == RegisterEffect(old(b.users), signUp, role, metaReply)
    ensures b.writes == old(b.writes) + RegisterWrites(signUp, role)
  {
    match signUp {
      case SignUpRaised(message) =>
        r := RegisterFailed(message);
      case SignUpReturned(user, text) =>
        if user.Some? {
          CreateUserMetadata(b, user.value.id, user.value.email, role, metaReply);
          r := Registered(user.value.email, role);
        } else {
          r := RegisterFailed(text);
        }
    }
  }

  /** `register_user(email, password)` with no role given: the role is "employee". */
  method RegisterEmployee(b: Platform.Backend, email: string, password: string,
                          signUp: SignUpReply, metaReply: Platform.WriteReply)
    returns (r: RegisterResponse)
    modifies b`users, b`writes
    ensures r == RegisterOutcome(signUp, DefaultRole)
    ensures r.Registered? ==> r.role == "employee"
    ensures b.users == RegisterEffect(old(b.users), signUp, DefaultRole, metaReply)
    ensures b.writes == old(b.writes) + RegisterWrites(signUp, DefaultRole)
  {
    r := RegisterUser(b, email, password, DefaultRole, signUp, metaReply);
  }

  /** `register_superuser`: exactly `register_user` with the superuser role. */
  method RegisterSuperuser(b: Platform.Backend, email: string, password: string,
                           signUp: SignUpReply, metaReply: Platform.WriteReply)
    returns (r: RegisterResponse)
    modifies b`users, b`writes
    ensures r == RegisterOutcome(signUp, SuperuserRole)
    ensures b.users == RegisterEffect(old(b.users), signUp, SuperuserRole, metaReply)
    ensures b.writes == old(b.writes) + RegisterWrites(signUp, SuperuserRole)
  {
    r := RegisterUser(b, email, password, SuperuserRole, signUp, metaReply);
  }

  /** A successful registration with a provider email that the table accepts leaves a profile row with that role. */
  lemma RegisteredUserHasProfile(users: map<string, Platform.UserRow>, signUp: SignUpReply, role: string)
    requires signUp.SignUpReturned? && signUp.user.Some? && signUp.user.value.email.Some?
    ensures var u := signUp.user.value;
            var after := RegisterEffect(users, signUp, role, Platform.Written);
            u.id in after && after[u.id].role == role && after[u.id].fullName == FullName(u.email.value)
  {
  }

  // ---------------------------------------------------------------------------
  // Login and listing

  datatype Session = Session(accessToken: string, refreshToken: string)

  /** The provider's answer to `sign_in_with_password`. */
  datatype SignInReply =
    | SignInRaised(message: string)
    | SignInReturned(session: Option<Session>, user: Option<ProviderUser>)

  /** The dict `login_user` returns. */
  datatype LoginResponse =
    | LoggedIn(accessToken: string, refreshToken: string, userEmail: Option<string>)
    | LoginFailed(message: string)

  const NoSession := "Invalid login or no session returned."

  /** Python's message when `response.user` is None and `.email` is read from it. */
  const NoUserAttribute := "'NoneType' object has no attribute 'email'"

  /** `login_user`: the session's tokens, or an error dict. */
  function LoginUser(reply: SignInReply): (r: LoginResponse)
    ensures r.LoggedIn? <==> reply.SignInReturned? && reply.session.Some? && reply.user.Some?
    ensures r.LoggedIn? ==>
              && r.accessToken == reply.session.value.accessToken
              && r.refreshToken == reply.session.value.refreshToken
              && r.userEmail == reply.user.value.email
    ensures reply.SignInReturned? && reply.session.None? ==> r == LoginFailed(NoSession)
    ensures reply.SignInReturned? && reply.session.Some? && reply.user.None? ==> r == LoginFailed(NoUserAttribute)
    ensures reply.SignInRaised? ==> r == LoginFailed(reply.message)
  {
    match reply
    case SignInRaised(message) => LoginFailed(message)
    case SignInReturned(None, _) => LoginFailed(NoSession)
    case SignInReturned(Some(s), None) => LoginFailed(NoUserAttribute)
    case SignInReturned(Some(s), Some(u)) => LoggedIn(s.accessToken, s.refreshToken, u.email)
  }

  /** The provider's answer to `auth.admin.list_users()`. */
  datatype ListReply = ListRaised(message: string) | ListReturned(users: seq<ProviderUser>)

  /** `list_users`: the provider's users, or none at all when the call raises. */
  function ListUsers(reply: ListReply): (r: seq<ProviderUser>)
    ensures reply.ListReturned? ==> r == reply.users
    ensures reply.ListRaised? ==> r == []
  {
    match reply
    case ListRaised(_) => []
    case ListReturned(users) => users
  }
}
