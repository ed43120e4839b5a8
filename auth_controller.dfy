/**
 * rent-management-api/server/controllers/auth.js: e-mail, Google and
 * Facebook sign-in and sign-up, token refresh and e-mail verification.
 *
 * The identity providers appear only through their verdict on the token the
 * client sent: `Some(profile)` when the provider accepts it, `None` when it
 * refuses it or cannot be reached. The random text of a new verification
 * token and the outcome of sending the verification mail are parameters.
 */
module AuthController {
  import opened Wrappers
  import opened JsonSpec
  import opened Constants
  import opened Models
  import opened Store

  /** `POST /auth/signin` body. */
  datatype Credentials = Credentials(email: Option<string>, password: Option<string>, malformed: bool)

  /** `POST /auth/signup` body. */
  datatype SignUpBody = SignUpBody(email: Option<string>, password: Option<string>, userType: Option<string>, malformed: bool)

  /** The body of the Google and Facebook routes: the provider token (`idToken` or `accessToken`) and, on sign-up, the role. */
  datatype SocialBody = SocialBody(token: Option<string>, userType: Option<string>, malformed: bool)

  /** What a provider tells about an accepted token: the account id (`sub` or `id`) and the e-mail, when shared. */
  datatype SocialProfile = SocialProfile(id: string, email: Option<string>)

  /** `POST /auth/verify-email` body. */
  datatype TokenBody = TokenBody(token: Option<string>, malformed: bool)

  datatype AuthReply = SignedIn(session: Session) | Succeeded

  /** `{ token: jwt.sign(userData), user: userData }` with `userData = jsonSpec(user, USER_SPEC)`. */
  function SessionFor(u: User): (s: Session)
    ensures s.user == PublicUser(u) && s.token.claims == s.user
    ensures s.user.JObj? && "hash" !in KeysOf(s.user.fields)
  {
    Session(Jwt(PublicUser(u)), PublicUser(u))
  }

  /**
   * A signed token carries what later requests see as `req.user`: shaping
   * its claims by USER_SPEC again gives back the same public user.
   */
  lemma SessionClaimsRoundTrip(u: User)
    ensures Shape(SessionFor(u).token.claims, UserSpec) == Some(PublicUser(u))
  {
    var p := PublicUser(u);
    assert Shape(UserJson(u), UserSpec) == Some(p);
    ShapeIdempotent(UserJson(u), UserSpec);
  }

  // -----------------------------------------------------------------------
  // signInEmail (lines 18-60)

  predicate ValidCredentials(b: Credentials) {
    !b.malformed && TruthyString(b.email) && TruthyString(b.password)
  }

  /** What signing in as stored user `u` with `password` yields. */
  function PasswordSignIn(u: User, password: string): Response<AuthReply> {
    if !PasswordMatches(password, u.hash) then Err(Unauthorized, BadCredentials)
    else if !u.emailVerified then Err(Forbidden, NotVerified)
    else Ok(SignedIn(SessionFor(u)))
  }

  function SignInEmail(db: Db, b: Credentials): (r: Response<AuthReply>)
    reads db
    requires UniqueLogins(db.users)
    ensures !ValidCredentials(b) ==> r == Err(BadRequest, InvalidRequest)
    ensures ValidCredentials(b) && !LoginTaken(db.users, EmailAuth, NormalizeEmail(b.email.value)) ==>
      r == Err(Unauthorized, BadCredentials)
    ensures ValidCredentials(b) ==>
      forall id :: id in db.users && IsLogin(db.users[id], EmailAuth, NormalizeEmail(b.email.value)) ==>
        r == PasswordSignIn(db.users[id], b.password.value)
  {
    if !ValidCredentials(b) then
      Err(BadRequest, InvalidRequest)
    else
      match db.Login(EmailAuth, NormalizeEmail(b.email.value))
      case None => Err(Unauthorized, BadCredentials)
      case Some(id) => PasswordSignIn(db.users[id], b.password.value)
  }

  /** Only the right password of a verified e-mail account opens a session, and the session is that account's. */
  lemma SignInEmailSucceeds(db: Db, b: Credentials)
    requires UniqueLogins(db.users)
    ensures SignInEmail(db, b).Ok? <==>
      && ValidCredentials(b)
      && exists id :: id in db.users && IsLogin(db.users[id], EmailAuth, NormalizeEmail(b.email.value))
                      && PasswordMatches(b.password.value, db.users[id].hash) && db.users[id].emailVerified
  {
    if ValidCredentials(b) && SignInEmail(db, b).Ok? {
      var id := db.Login(EmailAuth, NormalizeEmail(b.email.value)).value;
      assert id in db.users && IsLogin(db.users[id], EmailAuth, NormalizeEmail(b.email.value));
    }
  }

  /**
   * A failed sign-in does not tell whether the address has an account: with
   * a wrong password the answer is the one the same request gets once that
   * account is gone.
   */
  lemma WrongPasswordLooksLikeUnknownEmail(db: Db, without: Db, b: Credentials, id: Id)
    requires UniqueLogins(db.users) && ValidCredentials(b)
    requires id in db.users && IsLogin(db.users[id], EmailAuth, NormalizeEmail(b.email.value))
    requires !PasswordMatches(b.password.value, db.users[id].hash)
    requires without.users == db.users - {id}
    ensures UniqueLogins(without.users)
    ensures SignInEmail(db, b) == SignInEmail(without, b) == Err(Unauthorized, BadCredentials)
  {
    var email := NormalizeEmail(b.email.value);
    assert !LoginTaken(without.users, EmailAuth, email) by {
      forall other | other in without.users
        ensures !IsLogin(without.users[other], EmailAuth, email)
      {
        assert other in db.users && other != id;
      }
    }
  }

  // -----------------------------------------------------------------------
  // signUpEmail (lines 62-108)

  /** Lines 63-67: nobody signs up as an admin. */
  predicate ValidSignUp(b: SignUpBody) {
    && !b.malformed && TruthyString(b.email) && TruthyString(b.password)
    && b.userType.Some? && ParseSignUpUserType(b.userType.value).Some?
  }

  /** The account a validated sign-up creates: unverified, with the normalised address and the password's hash. */
  function SignUpUser(id: Id, b: SignUpBody, now: int): (u: User)
    requires ValidSignUp(b)
    ensures EmailAccount(u) && !u.emailVerified && u.userType != Admin
    ensures LoginId(u) == Some(NormalizeEmail(b.email.value)) && PasswordMatches(b.password.value, u.hash)
  {
    NewEmailUser(id, b.email.value, false, b.password.value, ParseSignUpUserType(b.userType.value).value, now)
  }

  /**
   * The user is stored before the token and the mail: a token text already
   * in use (the unique index refuses it) or a mail that cannot be sent
   * answers 500 and leaves what was stored so far in place.
   */
  method SignUpEmail(db: Db, b: SignUpBody, token: string, mailSent: bool, now: int) returns (r: Response<AuthReply>)
    requires db.Valid()
    modifies db
    ensures db.Valid()
    ensures !ValidSignUp(b) ==> r == Err(BadRequest, InvalidRequest) && unchanged(db)
    ensures ValidSignUp(b) && LoginTaken(old(db.users), EmailAuth, NormalizeEmail(b.email.value)) ==>
      r == Err(BadRequest, EmailTaken) && unchanged(db)
    ensures ValidSignUp(b) && !LoginTaken(old(db.users), EmailAuth, NormalizeEmail(b.email.value)) ==>
      var u := SignUpUser(old(db.nextId), b, now);
      && db.users == old(db.users)[u.id := u]
      && db.apartments == old(db.apartments) && db.nextId == old(db.nextId) + 1
      && (token in old(db.tokens) ==> db.tokens == old(db.tokens) && r == Err(ServerError, ServerErrorText))
      && (token !in old(db.tokens) ==> db.tokens == old(db.tokens)[token := u.id])
      && (token !in old(db.tokens) && !mailSent ==> r == Err(ServerError, ServerErrorText))
      && (token !in old(db.tokens) && mailSent ==> r == Ok(Succeeded))
  {
    if !ValidSignUp(b) {
      return Err(BadRequest, InvalidRequest);
    }
    var email := NormalizeEmail(b.email.value);
    if db.Login(EmailAuth, email).Some? {
      return Err(BadRequest, EmailTaken);
    }
    var id := db.NewId();
    var u := SignUpUser(id, b, now);
    PutUserKeepsConsistent(db.users, db.apartments, db.nextId, u);
    db.PutUser(u);
    if token in db.tokens {
      return Err(ServerError, ServerErrorText);
    }
    db.PutToken(token, id);
    if !mailSent {
      return Err(ServerError, ServerErrorText);
    }
    r := Ok(Succeeded);
  }

  // -----------------------------------------------------------------------
  // Google and Facebook (lines 110-294)

  /** `Joi.object({ idToken })` / `Joi.object({ accessToken })`: a role is an unknown key on sign-in. */
  predicate ValidSocialSignIn(b: SocialBody) {
    !b.malformed && TruthyString(b.token) && b.userType.None?
  }

  predicate ValidSocialSignUp(b: SocialBody) {
    && !b.malformed && TruthyString(b.token)
    && b.userType.Some? && ParseSignUpUserType(b.userType.value).Some?
  }

  predicate IsProvider(provider: AuthType) {
    provider == GoogleAuth || provider == FacebookAuth
  }

  /** Lines 110-148 (Google) and 202-241 (Facebook). */
  function SocialSignIn(db: Db, provider: AuthType, b: SocialBody, profile: Option<SocialProfile>): (r: Response<AuthReply>)
    reads db
    requires IsProvider(provider) && UniqueLogins(db.users)
    ensures !ValidSocialSignIn(b) ==> r == Err(BadRequest, InvalidRequest)
    ensures ValidSocialSignIn(b) && profile.None? ==> r == Err(Unauthorized, InvalidToken)
    ensures ValidSocialSignIn(b) && profile.Some? && !LoginTaken(db.users, provider, profile.value.id) ==>
      r == Err(Unauthorized, NoSuchUser)
    ensures ValidSocialSignIn(b) && profile.Some? ==>
      forall id :: id in db.users && IsLogin(db.users[id], provider, profile.value.id) ==>
        r == Ok(SignedIn(SessionFor(db.users[id])))
  {
    if !ValidSocialSignIn(b) then
      Err(BadRequest, InvalidRequest)
    else if profile.None? then
      Err(Unauthorized, InvalidToken)
    else
      match db.Login(provider, profile.value.id)
      case None => Err(Unauthorized, NoSuchUser)
      case Some(id) => Ok(SignedIn(SessionFor(db.users[id])))
  }

  /** `User.createUser({ googleId | facebookId, email, userType, authType })`. */
  function SocialUser(id: Id, provider: AuthType, profile: SocialProfile, userType: UserType, now: int): (u: User)
    requires IsProvider(provider)
    ensures u.id == id && u.authType == provider && LoginId(u) == Some(profile.id)
    ensures u.hash.None? && !u.emailVerified && u.email == profile.email
  {
    User(id,
      if provider == FacebookAuth then Some(profile.id) else None,
      if provider == GoogleAuth then Some(profile.id) else None,
      profile.email, false, None, userType, provider, now)
  }

  /** Lines 150-200 (Google) and 243-294 (Facebook): sign-up signs the new user in at once. */
  method SocialSignUp(db: Db, provider: AuthType, b: SocialBody, profile: Option<SocialProfile>, now: int)
    returns (r: Response<AuthReply>)
    requires IsProvider(provider) && db.Valid()
    modifies db
    ensures db.Valid()
    ensures !ValidSocialSignUp(b) ==> r == Err(BadRequest, InvalidRequest)
    ensures ValidSocialSignUp(b) && profile.None? ==> r == Err(Unauthorized, InvalidToken)
    ensures ValidSocialSignUp(b) && profile.Some? && LoginTaken(old(db.users), provider, profile.value.id) ==>
      r == Err(BadRequest, UserTaken)
    ensures r.Err? ==> unchanged(db)
    ensures r.Ok? <==> ValidSocialSignUp(b) && profile.Some? && !LoginTaken(old(db.users), provider, profile.value.id)
    ensures r.Ok? ==>
      var u := SocialUser(old(db.nextId), provider, profile.value, ParseSignUpUserType(b.userType.value).value, now);
      && db.users == old(db.users)[u.id := u]
      && db.apartments == old(db.apartments) && db.tokens == old(db.tokens)
      && r.payload == SignedIn(SessionFor(u))
  {
    if !ValidSocialSignUp(b) {
      return Err(BadRequest, InvalidRequest);
    }
    if profile.None? {
      return Err(Unauthorized, InvalidToken);
    }
    if db.Login(provider, profile.value.id).Some? {
      return Err(BadRequest, UserTaken);
    }
    var id := db.NewId();
    var u := SocialUser(id, provider, profile.value, ParseSignUpUserType(b.userType.value).value, now);
    PutUserKeepsConsistent(db.users, db.apartments, db.nextId, u);
    db.PutUser(u);
    r := Ok(SignedIn(SessionFor(u)));
  }

  // -----------------------------------------------------------------------
  // checkToken (lines 296-306) and verifyEmail (lines 308-346)

  /** A request that carried a valid token is answered with a fresh token for the same claims. */
  function CheckToken(user: Option<Json>): (r: Response<AuthReply>)
    ensures r.Ok? <==> user.Some?
    ensures user.None? ==> r == Err(Unauthorized, InvalidToken)
    ensures r.Ok? ==>
      r.payload.SignedIn? && r.payload.session.user == user.value && r.payload.session.token.claims == user.value
  {
    if user.Some? then Ok(SignedIn(Session(Jwt(user.value), user.value))) else Err(Unauthorized, InvalidToken)
  }

  predicate ValidTokenBody(b: TokenBody) {
    !b.malformed && TruthyString(b.token)
  }

  method VerifyEmail(db: Db, b: TokenBody) returns (r: Response<AuthReply>)
    requires db.Valid()
    modifies db
    ensures db.Valid()
    ensures !ValidTokenBody(b) ==> r == Err(BadRequest, InvalidRequest)
    ensures ValidTokenBody(b) && b.token.value !in old(db.tokens) ==> r == Err(Unauthorized, InvalidToken)
    ensures ValidTokenBody(b) && b.token.value in old(db.tokens) && old(db.tokens)[b.token.value] !in old(db.users) ==>
      r == Err(NotFound, NoSuchUser)
    ensures r.Err? ==> unchanged(db)
    ensures r.Ok? <==>
      ValidTokenBody(b) && b.token.value in old(db.tokens) && old(db.tokens)[b.token.value] in old(db.users)
    ensures r.Ok? ==>
      var id := old(db.tokens)[b.token.value];
      && r.payload == Succeeded
      && db.users == old(db.users)[id := old(db.users)[id].(emailVerified := true)]
      && db.tokens == old(db.tokens) - {b.token.value}
      && db.apartments == old(db.apartments) && db.nextId == old(db.nextId)
  {
    if !ValidTokenBody(b) {
      return Err(BadRequest, InvalidRequest);
    }
    var token := b.token.value;
    if token !in db.tokens {
      return Err(Unauthorized, InvalidToken);
    }
    var id := db.tokens[token];
    if id !in db.users {
      return Err(NotFound, NoSuchUser);
    }
    var verified := db.users[id].(emailVerified := true);
    SameLoginKeepsConsistent(db.users, db.apartments, db.nextId, verified);
    db.PutUser(verified);
    db.RemoveToken(token);
    r := Ok(Succeeded);
  }

  // -----------------------------------------------------------------------
  // The e-mail account life cycle

  /**
   * Sign up, sign in before verifying (refused), verify with the mailed
   * token, sign in again (accepted, as the new account).
   */
  method SignUpVerifySignIn(db: Db, b: SignUpBody, token: string, now: int)
    returns (early: Response<AuthReply>, verified: Response<AuthReply>, late: Response<AuthReply>)
    requires db.Valid() && ValidSignUp(b) && token != "" && token !in db.tokens
    requires !LoginTaken(db.users, EmailAuth, NormalizeEmail(b.email.value))
    modifies db
    ensures db.Valid()
    ensures early == Err(Forbidden, NotVerified)
    ensures verified == Ok(Succeeded)
    ensures late == Ok(SignedIn(SessionFor(SignUpUser(old(db.nextId), b, now).(emailVerified := true))))
  {
    var credentials := Credentials(b.email, b.password, false);
    var email := NormalizeEmail(b.email.value);
    var u := SignUpUser(db.nextId, b, now);
    var signUp := SignUpEmail(db, b, token, true, now);
    assert db.users[u.id] == u && IsLogin(u, EmailAuth, email);
    early := SignInEmail(db, credentials);
    assert early == PasswordSignIn(u, b.password.value);
    verified := VerifyEmail(db, TokenBody(Some(token), false));
    var v := u.(emailVerified := true);
    assert db.users[u.id] == v && IsLogin(v, EmailAuth, email);
    late := SignInEmail(db, credentials);
    assert late == PasswordSignIn(v, b.password.value);
  }
}
