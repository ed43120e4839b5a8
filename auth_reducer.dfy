/**
 * The client's signed-in user (react-rent-management/src/redux/reducers/auth.js)
 * together with the browser storage entry `token` that the reducer writes
 * as a side effect.
 */
module AuthReducer {
  import opened Wrappers
  import opened JsonSpec
  import opened Models
  import AuthController

  /** The requests whose outcome the auth actions report. */
  datatype Request =
    | CheckToken | SignInEmail | SignUpEmail | SignInGoogle | SignUpGoogle
    | SignInFacebook | SignUpFacebook | VerifyEmail

  /**
   * An action reaching the reducer: a request's success with the
   * `{ token, user }` payload, a request's failure, or signing out.
   */
  datatype Action =
    | Succeeded(request: Request, session: Session)
    | Failed(request: Request)
    | SignOut

  /** Lines 29-35: the successes handled by `signIn`; e-mail sign-up and verification have no handler. */
  predicate SignsIn(a: Action) {
    a.Succeeded? && a.request != SignUpEmail && a.request != VerifyEmail
  }

  /** Lines 30 and 36: a rejected token check and signing out are handled by `signOut`. */
  predicate SignsOut(a: Action) {
    a.SignOut? || a == Failed(CheckToken)
  }

  /** A session as the API issues it: the token's claims are the user it is sent with. */
  predicate Issued(s: Session) {
    s.token.claims == s.user
  }

  class AuthState {
    /** `state.user`; `None` is `null`. */
    var user: Option<Json>
    /** The browser's `localStorage` entry `token`. */
    var storedToken: Option<Jwt>

    /** While a user is signed in, storage holds the token issued with that user. */
    predicate Valid()
      reads this
    {
      user.Some? ==> storedToken == Some(Jwt(user.value))
    }

    /** Lines 6-8: nobody is signed in; storage keeps whatever an earlier visit left there. */
    constructor (persisted: Option<Jwt>)
      ensures user == None && storedToken == persisted
      ensures Valid()
    {
      user := None;
      storedToken := persisted;
    }

    /** Lines 11-17: store the token and sign the user in. */
    method SignIn(s: Session)
      modifies this
      ensures storedToken == Some(s.token) && user == Some(s.user)
      ensures Issued(s) ==> Valid()
    {
      storedToken := Some(s.token);
      user := Some(s.user);
    }

    /** Lines 19-25: drop the token and sign the user out. */
    method SignOut()
      modifies this
      ensures storedToken == None && user == None
      ensures Valid()
    {
      storedToken := None;
      user := None;
    }

    /** Lines 28-37: the handler the table names for the action, or no change. */
    method Dispatch(a: Action)
      modifies this
      ensures SignsIn(a) ==> storedToken == Some(a.session.token) && user == Some(a.session.user)
      ensures SignsOut(a) ==> storedToken == None && user == None
      ensures !SignsIn(a) && !SignsOut(a) ==> user == old(user) && storedToken == old(storedToken)
      ensures old(Valid()) && (SignsIn(a) ==> Issued(a.session)) ==> Valid()
    {
      if SignsIn(a) {
        SignIn(a.session);
      } else if SignsOut(a) {
        SignOut();
      }
    }
  }

  /**
   * Every success but e-mail sign-up and e-mail verification signs in, and
   * only a failed token check or an explicit sign-out signs out; no action
   * does both.
   */
  lemma HandlerTable(a: Action)
    ensures SignsIn(a) <==> a.Succeeded? && a.request in {CheckToken, SignInEmail, SignInGoogle, SignUpGoogle, SignInFacebook, SignUpFacebook}
    ensures SignsOut(a) <==> a.SignOut? || (a.Failed? && a.request == CheckToken)
    ensures !(SignsIn(a) && SignsOut(a))
  {
  }

  /** Every session the API sends, from a sign-in or a token check, is issued, so dispatching it keeps `Valid()`. */
  lemma ServerSessionsAreIssued(u: User, claims: Option<Json>)
    ensures Issued(AuthController.SessionFor(u))
    ensures AuthController.CheckToken(claims).Ok? ==> Issued(AuthController.CheckToken(claims).payload.session)
  {
  }
}
