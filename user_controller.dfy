/**
 * rent-management-api/server/controllers/user.js: user administration and
 * the signed-in user's own account. The caller is the authenticated
 * `req.user`; bcrypt is the injective `Bcrypt` of Models.
 */
module UserController {
  import opened Wrappers
  import opened JsonSpec
  import opened Constants
  import opened Models
  import opened Store
  import AuthController

  /** `POST /user` body after Joi's type conversion; `malformed` covers unknown keys, wrong JSON types and a bad e-mail syntax. */
  datatype NewUserBody = NewUserBody(
    email: Option<string>,
    emailVerified: Option<bool>,
    password: Option<string>,
    userType: Option<string>,
    malformed: bool)

  /** `PUT /user/password` body. */
  datatype PasswordBody = PasswordBody(current: Option<string>, password: Option<string>, malformed: bool)

  /** `GET /user/list` query. */
  datatype UserListQuery = UserListQuery(before: Option<int>, pageSize: Option<real>, malformed: bool)

  /** `PUT /user/:userId` body. */
  datatype UserPatch = UserPatch(
    facebookId: Option<string>,
    googleId: Option<string>,
    email: Option<string>,
    emailVerified: Option<bool>,
    password: Option<string>,
    userType: Option<string>,
    malformed: bool)

  /** `{ createdAt: { $lt: before } }` and the page size handed to the database. */
  datatype UserQuery = UserQuery(createdBefore: Option<int>, limit: int)

  datatype UserReply =
    | UserShown(user: Json)
    | Succeeded
    | UserPage(totalCounts: nat, users: seq<Json>)
    | UserDeleted(userId: Id)
    | UserUpdated(userId: Id, updated: Json)

  predicate IsAdmin(caller: Caller) {
    caller.userType == Admin
  }

  // -----------------------------------------------------------------------
  // createUser (lines 15-59)

  /** Lines 16-21. */
  predicate ValidNewUser(b: NewUserBody) {
    && !b.malformed
    && TruthyString(b.email) && b.emailVerified.Some? && TruthyString(b.password)
    && b.userType.Some? && ParseUserType(b.userType.value).Some?
  }

  method CreateUser(db: Db, caller: Caller, body: NewUserBody, now: int) returns (r: Response<UserReply>)
    requires db.Valid()
    modifies db
    ensures db.Valid()
    ensures !ValidNewUser(body) ==> r == Err(BadRequest, InvalidRequest)
    ensures ValidNewUser(body) && !IsAdmin(caller) ==> r == Err(Forbidden, NoPermission)
    ensures ValidNewUser(body) && IsAdmin(caller) && LoginTaken(old(db.users), EmailAuth, NormalizeEmail(body.email.value)) ==>
      r == Err(BadRequest, EmailTaken)
    ensures r.Err? ==> unchanged(db)
    ensures r.Ok? <==>
      ValidNewUser(body) && IsAdmin(caller) && !LoginTaken(old(db.users), EmailAuth, NormalizeEmail(body.email.value))
    ensures r.Ok? ==>
      var u := NewEmailUser(old(db.nextId), body.email.value, body.emailVerified.value, body.password.value,
        ParseUserType(body.userType.value).value, now);
      && db.users == old(db.users)[u.id := u]
      && db.apartments == old(db.apartments) && db.tokens == old(db.tokens)
      && r.payload == UserShown(PublicUser(u))
  {
    if !ValidNewUser(body) {
      return Err(BadRequest, InvalidRequest);
    }
    var email := NormalizeEmail(body.email.value);
    if caller.userType != Admin {
      return Err(Forbidden, NoPermission);
    }
    if db.Login(EmailAuth, email).Some? {
      return Err(BadRequest, EmailTaken);
    }
    var id := db.NewId();
    var u := NewEmailUser(id, body.email.value, body.emailVerified.value, body.password.value,
      ParseUserType(body.userType.value).value, now);
    PutUserKeepsConsistent(db.users, db.apartments, db.nextId, u);
    db.PutUser(u);
    r := Ok(UserShown(PublicUser(u)));
  }

  // -----------------------------------------------------------------------
  // getSelf (lines 61-63) and deleteSelf (lines 65-85)

  /** The signed-in user as the token presented it, without a database read. */
  function GetSelf(claims: Json): (r: Response<UserReply>)
    ensures r.Ok? && r.payload.UserShown? && r.payload.user == claims
  {
    Ok(UserShown(claims))
  }

  /**
   * A caller presenting a token the API issued for `u` is shown the public
   * form of `u`: every stored field but the hash, already in USER_SPEC shape.
   */
  lemma SelfIsPublicUser(u: User)
    ensures GetSelf(AuthController.SessionFor(u).token.claims) == Ok(UserShown(PublicUser(u)))
    ensures Shape(GetSelf(AuthController.SessionFor(u).token.claims).payload.user, UserSpec) == Some(PublicUser(u))
    ensures "hash" !in KeysOf(GetSelf(AuthController.SessionFor(u).token.claims).payload.user.fields)
  {
    AuthController.SessionClaimsRoundTrip(u);
  }

  method DeleteSelf(db: Db, caller: Caller) returns (r: Response<UserReply>)
    requires db.Valid()
    modifies db
    ensures db.Valid()
    ensures caller.id !in old(db.users) <==> r == Err(NotFound, NoSuchUser)
    ensures r.Ok? <==> caller.id in old(db.users)
    ensures r.Err? ==> unchanged(db)
    ensures r.Ok? ==>
      && r.payload == Succeeded
      && db.users == old(db.users) - {caller.id}
      && db.apartments == WithoutRealtor(old(db.apartments), caller.id)
      && db.tokens == old(db.tokens) && db.nextId == old(db.nextId)
  {
    if caller.id !in db.users {
      return Err(NotFound, NoSuchUser);
    }
    db.RemoveUser(caller.id);
    r := Ok(Succeeded);
  }

  // -----------------------------------------------------------------------
  // changePassword (lines 87-126)

  predicate ValidPasswordBody(b: PasswordBody) {
    !b.malformed && TruthyString(b.current) && TruthyString(b.password)
  }

  method ChangePassword(db: Db, caller: Caller, body: PasswordBody) returns (r: Response<UserReply>)
    requires db.Valid()
    modifies db
    ensures db.Valid()
    ensures !ValidPasswordBody(body) ==> r == Err(BadRequest, InvalidRequest)
    ensures ValidPasswordBody(body) && caller.id !in old(db.users) ==> r == Err(NotFound, NoSuchUser)
    ensures ValidPasswordBody(body) && caller.id in old(db.users) ==>
      var u := old(db.users)[caller.id];
      && (u.authType != EmailAuth ==> r == Err(BadRequest, InvalidRequest))
      && (u.authType == EmailAuth && !PasswordMatches(body.current.value, u.hash) ==> r == Err(Forbidden, WrongPassword))
      && (r.Ok? <==> u.authType == EmailAuth && PasswordMatches(body.current.value, u.hash))
    ensures r.Err? ==> unchanged(db)
    ensures r.Ok? ==>
      && r.payload == Succeeded
      && db.users == old(db.users)[caller.id := old(db.users)[caller.id].(hash := Some(Bcrypt(body.password.value)))]
      && db.apartments == old(db.apartments) && db.tokens == old(db.tokens) && db.nextId == old(db.nextId)
  {
    if !ValidPasswordBody(body) {
      return Err(BadRequest, InvalidRequest);
    }
    if caller.id !in db.users {
      return Err(NotFound, NoSuchUser);
    }
    var u := db.users[caller.id];
    if u.authType != EmailAuth {
      return Err(BadRequest, InvalidRequest);
    }
    if !PasswordMatches(body.current.value, u.hash) {
      return Err(Forbidden, WrongPassword);
    }
    var changed := u.(hash := Some(Bcrypt(body.password.value)));
    SameLoginKeepsConsistent(db.users, db.apartments, db.nextId, changed);
    db.PutUser(changed);
    r := Ok(Succeeded);
  }

  /** After a password change the new password is accepted and the old one only when it is the same text. */
  lemma PasswordChangeTakesEffect(u: User, previous: string, chosen: string)
    requires PasswordMatches(previous, u.hash)
    ensures PasswordMatches(chosen, u.(hash := Some(Bcrypt(chosen))).hash)
    ensures PasswordMatches(previous, u.(hash := Some(Bcrypt(chosen))).hash) <==> previous == chosen
  {
  }

  // -----------------------------------------------------------------------
  // listUsers (lines 128-168)

  predicate ValidUserListQuery(q: UserListQuery) {
    && !q.malformed
    && (q.pageSize.Some? ==> q.pageSize.value > 0.0 && IsInteger(q.pageSize.value) && q.pageSize.value <= MaxPageSize as real)
  }

  /** Lines 150-157: a `before` date always filters; the page size falls back to the default. */
  function BuildUserQuery(q: UserListQuery): (r: UserQuery)
    requires ValidUserListQuery(q)
    ensures r.createdBefore == q.before
    ensures 1 <= r.limit <= MaxPageSize
    ensures q.pageSize.None? ==> r.limit == DefaultPageSize
    ensures q.pageSize.Some? ==> r.limit as real == q.pageSize.value
  {
    UserQuery(q.before, if q.pageSize.Some? then q.pageSize.value.Floor else DefaultPageSize)
  }

  predicate MatchesUser(query: UserQuery, u: User) {
    query.createdBefore.Some? ==> u.createdAt < query.createdBefore.value
  }

  /** The users `dbQuery` selects. */
  function UserMatchIds(users: map<Id, User>, query: UserQuery): (ids: set<Id>)
    ensures forall id :: id in ids <==> id in users && MatchesUser(query, users[id])
  {
    set id | id in users && MatchesUser(query, users[id])
  }

  /** `User.countUsers(dbQuery)`. */
  function CountUsers(users: map<Id, User>, query: UserQuery): (n: nat)
    ensures n <= |users|
    ensures query.createdBefore.None? ==> n == |users|
  {
    var ids := UserMatchIds(users, query);
    assert query.createdBefore.None? ==> ids == users.Keys;
    SubsetCardinality(ids, users.Keys);
    |ids|
  }

  /** The `createdAt` of every stored user, the key the list is sorted by. */
  function UserTimes(users: map<Id, User>): (r: map<Id, int>)
    ensures r.Keys == users.Keys
    ensures forall id :: id in r ==> r[id] == users[id].createdAt
  {
    map id | id in users :: users[id].createdAt
  }

  /** Lines 53-57 of rent-management-api/server/models/user.js: the lean documents of a page. */
  function UserPageRecords(users: map<Id, User>, page: seq<Id>): seq<Json>
    requires forall i :: 0 <= i < |page| ==> page[i] in users
  {
    seq(|page|, i requires 0 <= i < |page| => UserJson(users[page[i]]))
  }

  /** The users of a page as the reply shows them, without their hashes. */
  function ListedUsers(users: map<Id, User>, page: seq<Id>): seq<Json>
    requires forall i :: 0 <= i < |page| ==> page[i] in users
  {
    seq(|page|, i requires 0 <= i < |page| => PublicUser(users[page[i]]))
  }

  /** Line 162: `jsonSpec(users, [USER_SPEC])` shows each user of the page, in page order. */
  lemma ShapedUserPage(users: map<Id, User>, page: seq<Id>)
    requires forall i :: 0 <= i < |page| ==> page[i] in users
    ensures Shape(JArr(UserPageRecords(users, page)), ArrayOf(UserSpec)) == Some(JArr(ListedUsers(users, page)))
  {
    var records := UserPageRecords(users, page);
    var listed := ListedUsers(users, page);
    forall i | 0 <= i < |records|
      ensures records[i].JObj? && NoNullInArrays(records[i])
    {
      UserJsonNoNullInArrays(users[page[i]]);
    }
    ListShapesEachRecord(records, UserSpec);
    var shown := Shape(JArr(records), ArrayOf(UserSpec)).value;
    assert shown.items == listed;
  }

  /**
   * `page` is the answer of `User.listUsers(dbQuery, limit)`: the newest
   * matches, at most the page size. The reply shapes it with `[USER_SPEC]`.
   */
  method ListUsers(db: Db, caller: Caller, q: UserListQuery, page: seq<Id>) returns (r: Response<UserReply>)
    requires ValidUserListQuery(q) && IsAdmin(caller) ==>
      var query := BuildUserQuery(q);
      IsNewestFirstPage(UserMatchIds(db.users, query), UserTimes(db.users), query.limit, page)
    ensures !ValidUserListQuery(q) ==> r == Err(BadRequest, InvalidRequest)
    ensures ValidUserListQuery(q) && !IsAdmin(caller) ==> r == Err(Forbidden, NoPermission)
    ensures r.Ok? <==> ValidUserListQuery(q) && IsAdmin(caller)
    ensures r.Ok? ==> r.payload == UserPage(CountUsers(db.users, BuildUserQuery(q)), ListedUsers(db.users, page))
  {
    if !ValidUserListQuery(q) {
      return Err(BadRequest, InvalidRequest);
    }
    if caller.userType != Admin {
      return Err(Forbidden, NoPermission);
    }
    var query := BuildUserQuery(q);
    ShapedUserPage(db.users, page);
    var shown := Shape(JArr(UserPageRecords(db.users, page)), ArrayOf(UserSpec)).value;
    r := Ok(UserPage(CountUsers(db.users, query), shown.items));
  }

  // -----------------------------------------------------------------------
  // deleteUser (lines 170-201)

  method DeleteUser(db: Db, caller: Caller, userId: Id) returns (r: Response<UserReply>)
    requires db.Valid()
    modifies db
    ensures db.Valid()
    ensures !IsAdmin(caller) ==> r == Err(Forbidden, NoPermission)
    ensures IsAdmin(caller) && userId !in old(db.users) ==> r == Err(NotFound, NoSuchUser)
    ensures IsAdmin(caller) && userId in old(db.users) && userId == caller.id ==> r == Err(BadRequest, InvalidRequest)
    ensures r.Ok? <==> IsAdmin(caller) && userId in old(db.users) && userId != caller.id
    ensures r.Err? ==> unchanged(db)
    ensures r.Ok? ==>
      && r.payload == UserDeleted(userId)
      && db.users == old(db.users) - {userId}
      && db.apartments == WithoutRealtor(old(db.apartments), userId)
      && db.tokens == old(db.tokens) && db.nextId == old(db.nextId)
  {
    if caller.userType != Admin {
      return Err(Forbidden, NoPermission);
    }
    if userId !in db.users {
      return Err(NotFound, NoSuchUser);
    }
    if userId == caller.id {
      return Err(BadRequest, InvalidRequest);
    }
    db.RemoveUser(userId);
    r := Ok(UserDeleted(userId));
  }

  // -----------------------------------------------------------------------
  // editUser (lines 203-313)

  /** Lines 204-211. */
  predicate ValidUserPatch(v: UserPatch) {
    && !v.malformed
    && StringOk(v.facebookId) && StringOk(v.googleId) && StringOk(v.email) && StringOk(v.password)
    && TypeOk(v)
  }

  /** The role, when given, is one of the three. */
  predicate TypeOk(v: UserPatch) {
    v.userType.Some? ==> ParseUserType(v.userType.value).Some?
  }

  /** Lines 217-219: a given e-mail is normalised before any comparison. */
  function NormalizedPatch(v: UserPatch): (w: UserPatch)
    ensures w.email.Some? <==> v.email.Some?
    ensures w.email.Some? ==> w.email.value == NormalizeEmail(v.email.value)
    ensures w.(email := v.email) == v
  {
    if TruthyString(v.email) then
      v.(email := Some(NormalizeEmail(v.email.value)))
    else
      v
  }

  /** Each guarded change of lines 236-300, judged against the record as loaded. */
  predicate FacebookChange(v: UserPatch, u: User) {
    TruthyString(v.facebookId) && v.facebookId != u.facebookId
  }

  predicate GoogleChange(v: UserPatch, u: User) {
    TruthyString(v.googleId) && v.googleId != u.googleId
  }

  predicate EmailChange(v: UserPatch, u: User) {
    TruthyString(v.email) && v.email != u.email
  }

  predicate VerifiedChange(v: UserPatch, u: User) {
    v.emailVerified.Some? && v.emailVerified.value != u.emailVerified
  }

  predicate TypeChange(v: UserPatch, u: User)
    requires TypeOk(v)
  {
    v.userType.Some? && ParseUserType(v.userType.value).value != u.userType
  }

  /**
   * Every guard of lines 236-300 passes: an id changes only on an account of
   * that provider and only to an id no user of that provider holds; an
   * e-mail account's address changes only to one no e-mail account holds;
   * the verification flag and the password belong to e-mail accounts; and
   * an admin changes neither their own verification flag nor their own role.
   */
  predicate EditAllowed(users: map<Id, User>, callerId: Id, u: User, v: UserPatch)
    requires TypeOk(v)
  {
    && (FacebookChange(v, u) ==> u.authType == FacebookAuth && !LoginTaken(users, FacebookAuth, v.facebookId.value))
    && (GoogleChange(v, u) ==> u.authType == GoogleAuth && !LoginTaken(users, GoogleAuth, v.googleId.value))
    && (EmailChange(v, u) && u.authType == EmailAuth ==> !LoginTaken(users, EmailAuth, v.email.value))
    && (VerifiedChange(v, u) ==> u.authType == EmailAuth && u.id != callerId)
    && (TruthyString(v.password) ==> u.authType == EmailAuth)
    && (TypeChange(v, u) ==> u.id != callerId)
  }

  /** The message of the first guard that fails, in the order the handler checks them. */
  function EditRefusal(users: map<Id, User>, callerId: Id, u: User, v: UserPatch): string
    requires TypeOk(v)
  {
    if FacebookChange(v, u) && u.authType != FacebookAuth then InvalidRequest
    else if FacebookChange(v, u) && LoginTaken(users, FacebookAuth, v.facebookId.value) then UserIdTaken
    else if GoogleChange(v, u) && u.authType != GoogleAuth then InvalidRequest
    else if GoogleChange(v, u) && LoginTaken(users, GoogleAuth, v.googleId.value) then UserIdTaken
    else if EmailChange(v, u) && u.authType == EmailAuth && LoginTaken(users, EmailAuth, v.email.value) then EmailTaken
    else InvalidRequest
  }

  /** The record an allowed edit stores: each changed field takes the new value, a given password is rehashed. */
  function EditedUser(u: User, v: UserPatch): User
    requires TypeOk(v)
  {
    u.(facebookId := if FacebookChange(v, u) then v.facebookId else u.facebookId,
       googleId := if GoogleChange(v, u) then v.googleId else u.googleId,
       email := if EmailChange(v, u) then v.email else u.email,
       emailVerified := if VerifiedChange(v, u) then v.emailVerified.value else u.emailVerified,
       hash := if TruthyString(v.password) then Some(Bcrypt(v.password.value)) else u.hash,
       userType := if TypeChange(v, u) then ParseUserType(v.userType.value).value else u.userType)
  }

  /** What an edit of the loaded record `u` yields: nothing is saved unless every guard passes. */
  function EditOutcome(users: map<Id, User>, callerId: Id, u: User, v: UserPatch): Response<User>
    requires TypeOk(v)
  {
    if EditAllowed(users, callerId, u, v) then Ok(EditedUser(u, v))
    else Err(BadRequest, EditRefusal(users, callerId, u, v))
  }

  /** Lines 236-300: the guarded changes applied one after another to the loaded record. */
  method ApplyUserEdit(db: Db, callerId: Id, u: User, v: UserPatch) returns (r: Response<User>)
    requires TypeOk(v)
    ensures r == EditOutcome(db.users, callerId, u, v)
  {
    var w := u;
    if TruthyString(v.facebookId) && v.facebookId != w.facebookId {
      if w.authType != FacebookAuth {
        return Err(BadRequest, InvalidRequest);
      }
      if LoginTaken(db.users, FacebookAuth, v.facebookId.value) {
        return Err(BadRequest, UserIdTaken);
      }
      w := w.(facebookId := v.facebookId);
    }
    if TruthyString(v.googleId) && v.googleId != w.googleId {
      if w.authType != GoogleAuth {
        return Err(BadRequest, InvalidRequest);
      }
      if LoginTaken(db.users, GoogleAuth, v.googleId.value) {
        return Err(BadRequest, UserIdTaken);
      }
      w := w.(googleId := v.googleId);
    }
    if TruthyString(v.email) && v.email != w.email {
      if w.authType == EmailAuth && LoginTaken(db.users, EmailAuth, v.email.value) {
        return Err(BadRequest, EmailTaken);
      }
      w := w.(email := v.email);
    }
    if v.emailVerified.Some? && v.emailVerified.value != w.emailVerified {
      if w.authType != EmailAuth {
        return Err(BadRequest, InvalidRequest);
      }
      if w.id == callerId {
        return Err(BadRequest, InvalidRequest);
      }
      w := w.(emailVerified := v.emailVerified.value);
    }
    if TruthyString(v.password) {
      if w.authType != EmailAuth {
        return Err(BadRequest, InvalidRequest);
      }
      w := w.(hash := Some(Bcrypt(v.password.value)));
    }
    if v.userType.Some? && ParseUserType(v.userType.value).value != w.userType {
      if w.id == callerId {
        return Err(BadRequest, InvalidRequest);
      }
      w := w.(userType := ParseUserType(v.userType.value).value);
    }
    r := Ok(w);
  }

  /** A patch that repeats the record's own values and gives no password is accepted and changes nothing. */
  lemma EditWithCurrentValues(users: map<Id, User>, callerId: Id, u: User, v: UserPatch)
    requires TypeOk(v) && !TruthyString(v.password)
    requires v.facebookId.None? || v.facebookId == u.facebookId
    requires v.googleId.None? || v.googleId == u.googleId
    requires v.email.None? || v.email == u.email
    requires v.emailVerified.None? || v.emailVerified == Some(u.emailVerified)
    requires v.userType.None? || v.userType == Some(UserTypeName(u.userType))
    ensures EditOutcome(users, callerId, u, v) == Ok(u)
  {
    if v.userType.Some? {
      EnumerationsExact(u.userType, u.authType, Rentable);
    }
  }

  /**
   * What an accepted edit can and cannot change: the id, the authentication
   * kind and the creation time never; a provider id only on that provider's
   * account; the verification flag and password only on an e-mail account;
   * and an admin's own role and verification flag never.
   */
  lemma EditGuards(users: map<Id, User>, callerId: Id, u: User, v: UserPatch)
    requires TypeOk(v) && EditOutcome(users, callerId, u, v).Ok?
    ensures var e := EditOutcome(users, callerId, u, v).payload;
      && e.id == u.id && e.authType == u.authType && e.createdAt == u.createdAt
      && (e.facebookId != u.facebookId ==> u.authType == FacebookAuth)
      && (e.googleId != u.googleId ==> u.authType == GoogleAuth)
      && (e.emailVerified != u.emailVerified ==> u.authType == EmailAuth)
      && (e.hash != u.hash ==> u.authType == EmailAuth)
      && (u.id == callerId ==> e.userType == u.userType && e.emailVerified == u.emailVerified)
  {
  }

  /** A refused edit names the guard that failed: a taken id or address, or an invalid request. */
  lemma EditRefusalMessages(users: map<Id, User>, callerId: Id, u: User, v: UserPatch)
    requires TypeOk(v) && EditOutcome(users, callerId, u, v).Err?
    ensures var e := EditOutcome(users, callerId, u, v);
      && e.status == BadRequest
      && (e.err == UserIdTaken ==>
            (FacebookChange(v, u) && LoginTaken(users, FacebookAuth, v.facebookId.value))
            || (GoogleChange(v, u) && LoginTaken(users, GoogleAuth, v.googleId.value)))
      && (e.err == EmailTaken ==> EmailChange(v, u) && LoginTaken(users, EmailAuth, v.email.value))
      && e.err in {InvalidRequest, UserIdTaken, EmailTaken}
  {
  }

  /** An accepted edit of a stored user keeps logins unique and e-mail accounts well formed. */
  lemma EditKeepsConsistent(users: map<Id, User>, apartments: map<Id, Apartment>, nextId: Id, callerId: Id, u: User, v: UserPatch)
    requires TypeOk(v) && Consistent(users, apartments, nextId) && u.id in users && users[u.id] == u
    requires v.email.Some? ==> IsNormalizedEmail(v.email.value)
    requires EditOutcome(users, callerId, u, v).Ok?
    ensures Consistent(users[u.id := EditOutcome(users, callerId, u, v).payload], apartments, nextId)
  {
    var e := EditedUser(u, v);
    if LoginId(e).Some? && LoginId(e) != LoginId(u) {
      assert !LoginTaken(users, e.authType, LoginId(e).value);
    }
    PutUserKeepsConsistent(users, apartments, nextId, e);
  }

  method EditUser(db: Db, caller: Caller, userId: Id, body: UserPatch) returns (r: Response<UserReply>)
    requires db.Valid()
    modifies db
    ensures db.Valid()
    ensures !ValidUserPatch(body) ==> r == Err(BadRequest, InvalidRequest)
    ensures ValidUserPatch(body) && !IsAdmin(caller) ==> r == Err(Forbidden, NoPermission)
    ensures ValidUserPatch(body) && IsAdmin(caller) && userId !in old(db.users) ==> r == Err(NotFound, NoSuchUser)
    ensures ValidUserPatch(body) && IsAdmin(caller) && userId in old(db.users) ==>
      match EditOutcome(old(db.users), caller.id, old(db.users)[userId], NormalizedPatch(body))
      case Ok(e) => r == Ok(UserUpdated(userId, PublicUser(e))) && db.users == old(db.users)[userId := e]
      case Err(s, m) => r == Err(s, m)
    ensures r.Err? ==> unchanged(db)
    ensures db.apartments == old(db.apartments) && db.tokens == old(db.tokens) && db.nextId == old(db.nextId)
  {
    if !ValidUserPatch(body) {
      return Err(BadRequest, InvalidRequest);
    }
    var v := NormalizedPatch(body);
    if v.email.Some? {
      NormalizeEmailIdempotent(body.email.value);
    }
    if caller.userType != Admin {
      return Err(Forbidden, NoPermission);
    }
    if userId !in db.users {
      return Err(NotFound, NoSuchUser);
    }
    var u := db.users[userId];
    var outcome := ApplyUserEdit(db, caller.id, u, v);
    if outcome.Err? {
      return Err(outcome.status, outcome.err);
    }
    EditKeepsConsistent(db.users, db.apartments, db.nextId, caller.id, u, v);
    db.PutUser(outcome.payload);
    r := Ok(UserUpdated(userId, PublicUser(outcome.payload)));
  }
}
