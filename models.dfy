/**
 * The stored records of rent-management-api/server/models/ (user, apartment,
 * e-mail token), the HTTP outcomes the controllers send, and the JSON a
 * stored record turns into before the response templates are applied.
 *
 * External services appear only through their results: bcrypt as the
 * injective `Bcrypt` constructor, a signed JWT as `Jwt(claims)`.
 */
module Models {
  import opened Wrappers
  import opened JsonSpec
  import opened Constants

  /** A document id (a Mongo ObjectId). */
  type Id = nat

  /** An id as the API prints it: ObjectIds are modelled as their decimal text. */
  function IdText(id: Id): (t: string)
    ensures |t| > 0
  {
    IndexKey(id)
  }

  /** `bcrypt.hashSync(password, 10)`, modelled as an injective function of the password. */
  datatype Hash = Bcrypt(password: string)

  /** `bcrypt.compareSync(password, hash) === true`. */
  predicate PasswordMatches(password: string, hash: Option<Hash>) {
    hash == Some(Bcrypt(password))
  }

  datatype User = User(
    id: Id,
    facebookId: Option<string>,
    googleId: Option<string>,
    email: Option<string>,
    emailVerified: bool,
    hash: Option<Hash>,
    userType: UserType,
    authType: AuthType,
    createdAt: int)

  /**
   * The stored `address` path, which has no default: never given, set to
   * `null` by an edit that moved the pin, or a text.
   */
  datatype StoredAddress = Unset | Cleared | Given(text: string)

  datatype Apartment = Apartment(
    id: Id,
    realtor: Id,
    name: string,
    description: string,
    size: real,
    price: real,
    rooms: real,
    latitude: real,
    longitude: real,
    address: StoredAddress,
    state: ApartmentState,
    createdAt: int)

  /** A signed JSON web token: `jwt.sign(claims, secret, config.jwt)`. */
  datatype Jwt = Jwt(claims: Json)

  /** The body of a successful sign-in: `{ token, user }`. */
  datatype Session = Session(token: Jwt, user: Json)

  /** The authenticated caller `req.user`: the decoded token claims with their `_id` and `userType`. */
  datatype Caller = Caller(id: Id, userType: UserType, claims: Json)

  datatype Status = BadRequest | Unauthorized | Forbidden | NotFound | ServerError

  function StatusCode(s: Status): int {
    match s
    case BadRequest => 400
    case Unauthorized => 401
    case Forbidden => 403
    case NotFound => 404
    case ServerError => 500
  }

  /** What a handler sends: a JSON body, or `res.status(code).json({ err })`. */
  datatype Response<T> = Ok(payload: T) | Err(status: Status, err: string)

  /** The text sent on a Joi rejection when the model does not know Joi's own detail message. */
  const InvalidRequest: string := "Invalid request"
  const NoPermission: string := "No permission"
  const ServerErrorText: string := "Server error"
  const InvalidAddress: string := "Invalid address"
  const NoSuchApartment: string := "Cannot find apartment"
  const NoSuchUser: string := "Cannot find user"
  const EmailTaken: string := "Email already exists"
  const UserIdTaken: string := "UserID already exists"
  const UserTaken: string := "User already exists"
  const WrongPassword: string := "Wrong password"
  const BadCredentials: string := "Email or password is invalid"
  const NotVerified: string := "Email is not verified yet"
  const InvalidToken: string := "Invalid token"

  /** JavaScript truthiness of an optional string: present and not empty. */
  predicate TruthyString(o: Option<string>) {
    o.Some? && o.value != ""
  }

  /** `Joi.string()` on an optional key: when present, not empty. */
  predicate StringOk(o: Option<string>) {
    o.Some? ==> o.value != ""
  }

  /** Which stored identity a sign-in of each kind looks users up by. */
  function LoginId(u: User): Option<string> {
    match u.authType
    case EmailAuth => u.email
    case GoogleAuth => u.googleId
    case FacebookAuth => u.facebookId
  }

  /**
   * `User.getEmailUserByEmail`, `getGoogleUserById`, `getFacebookUserById`:
   * a lookup matches only users of its own authentication kind.
   */
  predicate IsLogin(u: User, auth: AuthType, key: string) {
    u.authType == auth && LoginId(u) == Some(key)
  }

  // -----------------------------------------------------------------------
  // `email.toLowerCase().trim()`

  function LowerChar(c: char): char {
    if 'A' <= c <= 'Z' then (c as int + 32) as char else c
  }

  function ToLower(s: string): (r: string)
    ensures |r| == |s|
    ensures forall i :: 0 <= i < |s| ==> r[i] == LowerChar(s[i])
  {
    seq(|s|, i requires 0 <= i < |s| => LowerChar(s[i]))
  }

  /** The white space and line terminators `String.prototype.trim` removes. */
  predicate IsSpace(c: char) {
    c == ' ' || c == '\t' || c == '\n' || c == '\r' || c == '\U{B}' || c == '\U{C}' ||
    c == '\U{A0}' || c == '\U{1680}' || ('\U{2000}' <= c <= '\U{200A}') ||
    c == '\U{2028}' || c == '\U{2029}' || c == '\U{202F}' || c == '\U{205F}' ||
    c == '\U{3000}' || c == '\U{FEFF}'
  }

  /** Drops leading white space: what is left is a suffix starting with a non-space. */
  function TrimStart(s: string): (r: string)
    ensures |r| <= |s| && r == s[|s| - |r|..]
    ensures r == [] || !IsSpace(r[0])
    ensures forall i :: 0 <= i < |s| - |r| ==> IsSpace(s[i])
  {
    if s != [] && IsSpace(s[0]) then TrimStart(s[1..]) else s
  }

  /** Drops trailing white space: what is left is a prefix ending with a non-space. */
  function TrimEnd(s: string): (r: string)
    ensures |r| <= |s| && r == s[..|r|]
    ensures r == [] || !IsSpace(r[|r| - 1])
    ensures forall i :: |r| <= i < |s| ==> IsSpace(s[i])
  {
    if s != [] && IsSpace(s[|s| - 1]) then TrimEnd(s[..|s| - 1]) else s
  }

  function Trim(s: string): string {
    TrimEnd(TrimStart(s))
  }

  /** E-mails are lowercased and trimmed before every e-mail lookup or write. */
  function NormalizeEmail(s: string): string {
    Trim(ToLower(s))
  }

  predicate IsNormalizedEmail(s: string) {
    NormalizeEmail(s) == s
  }

  lemma LowerCharIdempotent(c: char)
    ensures LowerChar(LowerChar(c)) == LowerChar(c)
  {
  }

  /** A string of lower-case letters and other characters is left as it is by `toLowerCase`. */
  lemma ToLowerFixed(y: string)
    requires forall c :: c in y ==> LowerChar(c) == c
    ensures ToLower(y) == y
  {
    assert forall i :: 0 <= i < |y| ==> y[i] in y;
  }

  /** Every character of a lowercased string is its own lower case. */
  lemma LowerChars(s: string)
    ensures forall c :: c in ToLower(s) ==> LowerChar(c) == c
  {
    forall c | c in ToLower(s)
      ensures LowerChar(c) == c
    {
      var i :| 0 <= i < |s| && ToLower(s)[i] == c;
      LowerCharIdempotent(s[i]);
    }
  }

  /** A slice holds only characters of the whole. */
  lemma SliceChars(x: string, k: nat, m: nat)
    requires k <= m <= |x|
    ensures forall c :: c in x[k..m] ==> c in x
  {
    forall c | c in x[k..m]
      ensures c in x
    {
      var i :| 0 <= i < m - k && x[k..m][i] == c;
      assert x[k + i] == c;
    }
  }

  /** A trimmed string is left as it is by a second trim. */
  lemma TrimFixed(y: string)
    requires y == [] || (!IsSpace(y[0]) && !IsSpace(y[|y| - 1]))
    ensures Trim(y) == y
  {
    assert TrimStart(y) == y;
  }

  /** Trimming keeps a contiguous slice of the string. */
  lemma TrimSlice(s: string)
    ensures var k := |s| - |TrimStart(s)|; k + |Trim(s)| <= |s| && Trim(s) == s[k..k + |Trim(s)|]
  {
    var start := TrimStart(s);
    var k := |s| - |start|;
    assert start == s[k..];
    assert Trim(s) == start[..|Trim(s)|];
  }

  /** Trimming twice is trimming once. */
  lemma TrimTwice(s: string)
    ensures Trim(Trim(s)) == Trim(s)
  {
    var start := TrimStart(s);
    var y := TrimEnd(start);
    assert y == [] || y[0] == start[0];
    TrimFixed(y);
  }

  /** Normalising twice is normalising once, so a normalised e-mail is found by its own normal form. */
  lemma NormalizeEmailIdempotent(s: string)
    ensures IsNormalizedEmail(NormalizeEmail(s))
  {
    var lower := ToLower(s);
    var y := Trim(lower);
    var k := |lower| - |TrimStart(lower)|;
    TrimSlice(lower);
    LowerChars(s);
    SliceChars(lower, k, k + |y|);
    ToLowerFixed(y);
    TrimTwice(lower);
  }

  // -----------------------------------------------------------------------
  // JSON of stored records (`toJSON()` / a lean query result)

  function OptionalString(k: string, v: Option<string>): seq<(string, Json)> {
    if v.Some? then [(k, JStr(v.value))] else []
  }

  /** Stands for the bcrypt digest string stored in `hash`. */
  function HashText(h: Hash): string {
    "$2b$10$" + h.password
  }

  function UserFieldsBeforeHash(u: User): seq<(string, Json)> {
    [("_id", JStr(IdText(u.id)))]
    + OptionalString("facebookId", u.facebookId)
    + OptionalString("googleId", u.googleId)
    + OptionalString("email", u.email)
    + [("emailVerified", JBool(u.emailVerified))]
  }

  function UserFieldsAfterHash(u: User): seq<(string, Json)> {
    [("userType", JStr(UserTypeName(u.userType))),
     ("authType", JStr(AuthTypeName(u.authType))),
     ("createdAt", JNum(u.createdAt as real))]
  }

  function HashField(u: User): seq<(string, Json)> {
    if u.hash.Some? then [("hash", JStr(HashText(u.hash.value)))] else []
  }

  /** A stored user document as plain JSON, password hash included. */
  function UserJson(u: User): Json {
    JObj(UserFieldsBeforeHash(u) + HashField(u) + UserFieldsAfterHash(u))
  }

  /** The same user without its hash: what the API may show. */
  function PublicUserJson(u: User): Json {
    JObj(UserFieldsBeforeHash(u) + UserFieldsAfterHash(u))
  }

  lemma {:induction false} PickConcat(a: seq<(string, Json)>, b: seq<(string, Json)>, keys: set<string>)
    ensures Pick(a + b, keys) == Pick(a, keys) + Pick(b, keys)
  {
    if a != [] {
      PickConcat(a[1..], b, keys);
      var h := if a[0].0 in keys then [a[0]] else [];
      assert (a + b)[0] == a[0];
      assert (a + b)[1..] == a[1..] + b;
      calc {
        Pick(a + b, keys);
        h + Pick(a[1..] + b, keys);
        h + (Pick(a[1..], keys) + Pick(b, keys));
        (h + Pick(a[1..], keys)) + Pick(b, keys);
        Pick(a, keys) + Pick(b, keys);
      }
    } else {
      assert a + b == b;
    }
  }

  /** Shaping a stored user with USER_SPEC yields every field of it except the hash, unchanged. */
  lemma ShapedUserIsPublic(u: User)
    ensures Shape(UserJson(u), UserSpec) == Some(PublicUserJson(u))
  {
    var before, hash, after := UserFieldsBeforeHash(u), HashField(u), UserFieldsAfterHash(u);
    UserSpecHidesHash(UserJson(u));
    assert Props(UserJson(u)) == before + hash + after;
    UserFieldsPublic(u);
    HashFieldDropped(u);
    PickDropsMiddle(before, hash, after, UserSpecKeys);
  }

  /** Entries of which none is picked leave the pick of their surroundings as it is. */
  lemma PickSkipsDropped(a: seq<(string, Json)>, m: seq<(string, Json)>, b: seq<(string, Json)>, keys: set<string>)
    requires Pick(m, keys) == []
    ensures Pick(a + m + b, keys) == Pick(a, keys) + Pick(b, keys)
  {
    PickConcat(a + m, b, keys);
    PickConcat(a, m, keys);
    assert Pick(a, keys) + [] == Pick(a, keys);
  }

  /** Keys all kept on both sides and all dropped in the middle: the middle disappears. */
  lemma PickDropsMiddle(a: seq<(string, Json)>, m: seq<(string, Json)>, b: seq<(string, Json)>, keys: set<string>)
    requires forall p :: p in a ==> p.0 in keys
    requires forall p :: p in b ==> p.0 in keys
    requires Pick(m, keys) == []
    ensures Pick(a + m + b, keys) == a + b
  {
    PickSkipsDropped(a, m, b, keys);
    PickAll(a, keys);
    PickAll(b, keys);
  }

  lemma HashFieldDropped(u: User)
    ensures Pick(HashField(u), UserSpecKeys) == []
  {
    UserSpecFlat();
  }

  lemma UserFieldsPublic(u: User)
    ensures forall p :: p in UserFieldsBeforeHash(u) ==> p.0 in UserSpecKeys
    ensures forall p :: p in UserFieldsAfterHash(u) ==> p.0 in UserSpecKeys
  {
  }

  /** The user object the API returns: `jsonSpec(user.toJSON(), USER_SPEC)`. */
  function PublicUser(u: User): (r: Json)
    ensures Shape(UserJson(u), UserSpec) == Some(r)
    ensures r.JObj? && "hash" !in KeysOf(r.fields)
  {
    ShapedUserIsPublic(u);
    UserSpecHidesHash(UserJson(u));
    PublicUserJson(u)
  }

  /** Every stored apartment field except `_id` and the realtor reference. */
  function ApartmentDetails(a: Apartment): seq<(string, Json)> {
    DetailsBeforeAddress(a) + AddressField(a.address) + DetailsAfterAddress(a)
  }

  function DetailsBeforeAddress(a: Apartment): seq<(string, Json)> {
    [("name", JStr(a.name)),
     ("description", JStr(a.description)),
     ("size", JNum(a.size)),
     ("price", JNum(a.price)),
     ("rooms", JNum(a.rooms)),
     ("latitude", JNum(a.latitude)),
     ("longitude", JNum(a.longitude))]
  }

  function DetailsAfterAddress(a: Apartment): seq<(string, Json)> {
    [("state", JStr(ApartmentStateName(a.state))),
     ("createdAt", JNum(a.createdAt as real))]
  }

  /** An address never given has no key; a cleared one is `null`. */
  function AddressField(s: StoredAddress): seq<(string, Json)> {
    match s
    case Unset => []
    case Cleared => [("address", JNull)]
    case Given(text) => [("address", JStr(text))]
  }

  /** None of the other fields of a stored apartment is called `address`. */
  lemma OtherKeysNotAddress(a: Apartment, realtor: Json)
    ensures forall p :: p in [("_id", JStr(IdText(a.id))), ("realtor", realtor)] ==> p.0 != "address"
    ensures forall p :: p in DetailsBeforeAddress(a) ==> p.0 != "address"
    ensures forall p :: p in DetailsAfterAddress(a) ==> p.0 != "address"
  {
    assert "realtor"[0] != "address"[0];
  }

  /** `Object.keys` of entries none of which has key `k` does not hold `k`. */
  lemma KeyAbsent(ps: seq<(string, Json)>, k: string)
    requires forall p :: p in ps ==> p.0 != k
    ensures k !in KeysOf(ps)
  {
    forall i | 0 <= i < |ps|
      ensures KeysOf(ps)[i] != k
    {
      assert ps[i] in ps;
    }
  }

  /** `Object.keys` holds the key of every entry. */
  lemma KeyPresent(ps: seq<(string, Json)>, p: (string, Json))
    requires p in ps
    ensures p.0 in KeysOf(ps)
  {
    var i :| 0 <= i < |ps| && ps[i] == p;
    assert KeysOf(ps)[i] == p.0;
  }

  /**
   * An apartment created without an address has no `address` key at all; one
   * whose address an edit cleared has `address: null`.
   */
  lemma AddressKeyShown(a: Apartment, realtor: Json)
    ensures "address" in KeysOf(Props(ApartmentJson(a, realtor))) <==> !a.address.Unset?
    ensures a.address.Cleared? ==> ("address", JNull) in Props(ApartmentJson(a, realtor))
    ensures a.address.Given? ==> ("address", JStr(a.address.text)) in Props(ApartmentJson(a, realtor))
  {
    var front := [("_id", JStr(IdText(a.id))), ("realtor", realtor)];
    var before, address, after := DetailsBeforeAddress(a), AddressField(a.address), DetailsAfterAddress(a);
    var fs := front + (before + address + after);
    assert Props(ApartmentJson(a, realtor)) == fs;
    if a.address.Unset? {
      OtherKeysNotAddress(a, realtor);
      assert forall p :: p in fs ==> p in front || p in before || p in after;
      KeyAbsent(fs, "address");
    } else {
      assert address[0] in before + address;
      KeyPresent(fs, address[0]);
    }
  }

  /** A stored apartment as plain JSON with `realtor` holding whatever the query put there. */
  function ApartmentJson(a: Apartment, realtor: Json): Json {
    JObj([("_id", JStr(IdText(a.id))), ("realtor", realtor)] + ApartmentDetails(a))
  }

  /** What APARTMENT_SPEC leaves of an embedded realtor. */
  function NarrowRealtor(r: Json): Json {
    if Composite(r) then JObj(Pick(Props(r), {"_id", "email"})) else r
  }

  /** Two more entries in front: their shaped values in front of the rest's. */
  lemma {:induction false} ShapeFieldsTwoMore(
    k1: string, v1: Json, h1: Json, k2: string, v2: Json, h2: Json,
    ps: seq<(string, Json)>, t: Template, parent: Json)
    requires k1 in TemplateKeys(t) && k2 in TemplateKeys(t)
    requires Composite(v1) ==> (parent decreases to v1)
    requires Composite(v2) ==> (parent decreases to v2)
    requires forall p :: p in ps && Composite(p.1) ==> (parent decreases to p.1)
    requires forall p :: p in ps ==> p.0 in TemplateKeys(t)
    requires (if Recurses(v1, SubTemplate(t, k1)) then Shape(v1, SubTemplate(t, k1)) else Some(v1)) == Some(h1)
    requires (if Recurses(v2, SubTemplate(t, k2)) then Shape(v2, SubTemplate(t, k2)) else Some(v2)) == Some(h2)
    requires ShapeFields(ps, t, parent).Some?
    ensures ShapeFields([(k1, v1), (k2, v2)] + ps, t, parent) ==
      Some([(k1, h1), (k2, h2)] + ShapeFields(ps, t, parent).value)
  {
    var qs := [(k2, v2)] + ps;
    var rest := ShapeFields(ps, t, parent).value;
    assert [(k1, v1)] + qs == [(k1, v1), (k2, v2)] + ps;
    assert [(k1, h1)] + ([(k2, h2)] + rest) == [(k1, h1), (k2, h2)] + rest;
    ShapeFieldsOneMore(k2, v2, h2, ps, t, parent);
    assert forall p :: p in qs ==> p == (k2, v2) || p in ps;
    ShapeFieldsOneMore(k1, v1, h1, qs, t, parent);
  }

  /** One more entry in front: its shaped value in front of the rest's. */
  lemma {:induction false} ShapeFieldsOneMore(k: string, v: Json, h: Json, ps: seq<(string, Json)>, t: Template, parent: Json)
    requires k in TemplateKeys(t)
    requires Composite(v) ==> (parent decreases to v)
    requires forall p :: p in ps && Composite(p.1) ==> (parent decreases to p.1)
    requires forall p :: p in ps ==> p.0 in TemplateKeys(t)
    requires (if Recurses(v, SubTemplate(t, k)) then Shape(v, SubTemplate(t, k)) else Some(v)) == Some(h)
    requires ShapeFields(ps, t, parent).Some?
    ensures ShapeFields([(k, v)] + ps, t, parent) == Some([(k, h)] + ShapeFields(ps, t, parent).value)
  {
    var all := [(k, v)] + ps;
    assert all[0] == (k, v) && all[1..] == ps;
  }

  /** The details of an apartment hold no JSON object or array, and APARTMENT_SPEC keeps each of them. */
  lemma DetailsInLeafKeys(a: Apartment)
    ensures forall p :: p in ApartmentDetails(a) ==> p.0 in ApartmentLeafKeys && !Composite(p.1)
  {
  }

  /** The realtor entry of an apartment is shaped into its narrowed form. */
  lemma RealtorEntryShaped(realtor: Json)
    ensures var sub := SubTemplate(ApartmentSpec, "realtor");
      (if Recurses(realtor, sub) then Shape(realtor, sub) else Some(realtor)) == Some(NarrowRealtor(realtor))
  {
    ApartmentSpecFacts();
    if Composite(realtor) {
      RealtorSpecNarrows(realtor);
    }
  }

  /** APARTMENT_SPEC over an object with an `_id`, a `realtor` and further plain fields it lists. */
  lemma {:induction false} ShapedApartmentFields(id: Json, realtor: Json, d: seq<(string, Json)>)
    requires !Composite(id)
    requires forall p :: p in d ==> p.0 in ApartmentLeafKeys && !Composite(p.1)
    ensures Shape(JObj([("_id", id), ("realtor", realtor)] + d), ApartmentSpec) ==
      Some(JObj([("_id", id), ("realtor", NarrowRealtor(realtor))] + d))
  {
    var fs := [("_id", id), ("realtor", realtor)] + d;
    var s := JObj(fs);
    ApartmentSpecFacts();
    assert Props(s) == fs;
    assert fs[1] in Props(s);
    forall p | p in fs
      ensures p.0 in TemplateKeys(ApartmentSpec)
    {
      var i :| 0 <= i < |fs| && fs[i] == p;
      if i >= 2 {
        assert p == d[i - 2];
      }
    }
    PickAll(fs, TemplateKeys(ApartmentSpec));
    ShapeFieldsKeeps(d, ApartmentSpec, s);
    RealtorEntryShaped(realtor);
    ShapeFieldsTwoMore("_id", id, id, "realtor", realtor, NarrowRealtor(realtor), d, ApartmentSpec, s);
  }

  /**
   * APARTMENT_SPEC keeps every stored apartment field as it is and narrows the
   * embedded realtor to its `_id` and `email`.
   */
  lemma ShapedApartment(a: Apartment, realtor: Json)
    ensures Shape(ApartmentJson(a, realtor), ApartmentSpec) == Some(ApartmentJson(a, NarrowRealtor(realtor)))
  {
    DetailsInLeafKeys(a);
    ShapedApartmentFields(JStr(IdText(a.id)), realtor, ApartmentDetails(a));
  }

  const RealtorKeys: set<string> := {"_id", "email"}

  lemma PickNone(ps: seq<(string, Json)>, keys: set<string>)
    requires forall p :: p in ps ==> p.0 !in keys
    ensures Pick(ps, keys) == []
  {
  }

  lemma RealtorKeysDrop(u: User)
    ensures Pick(OptionalString("facebookId", u.facebookId) + OptionalString("googleId", u.googleId), RealtorKeys) == []
    ensures Pick([("emailVerified", JBool(u.emailVerified))], RealtorKeys) == []
    ensures Pick(HashField(u), RealtorKeys) == []
    ensures Pick(UserFieldsAfterHash(u), RealtorKeys) == []
  {
    PickNone(OptionalString("facebookId", u.facebookId) + OptionalString("googleId", u.googleId), RealtorKeys);
    PickNone(UserFieldsAfterHash(u), RealtorKeys);
  }

  /** Picking from six runs of entries of which only the first and third are kept. */
  lemma PickKeepsFirstAndThird(
    r1: seq<(string, Json)>, r2: seq<(string, Json)>, r3: seq<(string, Json)>,
    r4: seq<(string, Json)>, r5: seq<(string, Json)>, r6: seq<(string, Json)>, keys: set<string>)
    requires forall p :: p in r1 ==> p.0 in keys
    requires forall p :: p in r3 ==> p.0 in keys
    requires Pick(r2, keys) == [] && Pick(r4, keys) == [] && Pick(r5, keys) == [] && Pick(r6, keys) == []
    ensures Pick(r1 + r2 + r3 + r4 + r5 + r6, keys) == r1 + r3
  {
    PickSkipsDropped(r1 + r2 + r3 + r4, r5, r6, keys);
    PickConcat(r1 + r2 + r3, r4, keys);
    PickSkipsDropped(r1, r2, r3, keys);
    PickAll(r1, keys);
    PickAll(r3, keys);
    assert Pick(r1 + r2 + r3 + r4 + r5 + r6, keys) == (r1 + r3 + []) + [];
  }

  lemma UserPropsSplit(u: User)
    ensures Props(UserJson(u)) ==
      [("_id", JStr(IdText(u.id)))]
      + (OptionalString("facebookId", u.facebookId) + OptionalString("googleId", u.googleId))
      + OptionalString("email", u.email)
      + [("emailVerified", JBool(u.emailVerified))]
      + HashField(u)
      + UserFieldsAfterHash(u)
  {
    var id := [("_id", JStr(IdText(u.id)))];
    var social := OptionalString("facebookId", u.facebookId) + OptionalString("googleId", u.googleId);
    var email := OptionalString("email", u.email);
    var verified := [("emailVerified", JBool(u.emailVerified))];
    assert UserFieldsBeforeHash(u) == id + social + email + verified;
  }

  /** An object whose values hold no array with a `null` in it holds none either. */
  lemma ObjectNoNullInArrays(fs: seq<(string, Json)>)
    requires forall p :: p in fs ==> !Composite(p.1) || NoNullInArrays(p.1)
    ensures NoNullInArrays(JObj(fs))
  {
    forall i | 0 <= i < |fs|
      ensures NoNullInArrays(fs[i].1)
    {
      assert fs[i] in fs;
    }
  }

  /** A stored user document holds no array. */
  lemma UserJsonNoNullInArrays(u: User)
    ensures NoNullInArrays(UserJson(u))
  {
    var fs := UserFieldsBeforeHash(u) + HashField(u) + UserFieldsAfterHash(u);
    assert forall p :: p in fs ==> !Composite(p.1);
    ObjectNoNullInArrays(fs);
  }

  /** A stored apartment holds no array outside its realtor entry. */
  lemma ApartmentJsonNoNullInArrays(a: Apartment, realtor: Json)
    requires NoNullInArrays(realtor)
    ensures NoNullInArrays(ApartmentJson(a, realtor))
  {
    DetailsInLeafKeys(a);
    ObjectNoNullInArrays([("_id", JStr(IdText(a.id))), ("realtor", realtor)] + ApartmentDetails(a));
  }

  /** A listed apartment whose realtor is the populated user document shows only that user's `_id` and `email`. */
  lemma ListedRealtorIsNarrow(u: User)
    ensures NarrowRealtor(UserJson(u)) == JObj([("_id", JStr(IdText(u.id)))] + OptionalString("email", u.email))
  {
    UserPropsSplit(u);
    RealtorKeysDrop(u);
    PickKeepsFirstAndThird(
      [("_id", JStr(IdText(u.id)))],
      OptionalString("facebookId", u.facebookId) + OptionalString("googleId", u.googleId),
      OptionalString("email", u.email),
      [("emailVerified", JBool(u.emailVerified))],
      HashField(u),
      UserFieldsAfterHash(u),
      RealtorKeys);
  }
}
