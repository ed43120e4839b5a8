/**
 * rent-management-api/server/constants.js and server/config/index.js: the
 * three user roles, three authentication kinds and two apartment states with
 * the strings the API uses for them, the response templates USER_SPEC and
 * APARTMENT_SPEC, and the page sizes.
 */
module Constants {
  import opened Wrappers
  import opened JsonSpec

  datatype UserType = Client | Realtor | Admin
  datatype AuthType = EmailAuth | GoogleAuth | FacebookAuth
  datatype ApartmentState = Rentable | Rented

  function UserTypeName(u: UserType): string {
    match u
    case Client => "client"
    case Realtor => "realtor"
    case Admin => "admin"
  }

  function AuthTypeName(a: AuthType): string {
    match a
    case EmailAuth => "email"
    case GoogleAuth => "google"
    case FacebookAuth => "facebook"
  }

  function ApartmentStateName(s: ApartmentState): string {
    match s
    case Rentable => "rentable"
    case Rented => "rented"
  }

  /** `Object.values(USER_TYPE)`, `Object.values(AUTH_TYPE)`, `Object.values(APARTMENT_STATE)`. */
  const UserTypeValues: seq<string> := ["client", "realtor", "admin"]
  const AuthTypeValues: seq<string> := ["email", "google", "facebook"]
  const ApartmentStateValues: seq<string> := ["rentable", "rented"]
  /** The roles a self sign-up may ask for: `valid(USER_TYPE.CLIENT, USER_TYPE.REALTOR)`. */
  const SignUpUserTypeValues: seq<string> := ["client", "realtor"]

  const MaxPageSize: int := 1000
  const DefaultPageSize: int := 25

  /** `Joi.string().valid(...Object.values(USER_TYPE))`. */
  function ParseUserType(s: string): (r: Option<UserType>)
    ensures r.Some? <==> s in UserTypeValues
    ensures r.Some? ==> UserTypeName(r.value) == s
  {
    if s == "client" then Some(Client)
    else if s == "realtor" then Some(Realtor)
    else if s == "admin" then Some(Admin)
    else None
  }

  /** `Joi.string().valid(USER_TYPE.CLIENT, USER_TYPE.REALTOR)`: nobody signs up as admin. */
  function ParseSignUpUserType(s: string): (r: Option<UserType>)
    ensures r.Some? <==> s in SignUpUserTypeValues
    ensures r.Some? ==> r.value != Admin && UserTypeName(r.value) == s
  {
    match ParseUserType(s)
    case Some(u) => if u == Admin then None else Some(u)
    case None => None
  }

  /** `Joi.string().valid(...Object.values(APARTMENT_STATE))`. */
  function ParseApartmentState(s: string): (r: Option<ApartmentState>)
    ensures r.Some? <==> s in ApartmentStateValues
    ensures r.Some? ==> ApartmentStateName(r.value) == s
  {
    if s == "rentable" then Some(Rentable)
    else if s == "rented" then Some(Rented)
    else None
  }

  /** Each enumeration has exactly the listed values, each spelled once, and parsing reads back the spelling. */
  lemma EnumerationsExact(u: UserType, a: AuthType, st: ApartmentState)
    ensures |UserTypeValues| == 3 && |AuthTypeValues| == 3 && |ApartmentStateValues| == 2
    ensures UserTypeName(u) in UserTypeValues && ParseUserType(UserTypeName(u)) == Some(u)
    ensures AuthTypeName(a) in AuthTypeValues
    ensures forall a1: AuthType, a2: AuthType :: AuthTypeName(a1) == AuthTypeName(a2) ==> a1 == a2
    ensures ApartmentStateName(st) in ApartmentStateValues && ParseApartmentState(ApartmentStateName(st)) == Some(st)
    ensures forall i, j :: 0 <= i < j < |UserTypeValues| ==> UserTypeValues[i] != UserTypeValues[j]
    ensures forall i, j :: 0 <= i < j < |AuthTypeValues| ==> AuthTypeValues[i] != AuthTypeValues[j]
    ensures ApartmentStateValues[0] != ApartmentStateValues[1]
  {
  }

  /** USER_SPEC: every public user field, each kept as is; `hash` is not among them. */
  const UserSpec: Template := Fields(map[
    "_id" := Leaf, "facebookId" := Leaf, "googleId" := Leaf, "email" := Leaf,
    "emailVerified" := Leaf, "userType" := Leaf, "authType" := Leaf, "createdAt" := Leaf])

  const UserSpecKeys: set<string> :=
    {"_id", "facebookId", "googleId", "email", "emailVerified", "userType", "authType", "createdAt"}

  lemma UserSpecFlat()
    ensures AllLeaves(UserSpec) && TemplateKeys(UserSpec) == UserSpecKeys && "hash" !in UserSpecKeys
  {
  }

  /** The embedded realtor of APARTMENT_SPEC: only `_id` and `email`. */
  const RealtorSpec: Template := Fields(map["_id" := Leaf, "email" := Leaf])

  lemma RealtorSpecFlat()
    ensures AllLeaves(RealtorSpec) && TemplateKeys(RealtorSpec) == {"_id", "email"}
  {
  }

  /** The apartment fields APARTMENT_SPEC keeps as they are. */
  const ApartmentLeafKeys: set<string> :=
    {"_id", "name", "description", "size", "price", "rooms", "latitude", "longitude",
     "address", "state", "createdAt"}

  /** APARTMENT_SPEC: the apartment fields, with the embedded realtor narrowed by its own template. */
  const ApartmentSpec: Template := Fields((map k | k in ApartmentLeafKeys :: Leaf)["realtor" := RealtorSpec])

  lemma ApartmentSpecFacts()
    ensures TemplateKeys(ApartmentSpec) == ApartmentLeafKeys + {"realtor"}
    ensures "realtor" !in ApartmentLeafKeys
    ensures forall k :: k in ApartmentLeafKeys ==> SubTemplate(ApartmentSpec, k) == Leaf
    ensures SubTemplate(ApartmentSpec, "realtor") == RealtorSpec
  {
  }

  /** A user shaped by USER_SPEC holds only public keys and never the password hash; values are kept as they are. */
  lemma UserSpecHidesHash(s: Json)
    requires s != JNull
    ensures Shape(s, UserSpec) == Some(JObj(Pick(Props(s), UserSpecKeys)))
    ensures forall k :: k in KeysOf(Shape(s, UserSpec).value.fields) ==> k in UserSpecKeys
    ensures "hash" !in KeysOf(Shape(s, UserSpec).value.fields)
  {
    UserSpecFlat();
    FlatTemplatePicks(s, UserSpec);
    ObjectResultKeys(s, UserSpec);
  }

  /** Whatever the embedded realtor holds, APARTMENT_SPEC lets through only its `_id` and `email`. */
  lemma RealtorSpecNarrows(r: Json)
    requires r != JNull
    ensures Shape(r, RealtorSpec) == Some(JObj(Pick(Props(r), {"_id", "email"})))
    ensures forall k :: k in KeysOf(Shape(r, RealtorSpec).value.fields) ==> k == "_id" || k == "email"
  {
    RealtorSpecFlat();
    FlatTemplatePicks(r, RealtorSpec);
    ObjectResultKeys(r, RealtorSpec);
  }

  /**
   * Wrapping a template in a one-element array (`[USER_SPEC]`,
   * `[APARTMENT_SPEC]`) shapes each record of a list exactly as the record
   * alone would be shaped.
   */
  lemma {:induction false} ListShapesEachRecord(records: seq<Json>, t: Template)
    requires forall i :: 0 <= i < |records| ==> records[i].JObj? && NoNullInArrays(records[i])
    ensures Shape(JArr(records), ArrayOf(t)).Some?
    ensures var r := Shape(JArr(records), ArrayOf(t)).value;
      && r.JArr? && |r.items| == |records|
      && forall i :: 0 <= i < |records| ==> Some(r.items[i]) == Shape(records[i], t)
  {
    assert NoNullInArrays(JArr(records));
    ShapeDefined(JArr(records), ArrayOf(t));
    ArrayResult(records, t);
  }
}
