/**
 * rent-management-api/server/controllers/apartment.js: create, list, read,
 * delete and edit apartments. The caller is the authenticated `req.user`
 * (the routers answer 401 before any of these runs otherwise). The geocoder
 * appears only as its result for the given address: `Some((lat, lng))` or
 * `None` when it finds nothing or fails.
 */
module ApartmentController {
  import opened Wrappers
  import opened JsonSpec
  import opened Constants
  import opened Models
  import opened Store

  /**
   * A create or edit body after Joi's type conversion. `malformed` stands for
   * every rejection the model does not spell out: an unknown key, or a value
   * of the wrong JSON type.
   */
  datatype ApartmentBody = ApartmentBody(
    name: Option<string>,
    description: Option<string>,
    size: Option<real>,
    price: Option<real>,
    rooms: Option<real>,
    latitude: Option<real>,
    longitude: Option<real>,
    address: Option<string>,
    state: Option<string>,
    malformed: bool)

  /** The query string of `GET /apartment/list` after Joi's type conversion. */
  datatype ListQuery = ListQuery(
    state: Option<string>,
    minSize: Option<real>,
    maxSize: Option<real>,
    minPrice: Option<real>,
    maxPrice: Option<real>,
    minRooms: Option<real>,
    maxRooms: Option<real>,
    before: Option<int>,
    pageSize: Option<real>,
    malformed: bool)

  /** `{ $gte, $lte }` of one numeric field. */
  datatype Bounds = Bounds(gte: Option<real>, lte: Option<real>)

  /** The `dbQuery` of listApartments and the page size handed to the database. */
  datatype ApartmentQuery = ApartmentQuery(
    realtor: Option<Id>,
    state: Option<ApartmentState>,
    size: Option<Bounds>,
    price: Option<Bounds>,
    rooms: Option<Bounds>,
    createdBefore: Option<int>,
    limit: int)

  datatype ApartmentReply =
    | ApartmentShown(apartment: Json)
    | ApartmentPage(totalCounts: nat, apartments: seq<Json>)
    | ApartmentDeleted(apartmentId: Id)
    | ApartmentUpdated(apartmentId: Id, updated: ApartmentBody)

  // -----------------------------------------------------------------------
  // Permissions

  /** Line 16: only admins and realtors create apartments. */
  predicate CanCreate(caller: Caller) {
    caller.userType == Admin || caller.userType == Realtor
  }

  /** Lines 163-164: only a realtor is kept away, and only from other realtors' apartments. */
  predicate CanRead(caller: Caller, a: Apartment) {
    !(caller.userType == Realtor && a.realtor != caller.id)
  }

  /** Lines 187-188 and 242-243: an admin, or the realtor who owns the apartment. */
  predicate CanManage(caller: Caller, a: Apartment) {
    caller.userType == Admin || (caller.userType == Realtor && a.realtor == caller.id)
  }

  /** Who may change an apartment may read it; a client may read every apartment and change none. */
  lemma PermissionsNested(caller: Caller, a: Apartment)
    ensures CanManage(caller, a) ==> CanRead(caller, a)
    ensures caller.userType == Client ==> CanRead(caller, a) && !CanManage(caller, a) && !CanCreate(caller)
    ensures caller.userType == Admin ==> CanManage(caller, a)
  {
  }

  // -----------------------------------------------------------------------
  // Validation

  /** JavaScript truthiness of an optional number. */
  predicate TruthyNumber(o: Option<real>) {
    o.Some? && o.value != 0.0
  }

  predicate PositiveOk(o: Option<real>) {
    o.Some? ==> o.value > 0.0
  }

  predicate NonNegativeOk(o: Option<real>) {
    o.Some? ==> o.value >= 0.0
  }

  predicate IntegerOk(o: Option<real>) {
    o.Some? ==> IsInteger(o.value)
  }

  predicate WithinOk(o: Option<real>, limit: real) {
    o.Some? ==> -limit <= o.value <= limit
  }

  predicate StateOk(o: Option<string>) {
    o.Some? ==> ParseApartmentState(o.value).Some?
  }

  /** Lines 217-227: every field optional, each within its range when given. */
  predicate ValidPatchBody(b: ApartmentBody) {
    && !b.malformed
    && StringOk(b.name) && StringOk(b.description)
    && PositiveOk(b.size) && PositiveOk(b.price)
    && PositiveOk(b.rooms) && IntegerOk(b.rooms)
    && WithinOk(b.latitude, 90.0) && WithinOk(b.longitude, 180.0)
    && StringOk(b.address) && StateOk(b.state)
  }

  /** Lines 32-42: the same ranges, with every field but the address required. */
  predicate ValidNewBody(b: ApartmentBody) {
    && ValidPatchBody(b)
    && b.name.Some? && b.description.Some? && b.size.Some? && b.price.Some?
    && b.rooms.Some? && b.latitude.Some? && b.longitude.Some? && b.state.Some?
  }

  /** Lines 22-30 and 207-215: a truthy address is geocoded and its coordinates replace the given ones. */
  function Located(b: ApartmentBody, geo: Option<(real, real)>): ApartmentBody {
    if TruthyString(b.address) && geo.Some? then
      b.(latitude := Some(geo.value.0), longitude := Some(geo.value.1))
    else
      b
  }

  /** `Apartment.createApartment(req.user._id, value)` with `createdAt = now`. */
  function NewApartment(id: Id, realtor: Id, b: ApartmentBody, now: int): (a: Apartment)
    requires ValidNewBody(b)
    ensures ValidApartmentValues(a)
    ensures a.id == id && a.realtor == realtor && a.createdAt == now
    ensures Some(a.name) == b.name && Some(a.description) == b.description
    ensures Some(a.size) == b.size && Some(a.price) == b.price && Some(a.rooms) == b.rooms
    ensures Some(a.latitude) == b.latitude && Some(a.longitude) == b.longitude
    ensures a.address.Given? <==> b.address.Some?
    ensures a.address.Given? ==> Some(a.address.text) == b.address
    ensures !a.address.Cleared?
    ensures Some(ApartmentStateName(a.state)) == b.state
  {
    Apartment(id, realtor, b.name.value, b.description.value, b.size.value, b.price.value,
      b.rooms.value, b.latitude.value, b.longitude.value,
      if b.address.Some? then Given(b.address.value) else Unset,
      ParseApartmentState(b.state.value).value, now)
  }

  /**
   * The realtor reference of a document `getApartmentById` returns without
   * `lean()`: a bson ObjectId, which `toObject()` keeps as an object. Only its
   * own keys matter to the filter, and neither of them is `_id` or `email`.
   */
  function RealtorRef(id: Id): (r: Json)
    ensures Composite(r)
  {
    JObj([("_bsontype", JStr("ObjectID")), ("id", JStr(IdText(id)))])
  }

  /**
   * Line 170: `typeof` an ObjectId is "object", so the filter walks into it
   * with the realtor template and keeps none of its keys.
   */
  lemma ReadRealtorShownEmpty(id: Id)
    ensures NarrowRealtor(RealtorRef(id)) == JObj([])
  {
    PickNone(Props(RealtorRef(id)), {"_id", "email"});
  }

  // -----------------------------------------------------------------------
  // createApartment (lines 14-63)

  method CreateApartment(db: Db, caller: Caller, body: ApartmentBody, geo: Option<(real, real)>, now: int)
    returns (r: Response<ApartmentReply>)
    requires db.Valid()
    modifies db
    ensures db.Valid()
    ensures !CanCreate(caller) ==> r == Err(Forbidden, NoPermission)
    ensures CanCreate(caller) && TruthyString(body.address) && geo.None? ==> r == Err(BadRequest, InvalidAddress)
    ensures CanCreate(caller) && !(TruthyString(body.address) && geo.None?) && !ValidNewBody(Located(body, geo)) ==>
      r == Err(BadRequest, InvalidRequest)
    ensures r.Err? ==> unchanged(db)
    ensures r.Ok? <==> CanCreate(caller) && !(TruthyString(body.address) && geo.None?) && ValidNewBody(Located(body, geo))
    ensures r.Ok? ==>
      var a := NewApartment(old(db.nextId), caller.id, Located(body, geo), now);
      && db.apartments == old(db.apartments)[a.id := a]
      && db.users == old(db.users) && db.tokens == old(db.tokens)
      && r.payload == ApartmentShown(ApartmentJson(a, NarrowRealtor(caller.claims)))
  {
    if !CanCreate(caller) {
      return Err(Forbidden, NoPermission);
    }
    var b := body;
    if TruthyString(b.address) {
      if geo.None? {
        return Err(BadRequest, InvalidAddress);
      }
      b := b.(latitude := Some(geo.value.0), longitude := Some(geo.value.1));
    }
    if !ValidNewBody(b) {
      return Err(BadRequest, InvalidRequest);
    }
    var id := db.NewId();
    var a := NewApartment(id, caller.id, b, now);
    PutApartmentKeepsConsistent(db.users, db.apartments, db.nextId, a);
    db.PutApartment(a);
    ShapedApartment(a, caller.claims);
    r := Ok(ApartmentShown(Shape(ApartmentJson(a, caller.claims), ApartmentSpec).value));
  }

  // -----------------------------------------------------------------------
  // listApartments (lines 65-152)

  /** Lines 66-85. */
  predicate ValidListQuery(q: ListQuery) {
    && !q.malformed
    && StateOk(q.state)
    && NonNegativeOk(q.minSize) && PositiveOk(q.maxSize)
    && NonNegativeOk(q.minPrice) && PositiveOk(q.maxPrice)
    && NonNegativeOk(q.minRooms) && IntegerOk(q.minRooms)
    && PositiveOk(q.maxRooms) && IntegerOk(q.maxRooms)
    && PositiveOk(q.pageSize) && IntegerOk(q.pageSize)
    && (q.pageSize.Some? ==> q.pageSize.value <= MaxPageSize as real)
  }

  /** Lines 86-97: both bounds given and the lower one above the upper one. */
  predicate Inverted(lo: Option<real>, hi: Option<real>) {
    lo.Some? && hi.Some? && lo.value > hi.value
  }

  /** Lines 112-131: a bound enters the query only when it is truthy. */
  function RangeFilter(lo: Option<real>, hi: Option<real>): (r: Option<Bounds>)
    ensures r.Some? <==> TruthyNumber(lo) || TruthyNumber(hi)
    ensures r.Some? ==> (r.value.gte.Some? <==> TruthyNumber(lo)) && (r.value.lte.Some? <==> TruthyNumber(hi))
    ensures r.Some? ==> (r.value.gte.Some? ==> r.value.gte == lo) && (r.value.lte.Some? ==> r.value.lte == hi)
  {
    if TruthyNumber(lo) || TruthyNumber(hi) then
      Some(Bounds(if TruthyNumber(lo) then lo else None, if TruthyNumber(hi) then hi else None))
    else
      None
  }

  /** Lines 100-141: the database query and page size. */
  function BuildQuery(caller: Caller, q: ListQuery): (r: ApartmentQuery)
    requires ValidListQuery(q)
    ensures r.realtor.Some? <==> caller.userType == Realtor
    ensures r.realtor.Some? ==> r.realtor.value == caller.id
    ensures caller.userType == Client ==> r.state == Some(Rentable)
    ensures caller.userType != Client ==>
      r.state == (if q.state.Some? then ParseApartmentState(q.state.value) else None)
    ensures r.createdBefore == q.before
    ensures 1 <= r.limit <= MaxPageSize
    ensures r.limit == (if q.pageSize.Some? then q.pageSize.value.Floor else DefaultPageSize)
  {
    ApartmentQuery(
      if caller.userType == Realtor then Some(caller.id) else None,
      if caller.userType == Client then Some(Rentable)
      else if q.state.Some? then ParseApartmentState(q.state.value) else None,
      RangeFilter(q.minSize, q.maxSize),
      RangeFilter(q.minPrice, q.maxPrice),
      RangeFilter(q.minRooms, q.maxRooms),
      q.before,
      if q.pageSize.Some? then q.pageSize.value.Floor else DefaultPageSize)
  }

  predicate InBounds(x: real, b: Option<Bounds>) {
    b.Some? ==>
      (b.value.gte.Some? ==> x >= b.value.gte.value) && (b.value.lte.Some? ==> x <= b.value.lte.value)
  }

  /** Whether the database counts and lists apartment `a` for `query`. */
  predicate Matches(query: ApartmentQuery, a: Apartment) {
    && (query.realtor.Some? ==> a.realtor == query.realtor.value)
    && (query.state.Some? ==> a.state == query.state.value)
    && InBounds(a.size, query.size)
    && InBounds(a.price, query.price)
    && InBounds(a.rooms, query.rooms)
    && (query.createdBefore.Some? ==> a.createdAt < query.createdBefore.value)
  }

  /** The apartments `dbQuery` selects. */
  function MatchIds(apartments: map<Id, Apartment>, query: ApartmentQuery): (ids: set<Id>)
    ensures forall id :: id in ids <==> id in apartments && Matches(query, apartments[id])
  {
    set id | id in apartments && Matches(query, apartments[id])
  }

  /** `Apartment.countApartments(dbQuery)`. */
  function CountMatches(apartments: map<Id, Apartment>, query: ApartmentQuery): (n: nat)
    ensures n <= |apartments|
  {
    var ids := MatchIds(apartments, query);
    SubsetCardinality(ids, apartments.Keys);
    |ids|
  }

  /** The `createdAt` of every stored apartment, the key the list is sorted by. */
  function ApartmentTimes(apartments: map<Id, Apartment>): (r: map<Id, int>)
    ensures r.Keys == apartments.Keys
    ensures forall id :: id in r ==> r[id] == apartments[id].createdAt
  {
    map id | id in apartments :: apartments[id].createdAt
  }

  /** `populate('realtor')` on a lean query: the realtor's whole document, or `null` when it is gone. */
  function PopulatedRealtor(users: map<Id, User>, realtor: Id): Json {
    if realtor in users then UserJson(users[realtor]) else JNull
  }

  /**
   * What APARTMENT_SPEC leaves of a populated realtor: the user's `_id` and,
   * when the user has one, `email`; `null` stays `null`.
   */
  function ListedRealtor(users: map<Id, User>, realtor: Id): (r: Json)
    ensures realtor in users ==>
      r == JObj([("_id", JStr(IdText(users[realtor].id)))] + OptionalString("email", users[realtor].email))
    ensures realtor !in users ==> r == JNull
  {
    if realtor in users then
      ListedRealtorIsNarrow(users[realtor]);
      NarrowRealtor(PopulatedRealtor(users, realtor))
    else
      NarrowRealtor(PopulatedRealtor(users, realtor))
  }

  /** Lines 33-38 of rent-management-api/server/models/apartment.js: the lean documents of a page, realtors populated. */
  function PageRecords(users: map<Id, User>, apartments: map<Id, Apartment>, page: seq<Id>): seq<Json>
    requires forall i :: 0 <= i < |page| ==> page[i] in apartments
  {
    seq(|page|, i requires 0 <= i < |page| => ApartmentJson(apartments[page[i]], PopulatedRealtor(users, apartments[page[i]].realtor)))
  }

  /** The apartments of a page as the reply shows them: every stored field, the realtor narrowed. */
  function ListedApartments(users: map<Id, User>, apartments: map<Id, Apartment>, page: seq<Id>): seq<Json>
    requires forall i :: 0 <= i < |page| ==> page[i] in apartments
  {
    seq(|page|, i requires 0 <= i < |page| => ApartmentJson(apartments[page[i]], ListedRealtor(users, apartments[page[i]].realtor)))
  }

  /** Line 146: `jsonSpec(apartments, [APARTMENT_SPEC])` shows each record of the page, in page order. */
  lemma ShapedPage(users: map<Id, User>, apartments: map<Id, Apartment>, page: seq<Id>)
    requires forall i :: 0 <= i < |page| ==> page[i] in apartments
    ensures Shape(JArr(PageRecords(users, apartments, page)), ArrayOf(ApartmentSpec)) ==
      Some(JArr(ListedApartments(users, apartments, page)))
  {
    var records := PageRecords(users, apartments, page);
    var listed := ListedApartments(users, apartments, page);
    forall i | 0 <= i < |records|
      ensures records[i].JObj? && NoNullInArrays(records[i])
    {
      var a := apartments[page[i]];
      if a.realtor in users {
        UserJsonNoNullInArrays(users[a.realtor]);
      }
      ApartmentJsonNoNullInArrays(a, PopulatedRealtor(users, a.realtor));
    }
    ListShapesEachRecord(records, ApartmentSpec);
    var shown := Shape(JArr(records), ArrayOf(ApartmentSpec)).value;
    forall i | 0 <= i < |page|
      ensures shown.items[i] == listed[i]
    {
      var a := apartments[page[i]];
      ShapedApartment(a, PopulatedRealtor(users, a.realtor));
    }
    assert shown.items == listed;
  }

  /**
   * What a listed apartment satisfies, for each role: a realtor sees only
   * their own apartments, a client only rentable ones, and a bound applies
   * only when it was truthy.
   */
  lemma ListedApartment(caller: Caller, q: ListQuery, a: Apartment)
    requires ValidListQuery(q)
    ensures Matches(BuildQuery(caller, q), a) <==>
      && (caller.userType == Realtor ==> a.realtor == caller.id)
      && (caller.userType == Client ==> a.state == Rentable)
      && (caller.userType != Client && q.state.Some? ==> ApartmentStateName(a.state) == q.state.value)
      && (TruthyNumber(q.minSize) ==> a.size >= q.minSize.value)
      && (TruthyNumber(q.maxSize) ==> a.size <= q.maxSize.value)
      && (TruthyNumber(q.minPrice) ==> a.price >= q.minPrice.value)
      && (TruthyNumber(q.maxPrice) ==> a.price <= q.maxPrice.value)
      && (TruthyNumber(q.minRooms) ==> a.rooms >= q.minRooms.value)
      && (TruthyNumber(q.maxRooms) ==> a.rooms <= q.maxRooms.value)
      && (q.before.Some? ==> a.createdAt < q.before.value)
  {
    var query := BuildQuery(caller, q);
    if caller.userType != Client && q.state.Some? {
      var st := ParseApartmentState(q.state.value).value;
      assert a.state == st <==> ApartmentStateName(a.state) == q.state.value by {
        EnumerationsExact(Client, EmailAuth, a.state);
      }
    }
  }

  /** A zero lower bound is falsy: it builds the same query as no bound at all. */
  lemma ZeroLowerBoundIgnored(caller: Caller, q: ListQuery)
    requires ValidListQuery(q) && q.minSize == Some(0.0)
    ensures ValidListQuery(q.(minSize := None))
    ensures BuildQuery(caller, q) == BuildQuery(caller, q.(minSize := None))
  {
  }

  /** Lines 86-97: no lower bound above its upper bound. */
  predicate RangesOrdered(q: ListQuery) {
    !Inverted(q.minSize, q.maxSize) && !Inverted(q.minPrice, q.maxPrice) && !Inverted(q.minRooms, q.maxRooms)
  }

  /**
   * `page` is the answer of `Apartment.listApartments(dbQuery, limit)`: the
   * newest matches, at most the page size. The reply shapes it with
   * `[APARTMENT_SPEC]`.
   */
  method ListApartments(db: Db, caller: Caller, q: ListQuery, page: seq<Id>) returns (r: Response<ApartmentReply>)
    requires ValidListQuery(q) && RangesOrdered(q) ==>
      var query := BuildQuery(caller, q);
      IsNewestFirstPage(MatchIds(db.apartments, query), ApartmentTimes(db.apartments), query.limit, page)
    ensures !ValidListQuery(q) ==> r == Err(BadRequest, InvalidRequest)
    ensures ValidListQuery(q) && Inverted(q.minSize, q.maxSize) ==>
      r == Err(BadRequest, "minSize must be smaller than or equal to maxSize")
    ensures ValidListQuery(q) && !Inverted(q.minSize, q.maxSize) && Inverted(q.minPrice, q.maxPrice) ==>
      r == Err(BadRequest, "minPrice must be smaller than or equal to maxPrice")
    ensures ValidListQuery(q) && !Inverted(q.minSize, q.maxSize) && !Inverted(q.minPrice, q.maxPrice) ==>
      (Inverted(q.minRooms, q.maxRooms) ==> r == Err(BadRequest, "minRooms must be smaller than or equal to maxRooms"))
    ensures r.Ok? <==> ValidListQuery(q) && RangesOrdered(q)
    ensures r.Ok? ==>
      r.payload == ApartmentPage(CountMatches(db.apartments, BuildQuery(caller, q)), ListedApartments(db.users, db.apartments, page))
  {
    if !ValidListQuery(q) {
      return Err(BadRequest, InvalidRequest);
    }
    if Inverted(q.minSize, q.maxSize) {
      return Err(BadRequest, "minSize must be smaller than or equal to maxSize");
    }
    if Inverted(q.minPrice, q.maxPrice) {
      return Err(BadRequest, "minPrice must be smaller than or equal to maxPrice");
    }
    if Inverted(q.minRooms, q.maxRooms) {
      return Err(BadRequest, "minRooms must be smaller than or equal to maxRooms");
    }
    var query := BuildQuery(caller, q);
    ShapedPage(db.users, db.apartments, page);
    var shown := Shape(JArr(PageRecords(db.users, db.apartments, page)), ArrayOf(ApartmentSpec)).value;
    r := Ok(ApartmentPage(CountMatches(db.apartments, query), shown.items));
  }

  // -----------------------------------------------------------------------
  // getApartment (lines 154-175) and deleteApartment (lines 177-203)

  method GetApartment(db: Db, caller: Caller, apartmentId: Id) returns (r: Response<ApartmentReply>)
    requires db.Valid()
    ensures apartmentId !in db.apartments ==> r == Err(NotFound, NoSuchApartment)
    ensures apartmentId in db.apartments && !CanRead(caller, db.apartments[apartmentId]) ==>
      r == Err(Forbidden, NoPermission)
    ensures r.Ok? <==> apartmentId in db.apartments && CanRead(caller, db.apartments[apartmentId])
    ensures r.Ok? ==>
      var a := db.apartments[apartmentId];
      r.payload == ApartmentShown(ApartmentJson(a, JObj([])))
  {
    if apartmentId !in db.apartments {
      return Err(NotFound, NoSuchApartment);
    }
    var a := db.apartments[apartmentId];
    if caller.userType == Realtor && a.realtor != caller.id {
      return Err(Forbidden, NoPermission);
    }
    ShapedApartment(a, RealtorRef(a.realtor));
    ReadRealtorShownEmpty(a.realtor);
    r := Ok(ApartmentShown(Shape(ApartmentJson(a, RealtorRef(a.realtor)), ApartmentSpec).value));
  }

  method DeleteApartment(db: Db, caller: Caller, apartmentId: Id) returns (r: Response<ApartmentReply>)
    requires db.Valid()
    modifies db
    ensures db.Valid()
    ensures apartmentId !in old(db.apartments) ==> r == Err(NotFound, NoSuchApartment)
    ensures apartmentId in old(db.apartments) && !CanManage(caller, old(db.apartments)[apartmentId]) ==>
      r == Err(Forbidden, NoPermission)
    ensures r.Err? ==> unchanged(db)
    ensures r.Ok? <==> apartmentId in old(db.apartments) && CanManage(caller, old(db.apartments)[apartmentId])
    ensures r.Ok? ==>
      && r.payload == ApartmentDeleted(apartmentId)
      && db.apartments == old(db.apartments) - {apartmentId}
      && db.users == old(db.users) && db.tokens == old(db.tokens) && db.nextId == old(db.nextId)
  {
    if apartmentId !in db.apartments {
      return Err(NotFound, NoSuchApartment);
    }
    var a := db.apartments[apartmentId];
    if !(caller.userType == Admin || (caller.userType == Realtor && a.realtor == caller.id)) {
      return Err(Forbidden, NoPermission);
    }
    db.RemoveApartment(apartmentId);
    r := Ok(ApartmentDeleted(apartmentId));
  }

  // -----------------------------------------------------------------------
  // editApartment (lines 205-269)

  /** The keys of the edit schema, in schema order. */
  const EditableKeys: seq<string> :=
    ["name", "description", "size", "price", "rooms", "latitude", "longitude", "address", "state"]

  /** `apartmentObj[field] = value[field]` for one key, when the validated body holds that key. */
  function CopyKey(e: Apartment, b: ApartmentBody, key: string): Apartment
    requires StateOk(b.state)
  {
    if key == "name" && b.name.Some? then e.(name := b.name.value)
    else if key == "description" && b.description.Some? then e.(description := b.description.value)
    else if key == "size" && b.size.Some? then e.(size := b.size.value)
    else if key == "price" && b.price.Some? then e.(price := b.price.value)
    else if key == "rooms" && b.rooms.Some? then e.(rooms := b.rooms.value)
    else if key == "latitude" && b.latitude.Some? then e.(latitude := b.latitude.value)
    else if key == "longitude" && b.longitude.Some? then e.(longitude := b.longitude.value)
    else if key == "address" && b.address.Some? then e.(address := Given(b.address.value))
    else if key == "state" && b.state.Some? then e.(state := ParseApartmentState(b.state.value).value)
    else e
  }

  /** The apartment once the first `k` schema keys the body holds have been copied onto it. */
  function CopiedUpTo(a: Apartment, b: ApartmentBody, k: nat): Apartment
    requires StateOk(b.state)
  {
    a.(name := if k > 0 then b.name.GetOr(a.name) else a.name,
       description := if k > 1 then b.description.GetOr(a.description) else a.description,
       size := if k > 2 then b.size.GetOr(a.size) else a.size,
       price := if k > 3 then b.price.GetOr(a.price) else a.price,
       rooms := if k > 4 then b.rooms.GetOr(a.rooms) else a.rooms,
       latitude := if k > 5 then b.latitude.GetOr(a.latitude) else a.latitude,
       longitude := if k > 6 then b.longitude.GetOr(a.longitude) else a.longitude,
       address := if k > 7 && b.address.Some? then Given(b.address.value) else a.address,
       state := if k > 8 && b.state.Some? then ParseApartmentState(b.state.value).value else a.state)
  }

  /** Lines 254-257: new coordinates without a truthy address forget the old address. */
  predicate ClearsAddress(b: ApartmentBody) {
    !TruthyString(b.address) && (b.latitude.Some? || b.longitude.Some?)
  }

  /**
   * The stored apartment after an edit, field by field: a field the body
   * holds takes the body's value, any other keeps its old one, and the
   * address is set to `null` when the coordinates move without one.
   */
  function Edited(a: Apartment, b: ApartmentBody): Apartment
    requires StateOk(b.state)
  {
    a.(name := b.name.GetOr(a.name),
       description := b.description.GetOr(a.description),
       size := b.size.GetOr(a.size),
       price := b.price.GetOr(a.price),
       rooms := b.rooms.GetOr(a.rooms),
       latitude := b.latitude.GetOr(a.latitude),
       longitude := b.longitude.GetOr(a.longitude),
       address := if ClearsAddress(b) then Cleared else if b.address.Some? then Given(b.address.value) else a.address,
       state := if b.state.Some? then ParseApartmentState(b.state.value).value else a.state)
  }

  /** Lines 250-257: copy every key the validated body holds, then apply the address rule. */
  method ApplyEdit(a: Apartment, b: ApartmentBody) returns (e: Apartment)
    requires StateOk(b.state)
    ensures e == Edited(a, b)
  {
    e := a;
    for i := 0 to |EditableKeys|
      invariant e == CopiedUpTo(a, b, i)
    {
      e := CopyKey(e, b, EditableKeys[i]);
    }
    if !TruthyString(b.address) && (b.latitude.Some? || b.longitude.Some?) {
      e := e.(address := Cleared);
    }
  }

  /** An edit keeps the owner, id and creation time, and a validated edit keeps the stored ranges. */
  lemma EditKeepsApartmentValid(a: Apartment, b: ApartmentBody)
    requires ValidPatchBody(b)
    ensures Edited(a, b).id == a.id && Edited(a, b).realtor == a.realtor && Edited(a, b).createdAt == a.createdAt
    ensures ValidApartmentValues(a) ==> ValidApartmentValues(Edited(a, b))
    ensures b.address.Some? ==> Edited(a, b).address == Given(b.address.value)
    ensures ClearsAddress(b) ==> Edited(a, b).address == Cleared
    ensures b.address.None? && b.latitude.None? && b.longitude.None? ==> Edited(a, b).address == a.address
  {
  }

  method EditApartment(db: Db, caller: Caller, apartmentId: Id, body: ApartmentBody, geo: Option<(real, real)>)
    returns (r: Response<ApartmentReply>)
    requires db.Valid()
    modifies db
    ensures db.Valid()
    ensures TruthyString(body.address) && geo.None? ==> r == Err(BadRequest, InvalidAddress)
    ensures !(TruthyString(body.address) && geo.None?) && !ValidPatchBody(Located(body, geo)) ==>
      r == Err(BadRequest, InvalidRequest)
    ensures !(TruthyString(body.address) && geo.None?) && ValidPatchBody(Located(body, geo)) ==>
      && (apartmentId !in old(db.apartments) ==> r == Err(NotFound, NoSuchApartment))
      && (apartmentId in old(db.apartments) && !CanManage(caller, old(db.apartments)[apartmentId]) ==>
          r == Err(Forbidden, NoPermission))
    ensures r.Err? ==> unchanged(db)
    ensures r.Ok? <==>
      && !(TruthyString(body.address) && geo.None?) && ValidPatchBody(Located(body, geo))
      && apartmentId in old(db.apartments) && CanManage(caller, old(db.apartments)[apartmentId])
    ensures r.Ok? ==>
      var b := Located(body, geo);
      && db.apartments == old(db.apartments)[apartmentId := Edited(old(db.apartments)[apartmentId], b)]
      && db.users == old(db.users) && db.tokens == old(db.tokens) && db.nextId == old(db.nextId)
      && r.payload == ApartmentUpdated(apartmentId, b)
  {
    var b := body;
    if TruthyString(b.address) {
      if geo.None? {
        return Err(BadRequest, InvalidAddress);
      }
      b := b.(latitude := Some(geo.value.0), longitude := Some(geo.value.1));
    }
    if !ValidPatchBody(b) {
      return Err(BadRequest, InvalidRequest);
    }
    if apartmentId !in db.apartments {
      return Err(NotFound, NoSuchApartment);
    }
    var a := db.apartments[apartmentId];
    if !(caller.userType == Admin || (caller.userType == Realtor && a.realtor == caller.id)) {
      return Err(Forbidden, NoPermission);
    }
    var e := ApplyEdit(a, b);
    EditKeepsApartmentValid(a, b);
    PutApartmentKeepsConsistent(db.users, db.apartments, db.nextId, e);
    db.PutApartment(e);
    r := Ok(ApartmentUpdated(apartmentId, b));
  }
}
