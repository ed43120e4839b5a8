/**
 * The three collections the controllers read and write (users, apartments,
 * e-mail verification tokens), held in memory, with the lookups of
 * rent-management-api/server/models/ and the invariant every handler keeps.
 */
module Store {
  import opened Wrappers
  import opened Constants
  import opened Models

  /** `Joi.number().integer()`. */
  predicate IsInteger(x: real) {
    x.Floor as real == x
  }

  /** What the apartment schemas let through: non-empty strings, positive sizes, coordinates in range. */
  predicate ValidApartmentValues(a: Apartment) {
    && a.name != "" && a.description != ""
    && a.size > 0.0 && a.price > 0.0
    && a.rooms > 0.0 && IsInteger(a.rooms)
    && -90.0 <= a.latitude <= 90.0 && -180.0 <= a.longitude <= 180.0
    && (a.address.Given? ==> a.address.text != "")
  }

  /** No two users of one authentication kind share their login identity. */
  predicate UniqueLogins(users: map<Id, User>) {
    forall i, j ::
      (i in users && j in users && users[i].authType == users[j].authType &&
       LoginId(users[i]).Some? && LoginId(users[i]) == LoginId(users[j])) ==> i == j
  }

  /** Whether a user of kind `auth` has login identity `key`. */
  predicate LoginTaken(users: map<Id, User>, auth: AuthType, key: string) {
    exists id :: id in users && IsLogin(users[id], auth, key)
  }

  /**
   * Storing `u` keeps logins unique when no other user of its kind holds
   * its login identity; this covers both a new user and an edited one.
   */
  lemma StoreKeepsUniqueLogins(users: map<Id, User>, u: User)
    requires UniqueLogins(users)
    requires LoginId(u).Some? ==> forall id :: id in users && id != u.id ==> !IsLogin(users[id], u.authType, LoginId(u).value)
    ensures UniqueLogins(users[u.id := u])
  {
  }

  /** An e-mail account has a normalised address and a password hash. */
  predicate EmailAccount(u: User) {
    u.email.Some? && IsNormalizedEmail(u.email.value) && u.hash.Some?
  }

  /** `Apartment.deleteApartments(realtor)`: the apartments that do not belong to `realtor`. */
  function WithoutRealtor(apartments: map<Id, Apartment>, realtor: Id): (r: map<Id, Apartment>)
    ensures forall id :: id in r <==> id in apartments && apartments[id].realtor != realtor
    ensures forall id :: id in r ==> r[id] == apartments[id]
  {
    map id | id in apartments && apartments[id].realtor != realtor :: apartments[id]
  }

  /** A count of matching documents never exceeds the collection's size. */
  lemma {:induction false} SubsetCardinality<T>(a: set<T>, b: set<T>)
    requires a <= b
    ensures |a| <= |b|
  {
    if a != {} {
      var x :| x in a;
      SubsetCardinality(a - {x}, b - {x});
    }
  }

  // -----------------------------------------------------------------------
  // A page of `find(dbQuery).sort('-createdAt').limit(limit)`

  /**
   * Whether `page` is what the database may answer for the documents
   * `matches`, created at `created[id]`: `min(limit, |matches|)` distinct
   * matches, newest first, none left out that is newer than the last one
   * listed. Documents created at the same time may come in any order.
   */
  predicate IsNewestFirstPage(matches: set<Id>, created: map<Id, int>, limit: int, page: seq<Id>) {
    && matches <= created.Keys
    && |page| == (if limit < |matches| then limit else |matches|)
    && (forall i :: 0 <= i < |page| ==> page[i] in matches)
    && (forall i, j :: 0 <= i < j < |page| ==> page[i] != page[j])
    && (forall i, j :: 0 <= i < j < |page| ==> created[page[j]] <= created[page[i]])
    && (forall id :: id in matches && id !in page ==> 0 < |page| && created[id] <= created[page[|page| - 1]])
  }

  function Elements(page: seq<Id>): (r: set<Id>)
    ensures forall id :: id in r <==> id in page
  {
    set id | id in page
  }

  /** A sequence has at most as many distinct elements as entries, and exactly as many when no entry repeats. */
  lemma {:induction false} ElementsCardinality(page: seq<Id>)
    ensures |Elements(page)| <= |page|
    ensures (forall i, j :: 0 <= i < j < |page| ==> page[i] != page[j]) ==> |Elements(page)| == |page|
  {
    if page != [] {
      var rest := page[1..];
      ElementsCardinality(rest);
      assert Elements(page) == {page[0]} + Elements(rest);
      if forall i, j :: 0 <= i < j < |page| ==> page[i] != page[j] {
        assert forall i, j :: 0 <= i < j < |rest| ==> rest[i] != rest[j] by {
          forall i, j | 0 <= i < j < |rest|
            ensures rest[i] != rest[j]
          {
            assert rest[i] == page[i + 1] && rest[j] == page[j + 1];
          }
        }
        assert page[0] !in Elements(rest) by {
          forall k | 0 <= k < |rest|
            ensures rest[k] != page[0]
          {
            assert rest[k] == page[k + 1];
          }
        }
      }
    }
  }

  /** A subset as large as its superset is the whole superset. */
  lemma SubsetOfSameSize<T>(a: set<T>, b: set<T>)
    requires a <= b && |b| <= |a|
    ensures a == b
  {
    if x :| x in b && x !in a {
      SubsetCardinality(a, b - {x});
    }
  }

  /** The page lists every match exactly when there are no more matches than the page size. */
  lemma PageIsEveryMatch(matches: set<Id>, created: map<Id, int>, limit: int, page: seq<Id>)
    requires IsNewestFirstPage(matches, created, limit, page)
    ensures |matches| <= limit <==> Elements(page) == matches
  {
    ElementsCardinality(page);
    assert Elements(page) <= matches;
    if |matches| <= limit {
      SubsetOfSameSize(Elements(page), matches);
    }
  }

  /** Every listed document is at least as new as every match the page leaves out. */
  lemma PageHoldsNewest(matches: set<Id>, created: map<Id, int>, limit: int, page: seq<Id>)
    requires IsNewestFirstPage(matches, created, limit, page)
    ensures forall i, id :: 0 <= i < |page| && id in matches && id !in page ==> created[id] <= created[page[i]]
  {
    forall i, id | 0 <= i < |page| && id in matches && id !in page
      ensures created[id] <= created[page[i]]
    {
      if i < |page| - 1 {
        assert created[page[|page| - 1]] <= created[page[i]];
      }
    }
  }

  /** The e-mail account `User.createUser` stores for a validated body. */
  function NewEmailUser(id: Id, email: string, emailVerified: bool, password: string, userType: UserType, now: int): (u: User)
    ensures EmailAccount(u) && u.authType == EmailAuth && LoginId(u) == Some(NormalizeEmail(email))
    ensures PasswordMatches(password, u.hash) && u.id == id && u.createdAt == now
  {
    NormalizeEmailIdempotent(email);
    User(id, None, None, Some(NormalizeEmail(email)), emailVerified, Some(Bcrypt(password)), userType, EmailAuth, now)
  }

  /**
   * What every handler keeps: documents are stored under their own ids, all
   * below the next id; stored apartments passed validation; logins are
   * unique; e-mail accounts are well formed.
   */
  ghost predicate Consistent(users: map<Id, User>, apartments: map<Id, Apartment>, nextId: Id) {
    && (forall id :: id in users ==> users[id].id == id && id < nextId)
    && (forall id :: id in apartments ==> apartments[id].id == id && id < nextId)
    && (forall id :: id in apartments ==> ValidApartmentValues(apartments[id]))
    && UniqueLogins(users)
    && (forall id :: id in users && users[id].authType == EmailAuth ==> EmailAccount(users[id]))
  }

  /** Storing a new or changed user keeps the store consistent when no other user of its kind holds its login. */
  lemma PutUserKeepsConsistent(users: map<Id, User>, apartments: map<Id, Apartment>, nextId: Id, u: User)
    requires Consistent(users, apartments, nextId)
    requires u.id < nextId && (u.authType == EmailAuth ==> EmailAccount(u))
    requires LoginId(u).Some? ==> forall id :: id in users && id != u.id ==> !IsLogin(users[id], u.authType, LoginId(u).value)
    ensures Consistent(users[u.id := u], apartments, nextId)
  {
    StoreKeepsUniqueLogins(users, u);
  }

  /** Changing a stored user without touching its login identity keeps the store consistent. */
  lemma SameLoginKeepsConsistent(users: map<Id, User>, apartments: map<Id, Apartment>, nextId: Id, u: User)
    requires Consistent(users, apartments, nextId) && u.id in users
    requires u.authType == users[u.id].authType && LoginId(u) == LoginId(users[u.id])
    requires u.authType == EmailAuth ==> EmailAccount(u)
    ensures Consistent(users[u.id := u], apartments, nextId)
  {
    PutUserKeepsConsistent(users, apartments, nextId, u);
  }

  /** Removing a user together with every apartment they own keeps the store consistent. */
  lemma RemoveUserKeepsConsistent(users: map<Id, User>, apartments: map<Id, Apartment>, nextId: Id, userId: Id)
    requires Consistent(users, apartments, nextId)
    ensures Consistent(users - {userId}, WithoutRealtor(apartments, userId), nextId)
  {
  }

  /** Storing a validated apartment under an id already handed out keeps the store consistent. */
  lemma PutApartmentKeepsConsistent(users: map<Id, User>, apartments: map<Id, Apartment>, nextId: Id, a: Apartment)
    requires Consistent(users, apartments, nextId)
    requires a.id < nextId && ValidApartmentValues(a)
    ensures Consistent(users, apartments[a.id := a], nextId)
  {
  }

  class Db {
    var users: map<Id, User>
    var apartments: map<Id, Apartment>
    /** `Token` documents: the random token text and the id of the user it verifies. */
    var tokens: map<string, Id>
    /** Ids handed out so far are all below `nextId`. */
    var nextId: Id

    ghost predicate Valid()
      reads this
    {
      Consistent(users, apartments, nextId)
    }

    constructor ()
      ensures Valid()
      ensures users == map[] && apartments == map[] && tokens == map[]
    {
      users := map[];
      apartments := map[];
      tokens := map[];
      nextId := 0;
    }

    /**
     * `User.getEmailUserByEmail`, `User.getGoogleUserById`,
     * `User.getFacebookUserById`: the one user of kind `auth` with identity `key`.
     */
    function Login(auth: AuthType, key: string): (r: Option<Id>)
      reads this
      requires UniqueLogins(users)
      ensures r.Some? <==> LoginTaken(users, auth, key)
      ensures r.Some? ==> r.value in users && IsLogin(users[r.value], auth, key)
      ensures forall id :: id in users && IsLogin(users[id], auth, key) ==> r == Some(id)
    {
      if LoginTaken(users, auth, key) then
        var id :| id in users && IsLogin(users[id], auth, key);
        Some(id)
      else
        None
    }

    /** `user.save()`: store a new or changed user, when the store stays consistent with it. */
    method PutUser(u: User)
      requires Valid() && Consistent(users[u.id := u], apartments, nextId)
      modifies this
      ensures users == old(users)[u.id := u]
      ensures apartments == old(apartments) && tokens == old(tokens) && nextId == old(nextId)
      ensures Valid()
    {
      users := users[u.id := u];
    }

    /** `apartment.save()`: store a new or changed apartment, when the store stays consistent with it. */
    method PutApartment(a: Apartment)
      requires Valid() && Consistent(users, apartments[a.id := a], nextId)
      modifies this
      ensures apartments == old(apartments)[a.id := a]
      ensures users == old(users) && tokens == old(tokens) && nextId == old(nextId)
      ensures Valid()
    {
      apartments := apartments[a.id := a];
    }

    /** `apartment.remove()`. */
    method RemoveApartment(id: Id)
      requires Valid()
      modifies this
      ensures apartments == old(apartments) - {id}
      ensures users == old(users) && tokens == old(tokens) && nextId == old(nextId)
      ensures Valid()
    {
      apartments := apartments - {id};
    }

    /** `Apartment.deleteApartments(userId)` then `user.remove()`. */
    method RemoveUser(userId: Id)
      requires Valid()
      modifies this
      ensures users == old(users) - {userId}
      ensures apartments == WithoutRealtor(old(apartments), userId)
      ensures tokens == old(tokens) && nextId == old(nextId)
      ensures Valid()
    {
      RemoveUserKeepsConsistent(users, apartments, nextId, userId);
      apartments := WithoutRealtor(apartments, userId);
      users := users - {userId};
    }

    /** `Token.createToken(userId)` with the given random text; the text is unique in the collection. */
    method PutToken(token: string, userId: Id)
      requires Valid() && token !in tokens
      modifies this
      ensures tokens == old(tokens)[token := userId]
      ensures users == old(users) && apartments == old(apartments) && nextId == old(nextId)
      ensures Valid()
    {
      tokens := tokens[token := userId];
    }

    /** `tokenObj.remove()`. */
    method RemoveToken(token: string)
      requires Valid()
      modifies this
      ensures tokens == old(tokens) - {token}
      ensures users == old(users) && apartments == old(apartments) && nextId == old(nextId)
      ensures Valid()
    {
      tokens := tokens - {token};
    }

    /** A fresh document id. */
    method NewId() returns (id: Id)
      requires Valid()
      modifies this
      ensures id == old(nextId) && nextId == id + 1
      ensures id !in users && id !in apartments
      ensures users == old(users) && apartments == old(apartments) && tokens == old(tokens)
      ensures Valid()
    {
      id := nextId;
      nextId := nextId + 1;
    }
  }
}
