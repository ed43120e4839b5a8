# Rent management: a verified model of the API and the client state

This project models, in Dafny, the core of a rent-management application. Realtors list
apartments, clients browse the rentable ones, and admins manage users. The application has
two halves, and the model covers both.

**The Node.js API** (`rent-management-api`):

- The response-shaping filter `jsonSpec(subject, schema)` keeps only the keys a template lists.
  Module `JsonSpec`.
- The enumerations, the response templates `USER_SPEC` and `APARTMENT_SPEC`, and the page sizes.
  Module `Constants`.
- The stored documents and their public JSON views, the e-mail normalisation, and bcrypt and JWT
  as abstractions. Module `Models`.
- The MongoDB collections as a class `Db`. It has user, apartment and token maps and an id
  counter, and it keeps the invariant that logins are unique per authentication kind.
  Module `Store`.
- The request handlers of the three controllers. Modules `ApartmentController`,
  `UserController` and `AuthController`. Each handler is a method. It takes the store, the
  authenticated caller and the request body after validation, and it returns either the JSON
  reply or a status with an error text. The list handlers also take the page the database
  answers, constrained to be the newest matches of the query. Its contract covers:
  - every error branch, in the order the handler checks them;
  - the exact new contents of the store;
  - the reply.

**The React client's redux reducers** (`react-rent-management/src/redux/reducers`):

- The apartment list and the user list are classes whose methods update the list in place.
  They share `ClientList`, which models JavaScript truthiness, `findIndex`, `splice` with a
  negative start, and `Object.assign`. Modules `ApartmentReducer` and `UserReducer`.
- The UI state reducer is a pure function of state and action. Module `GlobalReducer`.
- The signed-in user, together with the browser storage entry that the sign-in and sign-out
  handlers write. Module `AuthReducer`.

**Cross-cutting properties proved.** These are the ones that tie the parts together:

- The filter is idempotent. A user shaped by `USER_SPEC` never carries the password hash.
- A signed session's claims shape back to the same public user.
- An e-mail account can sign in only after its address is verified, and then it is signed in as
  itself.
- A wrong password is answered exactly like an unknown address.
- Deleting a user deletes the apartments they own.
- The client drops an apartment's address exactly when the server cleared it.
- Every session the API sends keeps the client's token storage in step with its signed-in user.

## Model

| member | source | states |
|---|---|---|
| JsonSpec.Pick | rent-management-api/lib/json-spec/index.js:26-28 | the result holds exactly the subject's entries whose key the template lists, and no more entries than the subject |
| JsonSpec.Shape | rent-management-api/lib/json-spec/index.js:9-39 | a result, when the filter does not throw, is a non-null object or an array |
| JsonSpec.ShapeFieldsResult | rent-management-api/lib/json-spec/index.js:31-37 | the walk over the retained keys succeeds iff every value it recurses into can be filtered; entry i keeps its key and holds the filtered value where the value and template are both objects, else the value unchanged |
| JsonSpec.ShapeFieldsDefinedIff | rent-management-api/lib/json-spec/index.js:31-37 | the walk over the retained keys throws exactly when a value it recurses into throws |
| JsonSpec.ShapeFieldsValues | rent-management-api/lib/json-spec/index.js:31-37 | each retained entry keeps its key and position, and its value is filtered only when line 33's condition holds |
| JsonSpec.ShapeItemsResult | rent-management-api/lib/json-spec/index.js:16-22 | mapping an array succeeds iff every "object" element can be filtered; length and order are kept, and non-objects are returned unchanged |
| JsonSpec.ShapeItemsDefinedIff | rent-management-api/lib/json-spec/index.js:16-22 | the array map throws exactly when an element whose typeof is "object" throws |
| JsonSpec.ShapeItemsValues | rent-management-api/lib/json-spec/index.js:16-22 | element i of the result is the filter of element i, or element i itself when it is not an "object" |
| JsonSpec.PickAll | rent-management-api/lib/json-spec/index.js:26-28 | when every subject key is listed, the pick is the whole subject in its order |
| JsonSpec.PickKeys | rent-management-api/lib/json-spec/index.js:26-28 | a key survives the pick iff it is a subject key and a template key (both directions) |
| JsonSpec.ObjectResultKeys | rent-management-api/lib/json-spec/index.js:25-38 | an object result's keys are the subject keys the template lists, in subject order; template keys the subject lacks are omitted |
| JsonSpec.ObjectResultValues | rent-management-api/lib/json-spec/index.js:30-37 | a retained value is unchanged under a `true` template or when it is not a non-null object, and is the recursive filter of itself otherwise |
| JsonSpec.ArrayResult | rent-management-api/lib/json-spec/index.js:16-22 | an array under `[t]` keeps length and order; "object" elements are filtered with `t`, others copied |
| JsonSpec.NullThrows | rent-management-api/lib/json-spec/index.js:10-13 | a null subject, or a null element of an array walked by an array template, makes the filter throw |
| JsonSpec.ShapeDefined | rent-management-api/lib/json-spec/index.js:9-39 | a non-null subject with no null inside any array never makes the filter throw |
| JsonSpec.ShapeItemsDefined | rent-management-api/lib/json-spec/index.js:16-22 | an array of non-null elements without nested nulls maps without throwing |
| JsonSpec.ShapeFieldsDefined | rent-management-api/lib/json-spec/index.js:31-37 | retained values without nulls inside arrays are walked without throwing |
| JsonSpec.ShapeIdempotent | rent-management-api/lib/json-spec/index.js:9-39 | filtering a filtered value again with the same template gives the same value |
| JsonSpec.ShapeFieldsKeyed | rent-management-api/lib/json-spec/index.js:31-37 | the walk keeps only keys the template lists |
| JsonSpec.ShapeItemsIdempotent | rent-management-api/lib/json-spec/index.js:16-22 | mapping the filter over an already mapped array changes nothing |
| JsonSpec.ShapeFieldsIdempotent | rent-management-api/lib/json-spec/index.js:31-37 | walking already walked entries again changes nothing |
| JsonSpec.ShapeFieldsKeeps | rent-management-api/lib/json-spec/index.js:32-36 | entries whose values the template never walks into are kept as they are |
| JsonSpec.FlatTemplatePicks | rent-management-api/lib/json-spec/index.js:25-38 | a template of `true` leaves only is exactly a pick of the listed keys |
| Constants.ParseUserType | rent-management-api/server/constants.js:1-5 | a role string is accepted iff it is one of the three values, and it reads back as its own spelling |
| Constants.ParseSignUpUserType | rent-management-api/server/controllers/auth.js:66 | sign-up accepts exactly "client" and "realtor", never the admin role |
| Constants.ParseApartmentState | rent-management-api/server/constants.js:42-45 | a state string is accepted iff it is "rentable" or "rented", and it reads back as its own spelling |
| Constants.EnumerationsExact | rent-management-api/server/constants.js:1-11 | three roles, three authentication kinds and two states, each spelled once; distinct kinds have distinct names; every role and state parses back to itself |
| Constants.UserSpecFlat | rent-management-api/server/constants.js:13-22 | USER_SPEC lists exactly the eight public keys, all `true`, and not `hash` |
| Constants.RealtorSpecFlat | rent-management-api/server/constants.js:36-39 | the embedded realtor template lists only `_id` and `email` |
| Constants.ApartmentSpecFacts | rent-management-api/server/constants.js:24-40 | APARTMENT_SPEC keeps eleven fields as they are and narrows `realtor` by its own template |
| Constants.UserSpecHidesHash | rent-management-api/server/constants.js:13-22 | any non-null value shaped by USER_SPEC keeps only public keys and never `hash` |
| Constants.RealtorSpecNarrows | rent-management-api/server/constants.js:36-39 | whatever the realtor holds, only its `_id` and `email` get through |
| Constants.ListShapesEachRecord | rent-management-api/server/controllers/user.js:162 | `jsonSpec(list, [SPEC])` shapes each record of a list exactly as that record alone |
| Models.ToLower | rent-management-api/server/controllers/auth.js:28 | the lowered string has the same length and each character lowered |
| Models.TrimStart | rent-management-api/server/controllers/auth.js:28 | the result is the suffix left after dropping only leading white space |
| Models.TrimEnd | rent-management-api/server/controllers/auth.js:28 | the result is the prefix left after dropping only trailing white space |
| Models.TrimFixed | rent-management-api/server/controllers/auth.js:28 | a string with no white space at either end is left as it is by trim |
| Models.TrimTwice | rent-management-api/server/controllers/auth.js:28 | trimming twice is trimming once |
| Models.NormalizeEmailIdempotent | rent-management-api/server/controllers/user.js:218 | `toLowerCase().trim()` applied twice equals once, so a stored address is found by its own normal form |
| Models.ShapedUserIsPublic | rent-management-api/server/controllers/auth.js:48 | USER_SPEC applied to a stored user yields every field except the hash, unchanged |
| Models.PublicUser | rent-management-api/server/controllers/user.js:53 | the user object the API returns is the USER_SPEC shape of the stored user and holds no `hash` |
| Models.ShapedApartment | rent-management-api/server/controllers/apartment.js:170 | APARTMENT_SPEC keeps every field of a stored apartment and narrows the realtor |
| Models.AddressKeyShown | rent-management-api/server/models/apartment.js:13 | a stored apartment has an `address` key iff an address was ever given or cleared: `null` once an edit cleared it, the text when given, no key when never given |
| Models.ListedRealtorIsNarrow | rent-management-api/server/controllers/apartment.js:146 | a populated realtor is shown with only its `_id` and `email` |
| Models.UserJsonNoNullInArrays | rent-management-api/server/models/user.js:53-57 | a stored user document holds no array with a `null` in it, so the list filter cannot throw on it |
| Models.ApartmentJsonNoNullInArrays | rent-management-api/server/models/apartment.js:33-38 | a listed apartment holds no array with a `null` in it, whether its realtor is populated or `null` |
| Store.ElementsCardinality | rent-management-api/server/models/apartment.js:33-38 | a page has at most as many distinct documents as entries, and exactly as many when no document repeats |
| Store.PageIsEveryMatch | rent-management-api/server/models/apartment.js:33-38 | the newest-first page holds every match exactly when the matches do not exceed the page size |
| Store.PageHoldsNewest | rent-management-api/server/models/apartment.js:33-38 | every listed document was created no earlier than any match the page leaves out |
| Store.StoreKeepsUniqueLogins | rent-management-api/server/models/user.js:34-47 | storing a user whose login no other user of its kind holds keeps logins unique |
| Store.WithoutRealtor | rent-management-api/server/models/apartment.js:42 | exactly the apartments of other realtors remain, unchanged |
| Store.NewEmailUser | rent-management-api/server/controllers/user.js:44-50 | the created account is an e-mail account with the normalised address and a hash the password matches |
| Store.PutUserKeepsConsistent | rent-management-api/server/models/user.js:29-32 | saving a user whose login is free keeps the store consistent |
| Store.SameLoginKeepsConsistent | rent-management-api/server/controllers/auth.js:334-335 | saving a user without changing its login keeps the store consistent |
| Store.RemoveUserKeepsConsistent | rent-management-api/server/controllers/user.js:74-77 | removing a user with their apartments keeps the store consistent |
| Store.PutApartmentKeepsConsistent | rent-management-api/server/models/apartment.js:23-29 | saving a validated apartment keeps the store consistent |
| Store.Db.Login | rent-management-api/server/models/user.js:34-47 | `findOne` by login finds a user iff one of that kind has the login, and then it is that user |
| Store.Db.PutUser | rent-management-api/server/models/user.js:29-32 | the user is stored under its id and nothing else changes |
| Store.Db.PutApartment | rent-management-api/server/models/apartment.js:23-29 | the apartment is stored under its id and nothing else changes |
| Store.Db.RemoveApartment | rent-management-api/server/controllers/apartment.js:195 | only that apartment is removed |
| Store.Db.RemoveUser | rent-management-api/server/controllers/user.js:74-77 | the user and every apartment they own are removed, and tokens are kept |
| Store.Db.PutToken | rent-management-api/server/models/token.js:11-17 | the new token maps to its user and nothing else changes |
| Store.Db.RemoveToken | rent-management-api/server/controllers/auth.js:338 | only that token is removed |
| ApartmentController.PermissionsNested | rent-management-api/server/controllers/apartment.js:163-164 | who may change an apartment may read it; clients read all and change none; admins change all |
| ApartmentController.NewApartment | rent-management-api/server/models/apartment.js:13-29 | the stored apartment holds the body's values, the caller as realtor and the creation time, within the schema ranges; an address not given stays unset, never `null` |
| ApartmentController.CreateApartment | rent-management-api/server/controllers/apartment.js:14-63 | 403 unless admin or realtor, 400 on an address that cannot be located or an invalid body; otherwise the apartment is added under a new id and returned shaped |
| ApartmentController.RangeFilter | rent-management-api/server/controllers/apartment.js:112-131 | a bound enters the query iff it is truthy, and then with the value given |
| ApartmentController.BuildQuery | rent-management-api/server/controllers/apartment.js:100-141 | realtors see only their own, clients only rentable ones, others the requested state; `before` always filters; page size 1..1000, default 25 |
| ApartmentController.CountMatches | rent-management-api/server/models/apartment.js:31 | the count never exceeds the number of stored apartments |
| ApartmentController.ListedApartment | rent-management-api/server/controllers/apartment.js:100-141 | an apartment matches the built query iff it meets each role rule and each truthy bound |
| ApartmentController.ZeroLowerBoundIgnored | rent-management-api/server/controllers/apartment.js:112-117 | a zero lower bound builds the same query as no bound |
| ApartmentController.ListedRealtor | rent-management-api/server/models/apartment.js:35 | a populated realtor is shown as its `_id` and, when present, its `email`; a realtor no longer stored is `null` |
| ApartmentController.ShapedPage | rent-management-api/server/controllers/apartment.js:146 | `[APARTMENT_SPEC]` over the page's lean records gives, in page order, each apartment with every stored field and its realtor narrowed |
| ApartmentController.ListApartments | rent-management-api/server/controllers/apartment.js:65-152 | 400 on an invalid query or an inverted range (size, price, rooms in that order, with their messages); otherwise the match count and the database's newest-first page shaped by `[APARTMENT_SPEC]` |
| ApartmentController.ReadRealtorShownEmpty | rent-management-api/server/controllers/apartment.js:170 | the unpopulated ObjectId realtor is walked into by the filter and shown as `{}` |
| ApartmentController.GetApartment | rent-management-api/server/controllers/apartment.js:154-175 | 404 when absent, 403 for another realtor's apartment, otherwise the apartment with every stored field and `realtor: {}` |
| ApartmentController.DeleteApartment | rent-management-api/server/controllers/apartment.js:177-203 | 404 when absent, 403 unless admin or owner; otherwise exactly that apartment is removed |
| ApartmentController.ApplyEdit | rent-management-api/server/controllers/apartment.js:250-257 | the key-by-key copy followed by the address rule yields `Edited(a, b)` |
| ApartmentController.EditKeepsApartmentValid | rent-management-api/server/controllers/apartment.js:250-257 | an edit keeps id, owner and creation time, keeps the schema ranges, and sets the address, sets it to `null` or keeps it, by the rule |
| ApartmentController.EditApartment | rent-management-api/server/controllers/apartment.js:205-269 | 400 on a bad address or body, 404, 403; otherwise the apartment becomes `Edited` and the validated body is returned |
| UserController.CreateUser | rent-management-api/server/controllers/user.js:15-59 | 400 on an invalid body, 403 unless admin, 400 when the e-mail is taken; otherwise one new e-mail user is added and returned public |
| UserController.GetSelf | rent-management-api/server/controllers/user.js:61-63 | the reply is the caller's token claims |
| UserController.SelfIsPublicUser | rent-management-api/server/controllers/user.js:61-63 | a caller holding a token issued for a user is shown that user's public form, which USER_SPEC leaves as it is and which has no hash |
| UserController.DeleteSelf | rent-management-api/server/controllers/user.js:65-85 | 404 iff the caller is not stored; Ok iff the caller is stored, and then the caller and their apartments are removed |
| UserController.ChangePassword | rent-management-api/server/controllers/user.js:87-126 | 400, 404, 400 for a non-e-mail account, 403 on a wrong current password; otherwise only the hash changes |
| UserController.PasswordChangeTakesEffect | rent-management-api/server/controllers/user.js:111-117 | after a change the new password matches, and the old one only if it is the same text |
| UserController.BuildUserQuery | rent-management-api/server/controllers/user.js:150-157 | `before` filters, and the page size is the given one or 25, within 1..1000 |
| UserController.CountUsers | rent-management-api/server/models/user.js:51 | the count is at most the number of users, and equals it without a date filter |
| UserController.ShapedUserPage | rent-management-api/server/controllers/user.js:162 | `[USER_SPEC]` over the page's lean records gives, in page order, each user's public form without its hash |
| UserController.ListUsers | rent-management-api/server/controllers/user.js:128-168 | 400 on an invalid query, 403 unless admin; otherwise the count and the database's newest-first page shaped by `[USER_SPEC]` |
| UserController.DeleteUser | rent-management-api/server/controllers/user.js:170-201 | 403 unless admin, 404, 400 on deleting oneself; otherwise the user and their apartments are removed |
| UserController.NormalizedPatch | rent-management-api/server/controllers/user.js:217-219 | a given e-mail is normalised and every other field is left alone |
| UserController.ApplyUserEdit | rent-management-api/server/controllers/user.js:236-300 | the guarded changes applied step by step give `EditOutcome` |
| UserController.EditWithCurrentValues | rent-management-api/server/controllers/user.js:236-300 | a patch that repeats the record's values, without a password, is accepted and changes nothing |
| UserController.EditGuards | rent-management-api/server/controllers/user.js:236-300 | an accepted edit never changes id, kind or creation time; provider ids change only on that provider's account; verification and password only on e-mail accounts; an admin never changes their own role or flag |
| UserController.EditRefusalMessages | rent-management-api/server/controllers/user.js:236-300 | a refusal is a 400 naming a taken provider id, a taken e-mail, or an invalid request, each only when that guard failed |
| UserController.EditKeepsConsistent | rent-management-api/server/controllers/user.js:236-303 | an accepted edit keeps logins unique and e-mail accounts well formed |
| UserController.EditUser | rent-management-api/server/controllers/user.js:203-313 | 400, 403, 404, then the edit outcome: either the edited user is stored and returned public, or the guard's error with the store unchanged |
| AuthController.SessionFor | rent-management-api/server/controllers/auth.js:48-55 | the session's user is the public user, the token's claims are that user, and neither has a hash |
| AuthController.SessionClaimsRoundTrip | rent-management-api/server/controllers/auth.js:48-49 | shaping a token's claims by USER_SPEC again gives back the same public user |
| AuthController.SignInEmail | rent-management-api/server/controllers/auth.js:18-60 | 400 on an invalid body, 401 for an unknown address; otherwise the stored account decides (401 wrong password, 403 unverified, session) |
| AuthController.SignInEmailSucceeds | rent-management-api/server/controllers/auth.js:18-60 | sign-in succeeds iff some e-mail account has the normalised address, the password matches and the address is verified |
| AuthController.WrongPasswordLooksLikeUnknownEmail | rent-management-api/server/controllers/auth.js:31-40 | a wrong password gets the same 401 as the same request with that account gone |
| AuthController.SignUpUser | rent-management-api/server/controllers/auth.js:84-90 | the new account is an unverified e-mail account, not an admin, with the normalised address and a matching hash |
| AuthController.SignUpEmail | rent-management-api/server/controllers/auth.js:62-108 | 400 on an invalid body or a taken address with nothing stored; otherwise the user is stored, then the token; a clashing token or unsent mail answers 500 |
| AuthController.SocialSignIn | rent-management-api/server/controllers/auth.js:110-148 | 400, 401 on a rejected provider token, 401 for an unknown provider id; otherwise the session of the account with that id |
| AuthController.SocialUser | rent-management-api/server/controllers/auth.js:180-185 | the new account is of the provider's kind, has the provider's id and e-mail, and has no hash |
| AuthController.SocialSignUp | rent-management-api/server/controllers/auth.js:150-200 | 400, 401, 400 when the provider id is taken; otherwise one new account is stored and signed in |
| AuthController.CheckToken | rent-management-api/server/controllers/auth.js:296-306 | succeeds iff a user was decoded, with a fresh token for the same claims; 401 otherwise |
| AuthController.VerifyEmail | rent-management-api/server/controllers/auth.js:308-346 | 400, 401 for an unknown token, 404 for a missing user; otherwise the user is verified and the token is consumed |
| AuthController.SignUpVerifySignIn | rent-management-api/server/controllers/auth.js:18-108 | after sign-up, sign-in is refused as unverified; after verifying with the token, sign-in opens the new account's session |
| ClientList.Cursor | react-rent-management/src/redux/reducers/apartment.js:21-22 | the cursor is the last item's `createdAt` iff more remain and the last item has one |
| ClientList.FirstIndex | react-rent-management/src/redux/reducers/apartment.js:62-64 | -1 iff no item has the id, otherwise the first index whose item has it |
| ClientList.FindIndex | react-rent-management/src/redux/reducers/user.js:59-61 | the scan returns `FirstIndex` |
| ClientList.SpliceFound | react-rent-management/src/redux/reducers/apartment.js:60-67 | deleting a present id removes exactly that item; the others stay in order and the multiset loses one copy |
| ClientList.SpliceMissing | react-rent-management/src/redux/reducers/apartment.js:62-65 | deleting an absent id drops the last item, and leaves an empty list empty |
| ClientList.Assign | react-rent-management/src/redux/reducers/user.js:50 | the patch's keys take its values and the other keys keep theirs |
| ClientList.Marked | react-rent-management/src/redux/reducers/apartment.js:42 | the record gains `edited: true` and is otherwise the same |
| ApartmentReducer.EditedRecord | react-rent-management/src/redux/reducers/apartment.js:51-56 | the item takes the patch, is marked as edited, and loses its address when the patch moves the pin without one |
| ApartmentReducer.UpdatedJson | rent-management-api/server/controllers/apartment.js:261-264 | the reply's `updated` object holds address and coordinates exactly when the body did |
| ApartmentReducer.ClientFollowsServerAddressRule | react-rent-management/src/redux/reducers/apartment.js:52-56 | the client drops an address iff the server cleared it |
| ApartmentReducer.ApartmentList.constructor | react-rent-management/src/redux/reducers/apartment.js:7-11 | an empty list, count 0, no cursor |
| ApartmentReducer.ApartmentList.ListApartments | react-rent-management/src/redux/reducers/apartment.js:14-26 | the page replaces the list, with its count, query, cursor and remainder |
| ApartmentReducer.ApartmentList.LoadMore | react-rent-management/src/redux/reducers/apartment.js:28-38 | the page is appended and the cursor and remainder come from this page; the count is kept |
| ApartmentReducer.ApartmentList.AddApartment | react-rent-management/src/redux/reducers/apartment.js:40-44 | the created apartment goes first, marked as edited |
| ApartmentReducer.ApartmentList.EditApartment | react-rent-management/src/redux/reducers/apartment.js:46-58 | only the first item with the id changes, to `EditedRecord` |
| ApartmentReducer.ApartmentList.DeleteApartment | react-rent-management/src/redux/reducers/apartment.js:60-67 | the list becomes the splice at the first index with the id |
| ApartmentReducer.ApartmentList.Initialize | react-rent-management/src/redux/reducers/apartment.js:69-72 | the list is reset to its initial state |
| ApartmentReducer.EditTouchesOnlyTarget | react-rent-management/src/redux/reducers/apartment.js:46-58 | an edit keeps the length, the target's id and position, and every other item |
| ApartmentReducer.DeleteOutcome | react-rent-management/src/redux/reducers/apartment.js:60-67 | a listed id removes exactly its item; an unlisted one removes the last item |
| UserReducer.EditedUser | react-rent-management/src/redux/reducers/user.js:50 | the user takes the patch and is marked as edited |
| UserReducer.UserList.constructor | react-rent-management/src/redux/reducers/user.js:7-11 | an empty list, count 0, no cursor |
| UserReducer.UserList.ListUsers | react-rent-management/src/redux/reducers/user.js:14-25 | the page replaces the list, with its count, cursor and remainder |
| UserReducer.UserList.LoadMore | react-rent-management/src/redux/reducers/user.js:27-37 | the page is appended and the cursor and remainder come from this page; the count is kept |
| UserReducer.UserList.AddUser | react-rent-management/src/redux/reducers/user.js:39-43 | the created user goes first, marked as edited; the count is not raised |
| UserReducer.UserList.EditUser | react-rent-management/src/redux/reducers/user.js:45-52 | only the first user with the id changes, to `EditedUser` |
| UserReducer.UserList.DeleteUser | react-rent-management/src/redux/reducers/user.js:54-64 | the count drops by one and the list becomes the splice at the first index with the id |
| UserReducer.UserList.Initialize | react-rent-management/src/redux/reducers/user.js:66-69 | the list is reset to its initial state |
| UserReducer.DeleteKeepsUnloaded | react-rent-management/src/redux/reducers/user.js:54-64 | deleting a listed user keeps the count of users not yet loaded, and adds no item |
| UserReducer.EditTouchesOnlyTarget | react-rent-management/src/redux/reducers/user.js:45-52 | an edit keeps the length, the target's position and every other user |
| GlobalReducer.Reduce | react-rent-management/src/redux/reducers/global.js:15-61 | each action writes only its key or keys and keeps all others; the dialogs open with the given values or close to `{ open: false, id: null }`; other actions change nothing |
| GlobalReducer.SaveClosesApartmentDialog | react-rent-management/src/redux/reducers/global.js:57-58 | a successful apartment save closes the dialog whatever opened it |
| GlobalReducer.SaveClosesUserDialog | react-rent-management/src/redux/reducers/global.js:59-60 | a successful user save closes the dialog whatever opened it |
| GlobalReducer.DialogsIndependent | react-rent-management/src/redux/reducers/global.js:20-50 | an apartment-dialog action leaves the user dialog alone and vice versa, and the two commute |
| GlobalReducer.UpdateStateIdempotent | react-rent-management/src/redux/reducers/global.js:15-18 | merging the same payload twice equals merging it once |
| GlobalReducer.KeysPersist | react-rent-management/src/redux/reducers/global.js:15-50 | no action removes a key of the state |
| AuthReducer.AuthState.constructor | react-rent-management/src/redux/reducers/auth.js:6-8 | nobody is signed in, and storage keeps what it held |
| AuthReducer.AuthState.SignIn | react-rent-management/src/redux/reducers/auth.js:11-17 | the token is stored and the user signed in |
| AuthReducer.AuthState.SignOut | react-rent-management/src/redux/reducers/auth.js:19-25 | the token is removed and the user signed out |
| AuthReducer.AuthState.Dispatch | react-rent-management/src/redux/reducers/auth.js:28-37 | the handler the table names runs, any other action changes nothing, and storage stays in step with the user for issued sessions |
| AuthReducer.HandlerTable | react-rent-management/src/redux/reducers/auth.js:28-37 | the successes that sign in, and the two actions that sign out, listed both ways; no action does both |
| AuthReducer.ServerSessionsAreIssued | rent-management-api/server/controllers/auth.js:296-306 | every session the API sends has the token's claims equal to the user |

## Left out

- Joi validation is reduced to a boolean per body: `malformed` stands for an unknown key, a wrong JSON type, and a bad e-mail or date syntax. A rejection answers the fallback text "Invalid request", because Joi's own detail messages are not modelled.
- JavaScript numbers are modelled as mathematical reals and integers: floating-point rounding is not modelled.
- Document ids are modelled as naturals printed in decimal. Dates are integers. Object key order in the stored documents is fixed by the model, and mongoose's `__v` field is not modelled.
- The database's `find(dbQuery).sort('-createdAt').limit(n)` is not computed: its answer is the `page` argument of the list handlers, constrained by `Store.IsNewestFirstPage`. Which of several matches created at the same moment comes first is left open.
- The realtor ObjectId of a document read without `lean()` is modelled as an object with the stand-in keys `_bsontype` and `id`. Only the fact that neither key is `_id` or `email` matters to the filter.
- JSON objects are sequences of entries, so duplicate keys are not excluded. `Props` of a string gives one index per Unicode scalar value, where JavaScript indexes UTF-16 code units.
- A database or network failure answering 500 is not modelled, except the token clash and the unsent verification mail of `AuthController.SignUpEmail`.
- bcrypt is modelled as an injective function of the password. A JWT is its claims, so signing and verifying cannot fail. The token lifetimes (10 hours for a JWT, 3600 seconds for a verification token) are not modelled.
- `toLowerCase` is modelled for ASCII letters only.
- Geocoding and the Google and Facebook token checks are not modelled: their outcome is a parameter. The same holds for the clock, the random token text and the mail transport.
- Sagas, notifications, routing and the React components are not modelled.
- ApartmentReducer.ApartmentList.AddApartment: aliasing is not modelled. The source's reducers copy the state object but mutate the shared list array (`splice`, `Object.assign`), so the previous state sees the change too. The model treats each list as one mutable field.
- Record key order on the client is not modelled: items are modelled as maps.
- ClientList.Cursor: an item without `createdAt` gives no cursor, where the source stores `undefined`.
- ApartmentReducer.ApartmentList.EditApartment: `find` of an unlisted id makes `Object.assign` throw in the source. The model requires the id to be listed.
- UserReducer.UserList.EditUser: the same precondition, for the same reason.
- ApartmentReducer.ApartmentList.ListApartments: a count above an empty page makes `apartments[-1].createdAt` throw in the source. The model requires a non-empty page in that case. The same holds for `LoadMore` and for `UserReducer.UserList.ListUsers`.
- UserController.CreateUser: because e-mail syntax is not modelled, an address made only of white space is accepted, and it is stored normalised to the empty string.
- The server's `app.js`, the routes and the JWT middleware are not modelled. The caller is given as the decoded claims together with its `_id` and `userType`.
- The client's `constants.js` and its action creators are not modelled.
