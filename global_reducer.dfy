/**
 * The client's UI state (react-rent-management/src/redux/reducers/global.js):
 * a status object and the two edit dialogs, one for apartments and one for
 * users. The reducer is a pure function of the state and the action; the
 * state is its top-level keys and values.
 */
module GlobalReducer {
  import opened JsonSpec
  import opened ClientList

  type State = map<string, Json>

  /** Lines 8-12. */
  const Initial: State := map["status" := JObj([]), "editApartment" := JObj([]), "editUser" := JObj([])]

  /** The actions the handler table (lines 53-61) names, and any other action. */
  datatype Action =
    | UpdateState(payload: map<string, Json>)
    | OpenEditApartment(open: Json, apartmentId: Json)
    | OpenEditUser(open: Json, userId: Json)
    | EditApartmentSucceeded
    | AddApartmentSucceeded
    | EditUserSucceeded
    | AddUserSucceeded
    | Unhandled

  /** A dialog's state: whether it is open and which document it edits. */
  function Dialog(open: Json, idKey: string, id: Json): Json {
    JObj([("open", open), (idKey, id)])
  }

  const ClosedApartmentDialog: Json := Dialog(JBool(false), "apartmentId", JNull)
  const ClosedUserDialog: Json := Dialog(JBool(false), "userId", JNull)

  /** Whether an action is handled by closing the apartment dialog (lines 57-58). */
  predicate ClosesApartmentDialog(a: Action) {
    a.EditApartmentSucceeded? || a.AddApartmentSucceeded?
  }

  /** Whether an action is handled by closing the user dialog (lines 59-60). */
  predicate ClosesUserDialog(a: Action) {
    a.EditUserSucceeded? || a.AddUserSucceeded?
  }

  /** The key an action writes besides `UpdateState`'s payload keys. */
  function DialogKey(a: Action): string
    requires a.OpenEditApartment? || a.OpenEditUser? || ClosesApartmentDialog(a) || ClosesUserDialog(a)
  {
    if a.OpenEditApartment? || ClosesApartmentDialog(a) then "editApartment" else "editUser"
  }

  /**
   * `createReducer(initialState, handlers)` for one action: the handler the
   * table names, or the state unchanged for any other action.
   */
  function Reduce(state: State, a: Action): (r: State)
    ensures a.UpdateState? ==>
      && r.Keys == state.Keys + a.payload.Keys
      && (forall k :: k in a.payload ==> r[k] == a.payload[k])
      && (forall k :: k in state && k !in a.payload ==> r[k] == state[k])
    ensures (a.OpenEditApartment? || a.OpenEditUser? || ClosesApartmentDialog(a) || ClosesUserDialog(a)) ==>
      && r.Keys == state.Keys + {DialogKey(a)}
      && (forall k :: k in state && k != DialogKey(a) ==> r[k] == state[k])
    ensures a.OpenEditApartment? ==> r["editApartment"] == Dialog(a.open, "apartmentId", a.apartmentId)
    ensures a.OpenEditUser? ==> r["editUser"] == Dialog(a.open, "userId", a.userId)
    ensures ClosesApartmentDialog(a) ==> r["editApartment"] == ClosedApartmentDialog
    ensures ClosesUserDialog(a) ==> r["editUser"] == ClosedUserDialog
    ensures a.Unhandled? ==> r == state
  {
    match a
    case UpdateState(payload) => Assign(state, payload)
    case OpenEditApartment(open, apartmentId) => state["editApartment" := Dialog(open, "apartmentId", apartmentId)]
    case OpenEditUser(open, userId) => state["editUser" := Dialog(open, "userId", userId)]
    case EditApartmentSucceeded => state["editApartment" := ClosedApartmentDialog]
    case AddApartmentSucceeded => state["editApartment" := ClosedApartmentDialog]
    case EditUserSucceeded => state["editUser" := ClosedUserDialog]
    case AddUserSucceeded => state["editUser" := ClosedUserDialog]
    case Unhandled => state
  }

  /** A successful save closes the apartment dialog whatever opened it before. */
  lemma SaveClosesApartmentDialog(state: State, open: Json, apartmentId: Json, saved: Action)
    requires ClosesApartmentDialog(saved)
    ensures Reduce(Reduce(state, OpenEditApartment(open, apartmentId)), saved) == Reduce(state, saved)
  {
    var shown := Reduce(state, OpenEditApartment(open, apartmentId));
    assert Reduce(shown, saved).Keys == Reduce(state, saved).Keys;
  }

  /** A successful save closes the user dialog whatever opened it before. */
  lemma SaveClosesUserDialog(state: State, open: Json, userId: Json, saved: Action)
    requires ClosesUserDialog(saved)
    ensures Reduce(Reduce(state, OpenEditUser(open, userId)), saved) == Reduce(state, saved)
  {
    var shown := Reduce(state, OpenEditUser(open, userId));
    assert Reduce(shown, saved).Keys == Reduce(state, saved).Keys;
  }

  /** The two dialogs are independent: acting on one leaves the other as it was. */
  lemma DialogsIndependent(state: State, a: Action, b: Action)
    requires a.OpenEditApartment? || ClosesApartmentDialog(a)
    requires b.OpenEditUser? || ClosesUserDialog(b)
    ensures "editUser" in state ==> Reduce(state, a)["editUser"] == state["editUser"]
    ensures "editApartment" in state ==> Reduce(state, b)["editApartment"] == state["editApartment"]
    ensures Reduce(Reduce(state, b), a) == Reduce(Reduce(state, a), b)
  {
    var x := if a.OpenEditApartment? then Dialog(a.open, "apartmentId", a.apartmentId) else ClosedApartmentDialog;
    var y := if b.OpenEditUser? then Dialog(b.open, "userId", b.userId) else ClosedUserDialog;
    forall s: State ensures Reduce(s, a) == s["editApartment" := x] && Reduce(s, b) == s["editUser" := y] {
    }
    assert state["editUser" := y]["editApartment" := x] == state["editApartment" := x]["editUser" := y];
  }

  /** Merging the same payload twice is merging it once. */
  lemma UpdateStateIdempotent(state: State, payload: map<string, Json>)
    ensures Reduce(Reduce(state, UpdateState(payload)), UpdateState(payload)) == Reduce(state, UpdateState(payload))
  {
    var once := Reduce(state, UpdateState(payload));
    assert Reduce(once, UpdateState(payload)).Keys == once.Keys;
  }

  /** Every key of the initial state survives every action. */
  lemma KeysPersist(state: State, a: Action)
    ensures state.Keys <= Reduce(state, a).Keys
  {
  }
}
