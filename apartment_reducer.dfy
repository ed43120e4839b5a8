/**
 * The client's apartment list (react-rent-management/src/redux/reducers/apartment.js):
 * the loaded page(s), the server's count, the `before` cursor for the next
 * page, and the in-place updates that follow a successful add, edit or
 * delete.
 */
module ApartmentReducer {
  import opened Wrappers
  import opened JsonSpec
  import opened Models
  import opened ClientList
  import ApartmentController

  /** Lines 52-56: a patch without a truthy address that moves the pin drops the stored address. */
  predicate DropsAddress(updated: Record) {
    !TruthyField(updated, "address") && ("latitude" in updated || "longitude" in updated)
  }

  /** Lines 51-56: the item after `Object.assign(item, updated, { edited: true })` and the address rule. */
  function EditedRecord(item: Record, updated: Record): (e: Record)
    ensures e.Keys == item.Keys + updated.Keys + {"edited"} + (if DropsAddress(updated) then {"address"} else {})
    ensures e["edited"] == JBool(true)
    ensures DropsAddress(updated) ==> e["address"] == JNull
    ensures forall k :: k in updated && k != "edited" && !(k == "address" && DropsAddress(updated)) ==>
      e[k] == updated[k]
    ensures forall k :: k in item && k !in updated && k != "edited" && !(k == "address" && DropsAddress(updated)) ==>
      e[k] == item[k]
  {
    var merged := Marked(Assign(item, updated));
    if DropsAddress(updated) then merged["address" := JNull] else merged
  }

  /** The JSON value the body holds under `key`, if any. */
  function BodyValue(b: ApartmentController.ApartmentBody, key: string): Option<Json> {
    if key == "name" then (if b.name.Some? then Some(JStr(b.name.value)) else None)
    else if key == "description" then (if b.description.Some? then Some(JStr(b.description.value)) else None)
    else if key == "size" then (if b.size.Some? then Some(JNum(b.size.value)) else None)
    else if key == "price" then (if b.price.Some? then Some(JNum(b.price.value)) else None)
    else if key == "rooms" then (if b.rooms.Some? then Some(JNum(b.rooms.value)) else None)
    else if key == "latitude" then (if b.latitude.Some? then Some(JNum(b.latitude.value)) else None)
    else if key == "longitude" then (if b.longitude.Some? then Some(JNum(b.longitude.value)) else None)
    else if key == "address" then (if b.address.Some? then Some(JStr(b.address.value)) else None)
    else if key == "state" then (if b.state.Some? then Some(JStr(b.state.value)) else None)
    else None
  }

  /** The `updated` object the API answers a successful edit with: the fields the validated body holds. */
  function UpdatedJson(b: ApartmentController.ApartmentBody): (r: Record)
    ensures "address" in r <==> b.address.Some?
    ensures "latitude" in r <==> b.latitude.Some?
    ensures "longitude" in r <==> b.longitude.Some?
    ensures b.address.Some? ==> r["address"] == JStr(b.address.value)
  {
    assert ApartmentController.EditableKeys[5] == "latitude";
    assert ApartmentController.EditableKeys[6] == "longitude";
    assert ApartmentController.EditableKeys[7] == "address";
    map k | k in ApartmentController.EditableKeys && BodyValue(b, k).Some? :: BodyValue(b, k).value
  }

  /** The list drops an item's address exactly when the server cleared the stored one. */
  lemma ClientFollowsServerAddressRule(b: ApartmentController.ApartmentBody)
    ensures DropsAddress(UpdatedJson(b)) <==> ApartmentController.ClearsAddress(b)
  {
    var u := UpdatedJson(b);
    assert TruthyField(u, "address") <==> TruthyString(b.address);
  }

  class ApartmentList {
    var apartments: seq<Record>
    var totalCounts: int
    /** `null` while no further page exists. */
    var before: Option<Json>
    /** How many matching apartments the last page left out; absent before the first page. */
    var loadMore: Option<int>
    /** The filter of the last listing; absent before the first page. */
    var queryParams: Option<Json>

    /** Lines 7-11. */
    constructor ()
      ensures apartments == [] && totalCounts == 0 && before == None
      ensures loadMore == None && queryParams == None
    {
      apartments := [];
      totalCounts := 0;
      before := None;
      loadMore := None;
      queryParams := None;
    }

    /**
     * Lines 14-26: replace the list by the first page. When the count
     * exceeds the page, the page is not empty (`apartments[-1].createdAt`
     * would throw otherwise).
     */
    method ListApartments(page: seq<Record>, count: int, query: Json)
      requires count > |page| ==> |page| > 0
      modifies this
      ensures apartments == page && totalCounts == count && queryParams == Some(query)
      ensures before == Cursor(page, count) && loadMore == Some(count - |page|)
    {
      apartments := page;
      totalCounts := count;
      queryParams := Some(query);
      before := Cursor(page, count);
      loadMore := Some(count - |page|);
    }

    /**
     * Lines 28-38: append the next page; the cursor and the remainder come
     * from this page alone, and `totalCounts` keeps the first listing's count.
     */
    method LoadMore(page: seq<Record>, count: int)
      requires count > |page| ==> |page| > 0
      modifies this
      ensures apartments == old(apartments) + page
      ensures before == Cursor(page, count) && loadMore == Some(count - |page|)
      ensures totalCounts == old(totalCounts) && queryParams == old(queryParams)
    {
      before := Cursor(page, count);
      loadMore := Some(count - |page|);
      apartments := apartments + page;
    }

    /** Lines 40-44: the created apartment goes first, marked as edited. */
    method AddApartment(created: Record)
      modifies this
      ensures apartments == [Marked(created)] + old(apartments)
      ensures totalCounts == old(totalCounts) && before == old(before)
      ensures loadMore == old(loadMore) && queryParams == old(queryParams)
    {
      apartments := [Marked(created)] + apartments;
    }

    /**
     * Lines 46-58: the first item with the edited id takes the patch. The
     * item must be in the list: `Object.assign(undefined, …)` throws.
     */
    method EditApartment(apartmentId: string, updated: Record)
      requires FirstIndex(apartments, apartmentId) >= 0
      modifies this
      ensures var i := FirstIndex(old(apartments), apartmentId);
        apartments == old(apartments)[i := EditedRecord(old(apartments)[i], updated)]
      ensures totalCounts == old(totalCounts) && before == old(before)
      ensures loadMore == old(loadMore) && queryParams == old(queryParams)
    {
      var i := FindIndex(apartments, apartmentId);
      var item := Marked(Assign(apartments[i], updated));
      if !TruthyField(updated, "address") && ("latitude" in updated || "longitude" in updated) {
        item := item["address" := JNull];
      }
      apartments := apartments[i := item];
    }

    /**
     * Lines 60-67: `splice` at the first index with the id; an id not in the
     * list gives index -1, which removes the last item.
     */
    method DeleteApartment(apartmentId: string)
      modifies this
      ensures apartments == SpliceOne(old(apartments), FirstIndex(old(apartments), apartmentId))
      ensures totalCounts == old(totalCounts) && before == old(before)
      ensures loadMore == old(loadMore) && queryParams == old(queryParams)
    {
      var i := FindIndex(apartments, apartmentId);
      apartments := SpliceOne(apartments, i);
    }

    /** Lines 69-72 and 81: signing out resets the list to the initial state. */
    method Initialize()
      modifies this
      ensures apartments == [] && totalCounts == 0 && before == None
      ensures loadMore == None && queryParams == None
    {
      apartments := [];
      totalCounts := 0;
      before := None;
      loadMore := None;
      queryParams := None;
    }
  }

  /** An edit changes only the targeted item, and the targeted item keeps its id unless the patch sets one. */
  lemma EditTouchesOnlyTarget(items: seq<Record>, apartmentId: string, updated: Record)
    requires FirstIndex(items, apartmentId) >= 0 && "_id" !in updated
    ensures var i := FirstIndex(items, apartmentId);
      var after := items[i := EditedRecord(items[i], updated)];
      && |after| == |items|
      && HasId(after[i], apartmentId)
      && FirstIndex(after, apartmentId) == i
      && forall k :: 0 <= k < |items| && k != i ==> after[k] == items[k]
  {
    var i := FirstIndex(items, apartmentId);
    var after := items[i := EditedRecord(items[i], updated)];
    assert HasId(after[i], apartmentId);
    assert forall k :: 0 <= k < i ==> after[k] == items[k];
  }

  /** Deleting a listed apartment removes exactly that entry; deleting an unlisted one drops the last entry. */
  lemma DeleteOutcome(items: seq<Record>, apartmentId: string)
    ensures var i := FirstIndex(items, apartmentId);
      i >= 0 ==> SpliceOne(items, i) == items[..i] + items[i + 1..]
    ensures FirstIndex(items, apartmentId) == -1 && items != [] ==>
      SpliceOne(items, FirstIndex(items, apartmentId)) == items[..|items| - 1]
  {
    var i := FirstIndex(items, apartmentId);
    if i >= 0 {
      SpliceFound(items, apartmentId);
    } else {
      SpliceMissing(items, apartmentId);
    }
  }
}
