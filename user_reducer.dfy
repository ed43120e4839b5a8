/**
 * The client's user list (react-rent-management/src/redux/reducers/user.js):
 * the same paging as the apartment list, with the server's count lowered
 * on every delete.
 */
module UserReducer {
  import opened Wrappers
  import opened JsonSpec
  import opened ClientList

  /** Line 50: the item after `Object.assign(item, updated, { edited: true })`. */
  function EditedUser(item: Record, updated: Record): (e: Record)
    ensures e.Keys == item.Keys + updated.Keys + {"edited"}
    ensures e["edited"] == JBool(true)
    ensures forall k :: k in updated && k != "edited" ==> e[k] == updated[k]
    ensures forall k :: k in item && k !in updated && k != "edited" ==> e[k] == item[k]
  {
    Marked(Assign(item, updated))
  }

  class UserList {
    var users: seq<Record>
    var totalCounts: int
    /** `null` while no further page exists. */
    var before: Option<Json>
    /** How many matching users the last page left out; absent before the first page. */
    var loadMore: Option<int>

    /** Lines 7-11. */
    constructor ()
      ensures users == [] && totalCounts == 0 && before == None && loadMore == None
    {
      users := [];
      totalCounts := 0;
      before := None;
      loadMore := None;
    }

    /** Lines 14-25: replace the list by the first page (non-empty when more remain). */
    method ListUsers(page: seq<Record>, count: int)
      requires count > |page| ==> |page| > 0
      modifies this
      ensures users == page && totalCounts == count
      ensures before == Cursor(page, count) && loadMore == Some(count - |page|)
    {
      users := page;
      totalCounts := count;
      before := Cursor(page, count);
      loadMore := Some(count - |page|);
    }

    /** Lines 27-37: append the next page; cursor and remainder come from this page alone. */
    method LoadMore(page: seq<Record>, count: int)
      requires count > |page| ==> |page| > 0
      modifies this
      ensures users == old(users) + page && totalCounts == old(totalCounts)
      ensures before == Cursor(page, count) && loadMore == Some(count - |page|)
    {
      before := Cursor(page, count);
      loadMore := Some(count - |page|);
      users := users + page;
    }

    /** Lines 39-43: the created user goes first, marked as edited; the count is not raised. */
    method AddUser(created: Record)
      modifies this
      ensures users == [Marked(created)] + old(users)
      ensures totalCounts == old(totalCounts) && before == old(before) && loadMore == old(loadMore)
    {
      users := [Marked(created)] + users;
    }

    /** Lines 45-52: the first item with the id takes the patch; it must be listed, or `Object.assign` throws. */
    method EditUser(userId: string, updated: Record)
      requires FirstIndex(users, userId) >= 0
      modifies this
      ensures var i := FirstIndex(old(users), userId);
        users == old(users)[i := EditedUser(old(users)[i], updated)]
      ensures totalCounts == old(totalCounts) && before == old(before) && loadMore == old(loadMore)
    {
      var i := FindIndex(users, userId);
      users := users[i := Marked(Assign(users[i], updated))];
    }

    /**
     * Lines 54-64: lower the count and `splice` at the first index with the
     * id; an unlisted id gives index -1, which removes the last item.
     */
    method DeleteUser(userId: string)
      modifies this
      ensures users == SpliceOne(old(users), FirstIndex(old(users), userId))
      ensures totalCounts == old(totalCounts) - 1
      ensures before == old(before) && loadMore == old(loadMore)
    {
      totalCounts := totalCounts - 1;
      var i := FindIndex(users, userId);
      users := SpliceOne(users, i);
    }

    /** Lines 66-69, 74 and 79: a failed listing or signing out resets the list. */
    method Initialize()
      modifies this
      ensures users == [] && totalCounts == 0 && before == None && loadMore == None
    {
      users := [];
      totalCounts := 0;
      before := None;
      loadMore := None;
    }
  }

  /**
   * Deleting a listed user lowers the count and the list length together,
   * so the number of matching users not yet loaded stays the same.
   */
  lemma DeleteKeepsUnloaded(items: seq<Record>, totalCounts: int, userId: string)
    requires FirstIndex(items, userId) >= 0
    ensures (totalCounts - 1) - |SpliceOne(items, FirstIndex(items, userId))| == totalCounts - |items|
    ensures forall r :: r in SpliceOne(items, FirstIndex(items, userId)) ==> r in items
  {
    SpliceFound(items, userId);
  }

  /** An edit changes only the targeted user, which keeps its id unless the patch sets one. */
  lemma EditTouchesOnlyTarget(items: seq<Record>, userId: string, updated: Record)
    requires FirstIndex(items, userId) >= 0 && "_id" !in updated
    ensures var i := FirstIndex(items, userId);
      var after := items[i := EditedUser(items[i], updated)];
      && |after| == |items|
      && FirstIndex(after, userId) == i
      && forall k :: 0 <= k < |items| && k != i ==> after[k] == items[k]
  {
    var i := FirstIndex(items, userId);
    var after := items[i := EditedUser(items[i], updated)];
    assert HasId(after[i], userId);
    assert forall k :: 0 <= k < i ==> after[k] == items[k];
  }
}
