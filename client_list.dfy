/**
 * What react-rent-management/src/redux/reducers/apartment.js and
 * reducers/user.js share: list items as the client holds them, the
 * `before` cursor, the `find`/`findIndex` lookup by `_id`, `splice` of one
 * item and `Object.assign`.
 */
module ClientList {
  import opened Wrappers
  import opened JsonSpec

  /** A list item as received from the API: its top-level keys and values. */
  type Record = map<string, Json>

  /** JavaScript truthiness of a JSON value. */
  predicate Truthy(j: Json) {
    match j
    case JNull => false
    case JBool(b) => b
    case JNum(x) => x != 0.0
    case JStr(s) => s != ""
    case _ => true
  }

  /** `record[key]` being truthy; a missing key reads `undefined`, which is falsy. */
  predicate TruthyField(r: Record, key: string) {
    key in r && Truthy(r[key])
  }

  /** `one._id === id`. */
  predicate HasId(r: Record, id: string) {
    "_id" in r && r["_id"] == JStr(id)
  }

  /**
   * The `before` cursor after receiving `page` out of `totalCounts`
   * matching items: the last item's `createdAt` while more remain,
   * otherwise `null` (`None`). A last item without `createdAt` also gives
   * `None` (JavaScript's `undefined`).
   */
  function Cursor(page: seq<Record>, totalCounts: int): (c: Option<Json>)
    requires totalCounts > |page| ==> |page| > 0
    ensures c.Some? <==> totalCounts > |page| && "createdAt" in page[|page| - 1]
    ensures c.Some? ==> c.value == page[|page| - 1]["createdAt"]
  {
    if totalCounts > |page| && "createdAt" in page[|page| - 1] then Some(page[|page| - 1]["createdAt"]) else None
  }

  /** `items.findIndex(one => one._id === id)`: the first matching index, or -1. */
  function FirstIndex(items: seq<Record>, id: string): (i: int)
    ensures -1 <= i < |items|
    ensures i == -1 <==> forall k :: 0 <= k < |items| ==> !HasId(items[k], id)
    ensures i >= 0 ==> HasId(items[i], id) && forall k :: 0 <= k < i ==> !HasId(items[k], id)
    decreases |items|
  {
    if items == [] then -1
    else if HasId(items[0], id) then 0
    else
      var rest := FirstIndex(items[1..], id);
      if rest == -1 then -1 else rest + 1
  }

  /** The scan `find` and `findIndex` perform. */
  method FindIndex(items: seq<Record>, id: string) returns (i: int)
    ensures i == FirstIndex(items, id)
  {
    i := 0;
    while i < |items| && !HasId(items[i], id)
      invariant 0 <= i <= |items|
      invariant forall k :: 0 <= k < i ==> !HasId(items[k], id)
    {
      i := i + 1;
    }
    if i == |items| {
      i := -1;
    }
  }

  /** `items.splice(start, 1)` on what remains: a negative start counts from the end. */
  function SpliceOne(items: seq<Record>, start: int): seq<Record> {
    var k := if start < 0 then (if |items| + start < 0 then 0 else |items| + start)
             else (if start > |items| then |items| else start);
    if k < |items| then items[..k] + items[k + 1..] else items
  }

  /** Deleting by a present id removes that item and keeps every other one in order. */
  lemma {:induction false} SpliceFound(items: seq<Record>, id: string)
    requires FirstIndex(items, id) >= 0
    ensures var i := FirstIndex(items, id);
      && SpliceOne(items, i) == items[..i] + items[i + 1..]
      && |SpliceOne(items, i)| == |items| - 1
      && multiset(SpliceOne(items, i)) + multiset{items[i]} == multiset(items)
  {
    var i := FirstIndex(items, id);
    var before, after := items[..i], items[i + 1..];
    assert SpliceOne(items, i) == before + after;
    assert items == before + [items[i]] + after;
    calc {
      multiset(items);
      multiset(before + [items[i]] + after);
      multiset(before) + multiset{items[i]} + multiset(after);
      multiset(before + after) + multiset{items[i]};
    }
  }

  /** `findIndex` gives -1 for an absent id, and `splice(-1, 1)` then drops the last item. */
  lemma {:induction false} SpliceMissing(items: seq<Record>, id: string)
    requires FirstIndex(items, id) == -1
    ensures items != [] ==> SpliceOne(items, FirstIndex(items, id)) == items[..|items| - 1]
    ensures items == [] ==> SpliceOne(items, FirstIndex(items, id)) == []
  {
  }

  /** `Object.assign(target, updated)`: the updated keys take their new values, the others keep theirs. */
  function Assign(target: Record, updated: Record): (r: Record)
    ensures r.Keys == target.Keys + updated.Keys
    ensures forall k :: k in updated ==> r[k] == updated[k]
    ensures forall k :: k in target && k !in updated ==> r[k] == target[k]
  {
    target + updated
  }

  /** `Object.assign(item, { edited: true })`. */
  function Marked(r: Record): (m: Record)
    ensures m.Keys == r.Keys + {"edited"} && m["edited"] == JBool(true)
    ensures forall k :: k in r && k != "edited" ==> m[k] == r[k]
  {
    r["edited" := JBool(true)]
  }
}
