/**
 * The response-shaping filter `jsonSpec(subject, schema)` of
 * rent-management-api/lib/json-spec/index.js.
 *
 * A subject is a JSON-like value; a template (the `schema` argument) is `true`,
 * a plain object from keys to templates, or a one-element array holding one
 * template. The filter keeps only the subject keys the template lists,
 * recurses into nested objects and maps over arrays. JavaScript's `typeof`
 * test is modelled exactly: `null`, arrays and plain objects are all
 * "object", so an object template applied to an array (or an array template
 * applied to an object) still recurses, treating the other side through its
 * own keys. The source throws a TypeError when the `toObject` probe of line 11
 * meets `null`; the model returns `None` there.
 */
module JsonSpec {
  import opened Wrappers

  datatype Json =
    | JNull
    | JBool(b: bool)
    | JNum(n: real)
    | JStr(s: string)
    | JArr(items: seq<Json>)
    | JObj(fields: seq<(string, Json)>)   // in the order Object.keys enumerates them

  /** `true` (keep as is), a plain object of sub-templates, or `[t]` (apply t to every element). */
  datatype Template =
    | Leaf
    | Fields(entries: map<string, Template>)
    | ArrayOf(elem: Template)

  /** `typeof v === 'object'`: null, arrays and plain objects. */
  predicate IsObjectType(v: Json) {
    v.JNull? || v.JArr? || v.JObj?
  }

  /** A non-null "object": the values the filter can walk into. */
  predicate Composite(v: Json) {
    v.JArr? || v.JObj?
  }

  /** The decimal spelling of an array index, as Object.keys reports it. */
  function IndexKey(n: nat): (s: string)
    ensures |s| > 0
  {
    var digit := (48 + n % 10) as char;
    if n < 10 then [digit] else IndexKey(n / 10) + [digit]
  }

  /** `Object.keys(schema)`: `Object.keys(true)` is empty and a one-element array has the key "0". */
  function TemplateKeys(t: Template): set<string> {
    match t
    case Leaf => {}
    case Fields(m) => m.Keys
    case ArrayOf(_) => {"0"}
  }

  /** `schema[key]` for a key of the template. */
  function SubTemplate(t: Template, k: string): Template
    requires k in TemplateKeys(t)
  {
    match t
    case Fields(m) => m[k]
    case ArrayOf(e) => e
  }

  /**
   * `Object.keys(subject)` paired with `subject[key]`: the fields of an
   * object, the indices of an array or of a string, nothing for other scalars.
   */
  function Props(s: Json): (ps: seq<(string, Json)>)
    ensures forall p :: p in ps && Composite(p.1) ==> (s decreases to p.1)
  {
    match s
    case JObj(fs) => fs
    case JArr(items) => seq(|items|, i requires 0 <= i < |items| => (IndexKey(i), items[i]))
    case JStr(cs) => seq(|cs|, i requires 0 <= i < |cs| => (IndexKey(i), JStr([cs[i]])))
    case _ => []
  }

  function KeysOf(ps: seq<(string, Json)>): (ks: seq<string>)
    ensures |ks| == |ps|
    ensures forall i :: 0 <= i < |ps| ==> ks[i] == ps[i].0
  {
    if ps == [] then [] else [ps[0].0] + KeysOf(ps[1..])
  }

  /** Lines 26-28: the subject's entries whose key the template lists, in the subject's order. */
  function Pick(ps: seq<(string, Json)>, keys: set<string>): (r: seq<(string, Json)>)
    ensures forall p :: p in r ==> p in ps && p.0 in keys
    ensures forall p :: p in ps && p.0 in keys ==> p in r
    ensures |r| <= |ps|
  {
    if ps == [] then []
    else (if ps[0].0 in keys then [ps[0]] else []) + Pick(ps[1..], keys)
  }

  /** Line 33: a retained value is filtered again when it is a non-null object and its template is not `true`. */
  predicate Recurses(v: Json, sub: Template) {
    Composite(v) && !sub.Leaf?
  }

  /** `jsonSpec(subject, schema)`; `None` where the source throws. */
  function Shape(s: Json, t: Template): (r: Option<Json>)
    ensures r.Some? ==> Composite(r.value)
    decreases s, 1
  {
    if s.JNull? then None
    else if t.ArrayOf? && s.JArr? then
      match ShapeItems(s.items, t.elem, s)
      case Some(rs) => Some(JArr(rs))
      case None => None
    else
      match ShapeFields(Pick(Props(s), TemplateKeys(t)), t, s)
      case Some(fs) => Some(JObj(fs))
      case None => None
  }

  /** Lines 17-22: filter the elements whose `typeof` is "object" with the element template. */
  function ShapeItems(items: seq<Json>, e: Template, ghost parent: Json): (r: Option<seq<Json>>)
    requires forall x :: x in items ==> (parent decreases to x)
    decreases parent, 0, |items|
  {
    if items == [] then Some([])
    else
      assert items[0] in items;
      assert forall x :: x in items[1..] ==> x in items;
      var head := if IsObjectType(items[0]) then Shape(items[0], e) else Some(items[0]);
      match (head, ShapeItems(items[1..], e, parent))
      case (Some(h), Some(rest)) => Some([h] + rest)
      case _ => None
  }

  /** Lines 31-37 over the retained entries. */
  function ShapeFields(ps: seq<(string, Json)>, t: Template, ghost parent: Json)
    : (r: Option<seq<(string, Json)>>)
    requires forall p :: p in ps && Composite(p.1) ==> (parent decreases to p.1)
    requires forall p :: p in ps ==> p.0 in TemplateKeys(t)
    decreases parent, 0, |ps|
  {
    if ps == [] then Some([])
    else
      var k := ps[0].0;
      var v := ps[0].1;
      var head := if Recurses(v, SubTemplate(t, k)) then Shape(v, SubTemplate(t, k)) else Some(v);
      match (head, ShapeFields(ps[1..], t, parent))
      case (Some(h), Some(rest)) => Some([(k, h)] + rest)
      case _ => None
  }

  /** No array anywhere in `s` holds a `null` element. */
  predicate NoNullInArrays(s: Json) {
    match s
    case JArr(items) => forall i :: 0 <= i < |items| ==> items[i] != JNull && NoNullInArrays(items[i])
    case JObj(fs) => forall i :: 0 <= i < |fs| ==> NoNullInArrays(fs[i].1)
    case _ => true
  }

  /** A template made of `true` leaves only, as USER_SPEC is. */
  predicate AllLeaves(t: Template) {
    t.Fields? && forall k :: k in t.entries ==> t.entries[k] == Leaf
  }

  // ---------------------------------------------------------------------
  // The retained entries and the mapped elements, one index at a time.

  lemma ShapeFieldsResult(ps: seq<(string, Json)>, t: Template, parent: Json)
    requires forall p :: p in ps && Composite(p.1) ==> (parent decreases to p.1)
    requires forall p :: p in ps ==> p.0 in TemplateKeys(t)
    ensures ShapeFields(ps, t, parent).Some? <==>
      forall i :: 0 <= i < |ps| && Recurses(ps[i].1, SubTemplate(t, ps[i].0)) ==>
        Shape(ps[i].1, SubTemplate(t, ps[i].0)).Some?
    ensures ShapeFields(ps, t, parent).Some? ==>
      var r := ShapeFields(ps, t, parent).value;
      && |r| == |ps|
      && forall i :: 0 <= i < |ps| ==>
        && r[i].0 == ps[i].0
        && r[i].1 == (if Recurses(ps[i].1, SubTemplate(t, ps[i].0))
                      then Shape(ps[i].1, SubTemplate(t, ps[i].0)).value
                      else ps[i].1)
  {
    ShapeFieldsDefinedIff(ps, t, parent);
    if ShapeFields(ps, t, parent).Some? {
      ShapeFieldsValues(ps, t, parent);
    }
  }

  lemma {:induction false} ShapeFieldsDefinedIff(ps: seq<(string, Json)>, t: Template, parent: Json)
    requires forall p :: p in ps && Composite(p.1) ==> (parent decreases to p.1)
    requires forall p :: p in ps ==> p.0 in TemplateKeys(t)
    ensures ShapeFields(ps, t, parent).Some? <==>
      forall i :: 0 <= i < |ps| && Recurses(ps[i].1, SubTemplate(t, ps[i].0)) ==>
        Shape(ps[i].1, SubTemplate(t, ps[i].0)).Some?
    decreases |ps|
  {
    if ps != [] {
      assert ps[0] in ps;
      assert forall p :: p in ps[1..] ==> p in ps;
      ShapeFieldsDefinedIff(ps[1..], t, parent);
      if ShapeFields(ps[1..], t, parent).None? {
        var j :| 0 <= j < |ps| - 1 && Recurses(ps[1..][j].1, SubTemplate(t, ps[1..][j].0)) &&
          Shape(ps[1..][j].1, SubTemplate(t, ps[1..][j].0)).None?;
        assert ps[1..][j] == ps[j + 1];
      } else {
        forall i | 1 <= i < |ps|
          ensures ps[i] == ps[1..][i - 1]
        {
        }
      }
    }
  }

  lemma {:induction false} ShapeFieldsValues(ps: seq<(string, Json)>, t: Template, parent: Json)
    requires forall p :: p in ps && Composite(p.1) ==> (parent decreases to p.1)
    requires forall p :: p in ps ==> p.0 in TemplateKeys(t)
    requires ShapeFields(ps, t, parent).Some?
    ensures var r := ShapeFields(ps, t, parent).value;
      && |r| == |ps|
      && (forall i :: 0 <= i < |ps| ==> r[i].0 == ps[i].0)
      && (forall i :: 0 <= i < |ps| && Recurses(ps[i].1, SubTemplate(t, ps[i].0)) ==>
            Shape(ps[i].1, SubTemplate(t, ps[i].0)) == Some(r[i].1))
      && (forall i :: 0 <= i < |ps| && !Recurses(ps[i].1, SubTemplate(t, ps[i].0)) ==> r[i].1 == ps[i].1)
    decreases |ps|
  {
    if ps != [] {
      assert ps[0] in ps;
      assert forall p :: p in ps[1..] ==> p in ps;
      ShapeFieldsValues(ps[1..], t, parent);
      var r := ShapeFields(ps, t, parent).value;
      var rest := ShapeFields(ps[1..], t, parent).value;
      assert r == [r[0]] + rest;
      forall i | 1 <= i < |ps|
        ensures r[i] == rest[i - 1] && ps[i] == ps[1..][i - 1]
      {
      }
    }
  }

  lemma ShapeItemsResult(items: seq<Json>, e: Template, parent: Json)
    requires forall x :: x in items ==> (parent decreases to x)
    ensures ShapeItems(items, e, parent).Some? <==>
      forall i :: 0 <= i < |items| && IsObjectType(items[i]) ==> Shape(items[i], e).Some?
    ensures ShapeItems(items, e, parent).Some? ==>
      var rs := ShapeItems(items, e, parent).value;
      && |rs| == |items|
      && forall i :: 0 <= i < |items| ==>
        rs[i] == if IsObjectType(items[i]) then Shape(items[i], e).value else items[i]
  {
    ShapeItemsDefinedIff(items, e, parent);
    if ShapeItems(items, e, parent).Some? {
      ShapeItemsValues(items, e, parent);
    }
  }

  lemma {:induction false} ShapeItemsDefinedIff(items: seq<Json>, e: Template, parent: Json)
    requires forall x :: x in items ==> (parent decreases to x)
    ensures ShapeItems(items, e, parent).Some? <==>
      forall i :: 0 <= i < |items| && IsObjectType(items[i]) ==> Shape(items[i], e).Some?
    decreases |items|
  {
    if items != [] {
      assert items[0] in items;
      assert forall x :: x in items[1..] ==> x in items;
      ShapeItemsDefinedIff(items[1..], e, parent);
      var tail := ShapeItems(items[1..], e, parent);
      if tail.None? {
        var j :| 0 <= j < |items| - 1 && IsObjectType(items[1..][j]) && Shape(items[1..][j], e).None?;
        assert items[1..][j] == items[j + 1];
      } else {
        forall i | 1 <= i < |items|
          ensures items[i] == items[1..][i - 1]
        {
        }
      }
    }
  }

  lemma {:induction false} ShapeItemsValues(items: seq<Json>, e: Template, parent: Json)
    requires forall x :: x in items ==> (parent decreases to x)
    requires ShapeItems(items, e, parent).Some?
    ensures var rs := ShapeItems(items, e, parent).value;
      && |rs| == |items|
      && (forall i :: 0 <= i < |items| && IsObjectType(items[i]) ==> Shape(items[i], e) == Some(rs[i]))
      && (forall i :: 0 <= i < |items| && !IsObjectType(items[i]) ==> rs[i] == items[i])
    decreases |items|
  {
    if items != [] {
      assert items[0] in items;
      assert forall x :: x in items[1..] ==> x in items;
      ShapeItemsValues(items[1..], e, parent);
      var rs := ShapeItems(items, e, parent).value;
      var tail := ShapeItems(items[1..], e, parent).value;
      assert rs == [rs[0]] + tail;
      forall i | 1 <= i < |items|
        ensures rs[i] == tail[i - 1] && items[i] == items[1..][i - 1]
      {
      }
    }
  }

  lemma {:induction false} PickAll(ps: seq<(string, Json)>, keys: set<string>)
    requires forall p :: p in ps ==> p.0 in keys
    ensures Pick(ps, keys) == ps
  {
    if ps != [] {
      assert forall p :: p in ps[1..] ==> p in ps;
      PickAll(ps[1..], keys);
      assert ps == [ps[0]] + ps[1..];
    }
  }

  lemma {:induction false} PickKeys(ps: seq<(string, Json)>, keys: set<string>)
    ensures forall k :: k in KeysOf(Pick(ps, keys)) <==> k in KeysOf(ps) && k in keys
  {
    var r := Pick(ps, keys);
    var rk, pk := KeysOf(r), KeysOf(ps);
    forall k | k in rk
      ensures k in pk && k in keys
    {
      var i :| 0 <= i < |r| && rk[i] == k;
      assert r[i] in r;
      var j :| 0 <= j < |ps| && ps[j] == r[i];
      assert pk[j] == k;
    }
    forall k | k in pk && k in keys
      ensures k in rk
    {
      var j :| 0 <= j < |ps| && pk[j] == k;
      assert ps[j] in ps;
      var i :| 0 <= i < |r| && r[i] == ps[j];
      assert rk[i] == k;
    }
  }

  // ---------------------------------------------------------------------
  // Properties of jsonSpec.

  /**
   * An object result holds exactly the subject keys the template also lists,
   * in the subject's order: other subject keys are dropped, and a template key
   * the subject lacks is omitted without error.
   */
  lemma ObjectResultKeys(s: Json, t: Template)
    requires !(t.ArrayOf? && s.JArr?)
    requires Shape(s, t).Some?
    ensures Shape(s, t).value.JObj?
    ensures KeysOf(Shape(s, t).value.fields) == KeysOf(Pick(Props(s), TemplateKeys(t)))
    ensures forall k :: k in KeysOf(Shape(s, t).value.fields) <==>
      k in KeysOf(Props(s)) && k in TemplateKeys(t)
  {
    var picked := Pick(Props(s), TemplateKeys(t));
    ShapeFieldsResult(picked, t, s);
    var r := Shape(s, t).value;
    assert KeysOf(r.fields) == KeysOf(picked);
    PickKeys(Props(s), TemplateKeys(t));
  }

  /**
   * The value kept under each retained key: unchanged when its template is
   * `true` or when it is `null` or not an "object" (a type mismatch), and the
   * recursive filter of it when both it and its template are non-null objects.
   */
  lemma ObjectResultValues(s: Json, t: Template, i: nat)
    requires !(t.ArrayOf? && s.JArr?)
    requires Shape(s, t).Some?
    requires i < |Pick(Props(s), TemplateKeys(t))|
    ensures var r := Shape(s, t).value;
      var k := Pick(Props(s), TemplateKeys(t))[i].0;
      var v := Pick(Props(s), TemplateKeys(t))[i].1;
      && r.JObj? && i < |r.fields| && r.fields[i].0 == k
      && (SubTemplate(t, k).Leaf? ==> r.fields[i].1 == v)
      && (!Composite(v) ==> r.fields[i].1 == v)
      && (Composite(v) && !SubTemplate(t, k).Leaf? ==> Shape(v, SubTemplate(t, k)) == Some(r.fields[i].1))
  {
    ShapeFieldsResult(Pick(Props(s), TemplateKeys(t)), t, s);
  }

  /**
   * An array subject under a one-element array template keeps its length and
   * order: "object" elements are filtered with the element template, all
   * others are returned unchanged.
   */
  lemma ArrayResult(items: seq<Json>, e: Template)
    requires Shape(JArr(items), ArrayOf(e)).Some?
    ensures var r := Shape(JArr(items), ArrayOf(e)).value;
      && r.JArr? && |r.items| == |items|
      && (forall i :: 0 <= i < |items| && IsObjectType(items[i]) ==> Shape(items[i], e) == Some(r.items[i]))
      && (forall i :: 0 <= i < |items| && !IsObjectType(items[i]) ==> r.items[i] == items[i])
  {
    ShapeItemsResult(items, e, JArr(items));
  }

  /** A `null` subject, or a `null` element of an array walked by an array template, throws. */
  lemma NullThrows(items: seq<Json>, e: Template, t: Template)
    requires JNull in items
    ensures Shape(JNull, t).None?
    ensures Shape(JArr(items), ArrayOf(e)).None?
  {
    ShapeItemsResult(items, e, JArr(items));
    var i :| 0 <= i < |items| && items[i] == JNull;
    assert IsObjectType(items[i]) && Shape(items[i], e).None?;
  }

  /** Without nulls inside arrays the filter never throws on a non-null subject. */
  lemma {:induction false} ShapeDefined(s: Json, t: Template)
    requires s != JNull && NoNullInArrays(s)
    ensures Shape(s, t).Some?
    decreases s, 1
  {
    if t.ArrayOf? && s.JArr? {
      forall x | x in s.items
        ensures x != JNull && NoNullInArrays(x)
      {
        var j :| 0 <= j < |s.items| && s.items[j] == x;
      }
      ShapeItemsDefined(s.items, t.elem, s);
    } else {
      var picked := Pick(Props(s), TemplateKeys(t));
      forall p | p in picked
        ensures NoNullInArrays(p.1)
      {
        assert p in Props(s);
        if s.JArr? {
          var j :| 0 <= j < |s.items| && Props(s)[j] == p;
        } else if s.JObj? {
          var j :| 0 <= j < |s.fields| && s.fields[j] == p;
        }
      }
      ShapeFieldsDefined(picked, t, s);
    }
  }

  lemma {:induction false} ShapeItemsDefined(items: seq<Json>, e: Template, parent: Json)
    requires forall x :: x in items ==> (parent decreases to x)
    requires forall x :: x in items ==> x != JNull && NoNullInArrays(x)
    ensures ShapeItems(items, e, parent).Some?
    decreases parent, 0, |items|
  {
    if items != [] {
      var x := items[0];
      assert x in items;
      assert forall y :: y in items[1..] ==> y in items;
      var head := if IsObjectType(x) then Shape(x, e) else Some(x);
      if IsObjectType(x) {
        ShapeDefined(x, e);
      }
      assert head.Some?;
      ShapeItemsDefined(items[1..], e, parent);
      assert ShapeItems(items, e, parent) == Some([head.value] + ShapeItems(items[1..], e, parent).value);
    }
  }

  lemma {:induction false} ShapeFieldsDefined(ps: seq<(string, Json)>, t: Template, parent: Json)
    requires forall p :: p in ps && Composite(p.1) ==> (parent decreases to p.1)
    requires forall p :: p in ps ==> p.0 in TemplateKeys(t)
    requires forall p :: p in ps ==> NoNullInArrays(p.1)
    ensures ShapeFields(ps, t, parent).Some?
    decreases parent, 0, |ps|
  {
    if ps != [] {
      assert ps[0] in ps;
      assert forall p :: p in ps[1..] ==> p in ps;
      if Recurses(ps[0].1, SubTemplate(t, ps[0].0)) {
        ShapeDefined(ps[0].1, SubTemplate(t, ps[0].0));
      }
      ShapeFieldsDefined(ps[1..], t, parent);
    }
  }

  /** Filtering a filtered value again with the same template changes nothing. */
  lemma {:induction false} ShapeIdempotent(s: Json, t: Template)
    requires Shape(s, t).Some?
    ensures Shape(Shape(s, t).value, t) == Shape(s, t)
    decreases s, 1
  {
    var r := Shape(s, t).value;
    if t.ArrayOf? && s.JArr? {
      ShapeItemsIdempotent(s.items, t.elem, s, r);
    } else {
      var keys := TemplateKeys(t);
      var picked := Pick(Props(s), keys);
      ShapeFieldsKeyed(picked, t, s);
      PickAll(r.fields, keys);
      assert Props(r) == r.fields;
      ShapeFieldsIdempotent(picked, t, s, r);
    }
  }

  /** The retained entries keep their keys, all of which the template lists. */
  lemma ShapeFieldsKeyed(ps: seq<(string, Json)>, t: Template, parent: Json)
    requires forall p :: p in ps && Composite(p.1) ==> (parent decreases to p.1)
    requires forall p :: p in ps ==> p.0 in TemplateKeys(t)
    requires ShapeFields(ps, t, parent).Some?
    ensures forall p :: p in ShapeFields(ps, t, parent).value ==> p.0 in TemplateKeys(t)
  {
    var r := ShapeFields(ps, t, parent).value;
    ShapeFieldsResult(ps, t, parent);
    forall p | p in r
      ensures p.0 in TemplateKeys(t)
    {
      var i :| 0 <= i < |r| && r[i] == p;
      assert ps[i] in ps;
    }
  }

  lemma {:induction false} ShapeItemsIdempotent(items: seq<Json>, e: Template, parent: Json, parent2: Json)
    requires forall x :: x in items ==> (parent decreases to x)
    requires ShapeItems(items, e, parent).Some?
    requires forall x :: x in ShapeItems(items, e, parent).value ==> (parent2 decreases to x)
    ensures ShapeItems(ShapeItems(items, e, parent).value, e, parent2) == ShapeItems(items, e, parent)
    decreases parent, 0, |items|
  {
    if items != [] {
      assert items[0] in items;
      assert forall x :: x in items[1..] ==> x in items;
      var rs := ShapeItems(items, e, parent).value;
      var rest := ShapeItems(items[1..], e, parent).value;
      assert rs == [rs[0]] + rest && rs[1..] == rest;
      assert rs[0] in rs;
      assert forall x :: x in rest ==> x in rs;
      if IsObjectType(items[0]) {
        ShapeIdempotent(items[0], e);
      }
      assert (if IsObjectType(rs[0]) then Shape(rs[0], e) else Some(rs[0])) == Some(rs[0]);
      ShapeItemsIdempotent(items[1..], e, parent, parent2);
    }
  }

  lemma {:induction false} ShapeFieldsIdempotent(ps: seq<(string, Json)>, t: Template, parent: Json, parent2: Json)
    requires forall p :: p in ps && Composite(p.1) ==> (parent decreases to p.1)
    requires forall p :: p in ps ==> p.0 in TemplateKeys(t)
    requires ShapeFields(ps, t, parent).Some?
    requires forall p :: p in ShapeFields(ps, t, parent).value && Composite(p.1) ==> (parent2 decreases to p.1)
    requires forall p :: p in ShapeFields(ps, t, parent).value ==> p.0 in TemplateKeys(t)
    ensures ShapeFields(ShapeFields(ps, t, parent).value, t, parent2) == ShapeFields(ps, t, parent)
    decreases parent, 0, |ps|
  {
    if ps != [] {
      assert ps[0] in ps;
      assert forall p :: p in ps[1..] ==> p in ps;
      var r := ShapeFields(ps, t, parent).value;
      var rest := ShapeFields(ps[1..], t, parent).value;
      assert r == [r[0]] + rest && r[1..] == rest;
      assert r[0] in r;
      assert forall p :: p in rest ==> p in r;
      var sub := SubTemplate(t, ps[0].0);
      if Recurses(ps[0].1, sub) {
        ShapeIdempotent(ps[0].1, sub);
      }
      assert r[0] == (ps[0].0, r[0].1);
      assert (if Recurses(r[0].1, sub) then Shape(r[0].1, sub) else Some(r[0].1)) == Some(r[0].1);
      ShapeFieldsIdempotent(ps[1..], t, parent, parent2);
    }
  }

  /** Entries whose values the template never walks into are kept as they are. */
  lemma {:induction false} ShapeFieldsKeeps(ps: seq<(string, Json)>, t: Template, parent: Json)
    requires forall p :: p in ps && Composite(p.1) ==> (parent decreases to p.1)
    requires forall p :: p in ps ==> p.0 in TemplateKeys(t)
    requires forall p :: p in ps ==> !Recurses(p.1, SubTemplate(t, p.0))
    ensures ShapeFields(ps, t, parent) == Some(ps)
    decreases |ps|
  {
    if ps != [] {
      assert ps[0] in ps;
      assert forall p :: p in ps[1..] ==> p in ps;
      ShapeFieldsKeeps(ps[1..], t, parent);
      assert ps == [ps[0]] + ps[1..];
    }
  }

  /**
   * With a template of `true` leaves only, the result is exactly the subject's
   * entries whose keys the template lists, values untouched.
   */
  lemma FlatTemplatePicks(s: Json, t: Template)
    requires AllLeaves(t) && s != JNull
    ensures Shape(s, t) == Some(JObj(Pick(Props(s), TemplateKeys(t))))
  {
    ShapeFieldsKeeps(Pick(Props(s), TemplateKeys(t)), t, s);
  }
}
