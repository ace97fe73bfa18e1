/** The dynamic values that flow through the core: Java `Object`s held in parameter
    maps, schemas and results, and the Gson trees that message payloads are built
    from. Both are modelled by one tagged union. */
module Json {
  import opened Wrappers

  /** A Java value as the core sees it. `VNumber` stands for every `java.lang.Number`;
      `VOther` for any object that is none of the other kinds (a domain record, a
      Gson element, ...), identified only by an opaque tag. */
  datatype Value =
    | VNull
    | VBool(b: bool)
    | VNumber(n: real)
    | VString(s: string)
    | VArray(items: seq<Value>)
    | VObject(fields: map<string, Value>)
    | VOther(tag: string)

  /** A message payload: the keys of a fresh `JsonObject` and their values. */
  type Payload = map<string, Value>

  /** The kinds `JsonObject.addProperty` serialises: String, Number and Boolean. */
  predicate IsScalar(v: Value) {
    v.VString? || v.VNumber? || v.VBool?
  }

  /** `addProperty(key, s)` with a possibly-null string stores JSON null for null. */
  function FromOptString(s: Option<string>): (r: Value)
    ensures s.None? <==> r == VNull
    ensures s.Some? ==> r == VString(s.value)
  {
    match s
    case None => VNull
    case Some(x) => VString(x)
  }

  /** `Map.get`: null for an absent key. */
  function Lookup(m: map<string, Value>, key: string): (v: Value)
    ensures key !in m ==> v == VNull
    ensures key in m ==> v == m[key]
  {
    if key in m then m[key] else VNull
  }

  function FromInt(i: int): Value {
    VNumber(i as real)
  }

  /** The entry filter shared by response details and request parameters: only
      String, Number and Boolean values are copied, every other entry is dropped. */
  function KeepScalars(m: map<string, Value>): (r: map<string, Value>)
    ensures forall k :: k in r <==> k in m && IsScalar(m[k])
    ensures forall k :: k in r ==> r[k] == m[k]
  {
    map k | k in m && IsScalar(m[k]) :: m[k]
  }

  /** The tree `JsonParser.parseString(gson.toJson(v))` yields with Gson's default
      settings: map entries whose value is null are not written, nulls inside
      arrays are. How Gson renders a `VOther` object is not modelled: it stays opaque. */
  function ToJsonTree(v: Value): (r: Value)
    ensures v.VNull? <==> r.VNull?
    ensures IsScalar(v) ==> r == v
    ensures v.VArray? ==> r.VArray? && |r.items| == |v.items|
    ensures v.VObject? ==> r.VObject? && r.fields.Keys == NonNullKeys(v.fields)
    decreases v
  {
    match v
    case VArray(items) => VArray(seq(|items|, i requires 0 <= i < |items| => ToJsonTree(items[i])))
    case VObject(fields) => VObject(map k | k in NonNullKeys(fields) :: ToJsonTree(fields[k]))
    case _ => v
  }

  function NonNullKeys(m: map<string, Value>): (ks: set<string>)
    ensures ks <= m.Keys
  {
    set k | k in m && !m[k].VNull?
  }

  /** A tree that Gson produced contains no null-valued object entry. */
  ghost predicate NullFreeObjects(v: Value)
    decreases v
  {
    match v
    case VArray(items) => forall i :: 0 <= i < |items| ==> NullFreeObjects(items[i])
    case VObject(fields) => forall k :: k in fields ==> !fields[k].VNull? && NullFreeObjects(fields[k])
    case _ => true
  }

  lemma {:induction false} ToJsonTreeNullFree(v: Value)
    ensures NullFreeObjects(ToJsonTree(v))
    decreases v
  {
    match v
    case VArray(items) =>
      var r := ToJsonTree(v);
      forall i | 0 <= i < |r.items| ensures NullFreeObjects(r.items[i]) {
        ToJsonTreeNullFree(items[i]);
      }
    case VObject(fields) =>
      var r := ToJsonTree(v);
      forall k | k in r.fields ensures !r.fields[k].VNull? && NullFreeObjects(r.fields[k]) {
        ToJsonTreeNullFree(fields[k]);
      }
    case _ =>
  }

  /** Serialising an already-serialised tree again changes nothing. */
  lemma {:induction false} ToJsonTreeIdempotent(v: Value)
    ensures ToJsonTree(ToJsonTree(v)) == ToJsonTree(v)
    decreases v
  {
    match v
    case VArray(items) =>
      var r := ToJsonTree(v);
      forall i | 0 <= i < |items| ensures ToJsonTree(r.items[i]) == r.items[i] {
        ToJsonTreeIdempotent(items[i]);
      }
      assert ToJsonTree(r).items == r.items;
    case VObject(fields) =>
      var r := ToJsonTree(v);
      forall k | k in r.fields ensures ToJsonTree(r.fields[k]) == r.fields[k] {
        ToJsonTreeIdempotent(fields[k]);
      }
      assert ToJsonTree(r).fields == r.fields;
    case _ =>
  }

  /** The order in which a Java `Set` hands out its elements: unspecified, so chosen
      here, but every element exactly once. */
  ghost function SetToSeq(s: set<string>): (r: seq<string>)
    ensures |r| == |s|
    ensures forall x :: x in r <==> x in s
    ensures forall i, j :: 0 <= i < j < |r| ==> r[i] != r[j]
    decreases s
  {
    if s == {} then []
    else
      var x :| x in s;
      [x] + SetToSeq(s - {x})
  }

  /** A `JsonArray` filled from a set of strings. */
  ghost function StringArray(s: set<string>): (r: Value)
    ensures r.VArray? && |r.items| == |s|
    ensures forall x :: x in s <==> VString(x) in r.items
    ensures forall i, j :: 0 <= i < j < |r.items| ==> r.items[i] != r.items[j]
  {
    var xs := SetToSeq(s);
    var items := seq(|xs|, i requires 0 <= i < |xs| => VString(xs[i]));
    assert forall x :: x in s ==> VString(x) in items by {
      forall x | x in s ensures VString(x) in items {
        var i :| 0 <= i < |xs| && xs[i] == x;
        assert items[i] == VString(x);
      }
    }
    VArray(items)
  }
}
