/** The parsed response body, and the Ruby methods the clients call on it:
    `[]` with a String key, `first`, and `map { |x| x[key] }`. */
module Response {
  import opened Outcomes
  import opened Text

  /** What `JSON.parse` returns: nil, an Integer, a String, an Array or a Hash (in key order). */
  datatype Json =
    | JNull
    | JInt(i: int)
    | JStr(s: string)
    | JArr(items: seq<Json>)
    | JObj(fields: seq<(string, Json)>)

  /** `Hash#[]`: the value stored under `key`, nil when there is none. */
  function Get(fields: seq<(string, Json)>, key: string): (r: Json)
    ensures r != JNull ==> exists i :: 0 <= i < |fields| && fields[i] == (key, r)
    ensures (forall i :: 0 <= i < |fields| ==> fields[i].0 != key) ==> r == JNull
    ensures forall i :: 0 <= i < |fields| && fields[i].0 == key && (forall j :: 0 <= j < i ==> fields[j].0 != key)
                        ==> r == fields[i].1
  {
    if fields == [] then JNull
    else if fields[0].0 == key then fields[0].1
    else Get(fields[1..], key)
  }

  /** `v[key]` with a String key, on each kind of parsed value. */
  function Index(v: Json, key: string): (r: Result<Json>)
    ensures r.Success? <==> v.JObj? || v.JStr?
    ensures v.JNull? ==> r == Failure(NoMethodError("[]", NilClass))
    ensures v.JArr? || v.JInt? ==> r == Failure(TypeError(NoImplicitConversion))
    ensures v.JStr? ==> r.value == (if Contains(v.s, key) then JStr(key) else JNull)
    ensures v.JObj? ==> r.value == Get(v.fields, key)
  {
    match v
    case JNull => Failure(NoMethodError("[]", NilClass))
    case JInt(_) => Failure(TypeError(NoImplicitConversion))
    case JStr(s) => Success(if Contains(s, key) then JStr(key) else JNull)
    case JArr(_) => Failure(TypeError(NoImplicitConversion))
    case JObj(fields) => Success(Get(fields, key))
  }

  /** `v.first`: the first element of an Array, the first `[key, value]` pair of a Hash, nil when empty. */
  function First(v: Json): (r: Result<Json>)
    ensures r.Success? <==> v.JArr? || v.JObj?
    ensures v.JArr? ==> r.value == (if v.items == [] then JNull else v.items[0])
    ensures v.JObj? && v.fields != [] ==> r.value == JArr([JStr(v.fields[0].0), v.fields[0].1])
    ensures v.JObj? && v.fields == [] ==> r.value == JNull
  {
    match v
    case JNull => Failure(NoMethodError("first", NilClass))
    case JInt(_) => Failure(NoMethodError("first", IntegerClass))
    case JStr(_) => Failure(NoMethodError("first", StringClass))
    case JArr(items) => Success(if items == [] then JNull else items[0])
    case JObj(fields) => Success(if fields == [] then JNull else JArr([JStr(fields[0].0), fields[0].1]))
  }

  /** `items.map { |x| x[key] }` on an Array: stops at the first element that cannot be indexed. */
  function MapIndexItems(items: seq<Json>, key: string): (r: Result<seq<Json>>)
    ensures r.Success? <==> forall i :: 0 <= i < |items| ==> Index(items[i], key).Success?
    ensures r.Success? ==> |r.value| == |items|
    ensures r.Success? ==> forall i :: 0 <= i < |items| ==> Index(items[i], key) == Success(r.value[i])
    ensures r.Failure? ==> exists k :: 0 <= k < |items| && Index(items[k], key) == Failure(r.error)
                                       && forall j :: 0 <= j < k ==> Index(items[j], key).Success?
  {
    if items == [] then Success([])
    else
      var head :- Index(items[0], key);
      var tail :- MapIndexItems(items[1..], key);
      Success([head] + tail)
  }

  /** `v.map { |x| x[key] }`: a Hash yields `[key, value]` pairs, which cannot be indexed by a String. */
  function MapIndex(v: Json, key: string): (r: Result<seq<Json>>)
    ensures v.JArr? ==> r == MapIndexItems(v.items, key)
    ensures v.JObj? ==> r == if v.fields == [] then Success([]) else Failure(TypeError(NoImplicitConversion))
    ensures v.JNull? || v.JInt? || v.JStr? ==> r.Failure? && r.error.NoMethodError? && r.error.name == "map"
  {
    match v
    case JNull => Failure(NoMethodError("map", NilClass))
    case JInt(_) => Failure(NoMethodError("map", IntegerClass))
    case JStr(_) => Failure(NoMethodError("map", StringClass))
    case JArr(items) => MapIndexItems(items, key)
    case JObj(fields) => if fields == [] then Success([]) else Failure(TypeError(NoImplicitConversion))
  }
}
