/** Firestore documents as the dict-based repositories of fastapi-oauth handle them: a map
    from field name to a dynamically typed value, with Python's `dict.get`, truthiness,
    `set(data, merge=True)` and the "drop the None fields" comprehension. */
module Documents {
  import opened Common

  /** A field value. `Time` is a stored timestamp, in epoch seconds. */
  datatype Value =
    | Null
    | Str(s: string)
    | Int(i: int)
    | Bool(b: bool)
    | Time(epoch: int)
    | Strs(items: seq<string>)

  type Doc = map<string, Value>

  /** Python truthiness of a value. */
  predicate Truthy(v: Value) {
    match v
    case Null => false
    case Str(s) => s != ""
    case Int(i) => i != 0
    case Bool(b) => b
    case Time(_) => true
    case Strs(items) => items != []
  }

  /** `d.get(k, default)`. */
  function Get(d: Doc, k: string, default: Value): (v: Value)
    ensures k in d ==> v == d[k]
    ensures k !in d ==> v == default
  {
    if k in d then d[k] else default
  }

  /** An optional string as a stored value. */
  function OfOption(o: Option<string>): (v: Value)
    ensures o.None? <==> v == Null
    ensures o.Some? ==> v == Str(o.value)
  {
    if o.Some? then Str(o.value) else Null
  }

  /** `set(data, merge=True)` on an existing document: fields in `data` win, the rest stay. */
  function Merge(current: Doc, data: Doc): (r: Doc)
    ensures r.Keys == current.Keys + data.Keys
    ensures forall k :: k in data ==> r[k] == data[k]
    ensures forall k :: k in current && k !in data ==> r[k] == current[k]
  {
    current + data
  }

  /** `{k: v for k, v in payload.items() if v is not None}`. */
  function NonNull(payload: Doc): (r: Doc)
    ensures forall k :: k in r <==> k in payload && payload[k] != Null
    ensures forall k :: k in r ==> r[k] == payload[k]
  {
    map k | k in payload && payload[k] != Null :: payload[k]
  }

  /** Merging only the non-None fields of a payload never clears a field: every field the
      document had keeps a non-null value if it had one, and the document keeps every key. */
  lemma MergeNonNullKeeps(current: Doc, payload: Doc)
    ensures current.Keys <= Merge(current, NonNull(payload)).Keys
    ensures forall k :: k in current && current[k] != Null ==> Merge(current, NonNull(payload))[k] != Null
    ensures NonNull(payload) == map[] ==> Merge(current, NonNull(payload)) == current
  {
    var r := Merge(current, NonNull(payload));
    if NonNull(payload) == map[] {
      assert r.Keys == current.Keys;
    }
  }

  /** The document as the repositories return it: its key added as "id". */
  function WithId(id: string, d: Doc): (r: Doc)
    ensures r.Keys == d.Keys + {"id"} && r["id"] == Str(id)
    ensures forall k :: k in d && k != "id" ==> r[k] == d[k]
  {
    d["id" := Str(id)]
  }
}
