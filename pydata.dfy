/** The Python values that reach the cache and the JSON encoder: the JSON-compatible
    scalars and containers, plus UUIDs and datetimes. A float is kept as its `repr` text
    and a datetime as the `repr` of its POSIX timestamp, since the model does no
    floating-point arithmetic. A dict is its entries in insertion order. */
module PyData {

  import opened Wrappers
  import opened Text

  datatype PyValue =
    | PyNone
    | PyBool(b: bool)
    | PyInt(i: int)
    | PyFloat(repr: string)
    | PyStr(s: string)
    | PyUuid(hex: string)
    | PyDateTime(timestamp: string)
    | PyList(items: seq<PyValue>)
    | PyTuple(elems: seq<PyValue>)
    | PyDict(entries: seq<(string, PyValue)>)

  function Keys(entries: seq<(string, PyValue)>): (r: seq<string>)
    ensures |r| == |entries|
    ensures forall i :: 0 <= i < |entries| ==> r[i] == entries[i].0
  {
    seq(|entries|, i requires 0 <= i < |entries| => entries[i].0)
  }

  /** A Python dict: no key twice. */
  predicate DistinctKeys(entries: seq<(string, PyValue)>)
  {
    forall i, j :: 0 <= i < j < |entries| ==> entries[i].0 != entries[j].0
  }

  /** `d.get(k)`. */
  function Lookup(entries: seq<(string, PyValue)>, k: string): (r: Option<PyValue>)
    ensures r.Some? <==> k in Keys(entries)
    ensures r.Some? ==> (k, r.value) in entries
  {
    if entries == [] then None
    else if entries[0].0 == k then Some(entries[0].1)
    else
      var r := Lookup(entries[1..], k);
      assert Keys(entries) == [entries[0].0] + Keys(entries[1..]);
      r
  }

  /** `d.pop(k, None)` for its effect on the dict: the entry for `k` removed. */
  function Remove(entries: seq<(string, PyValue)>, k: string): (r: seq<(string, PyValue)>)
    ensures forall e :: e in r <==> e in entries && e.0 != k
    ensures k !in Keys(r)
    ensures DistinctKeys(entries) ==> DistinctKeys(r)
  {
    if entries == [] then []
    else
      var rest := Remove(entries[1..], k);
      assert entries == [entries[0]] + entries[1..];
      if entries[0].0 == k then rest
      else
        assert forall j :: 0 <= j < |rest| ==> rest[j] in entries[1..];
        [entries[0]] + rest
  }

  /** `d[k] = v`: replaces the value in place when `k` is present, appends otherwise. */
  function Assign(entries: seq<(string, PyValue)>, k: string, v: PyValue): (r: seq<(string, PyValue)>)
    ensures Lookup(r, k) == Some(v)
    ensures forall k' :: k' != k ==> Lookup(r, k') == Lookup(entries, k')
    ensures forall e :: e in r ==> e == (k, v) || e in entries
  {
    if entries == [] then [(k, v)]
    else if entries[0].0 == k then [(k, v)] + entries[1..]
    else [entries[0]] + Assign(entries[1..], k, v)
  }

  // ------------------------------------------------------------------ redis-py argument encoding

  /** How redis-py turns a command argument into bytes: a str as it is, an int or a float
      by its `repr`; a bool, None or any other type is refused with DataError. */
  function RedisEncode(v: PyValue): (r: Option<string>)
    ensures r.Some? <==> v.PyStr? || v.PyInt? || v.PyFloat?
    ensures v.PyStr? ==> r == Some(v.s)
  {
    match v
    case PyStr(s) => Some(s)
    case PyInt(i) => Some(FormatInt(i))
    case PyFloat(t) => Some(t)
    case _ => None
  }

  /** An HSET mapping encoded field by field; None as soon as one value is refused. */
  function EncodeMapping(entries: seq<(string, PyValue)>): (r: Option<map<string, string>>)
    ensures r.Some? <==> forall i :: 0 <= i < |entries| ==> RedisEncode(entries[i].1).Some?
    ensures r.Some? ==> forall k :: k in r.value <==> Lookup(entries, k).Some?
    ensures r.Some? ==> forall k :: k in r.value ==> Some(r.value[k]) == RedisEncode(Lookup(entries, k).value)
  {
    if entries == [] then Some(map[])
    else
      var rest := EncodeMapping(entries[1..]);
      var head := RedisEncode(entries[0].1);
      assert forall i :: 1 <= i < |entries| ==> entries[i] == entries[1..][i - 1];
      if rest.Some? && head.Some? then Some(rest.value[entries[0].0 := head.value])
      else None
  }

  // ------------------------------------------------------------------ convert_for_redis

  /** A value with no UUID, datetime or tuple left anywhere inside it. */
  predicate RedisReady(v: PyValue)
  {
    match v
    case PyUuid(_) => false
    case PyDateTime(_) => false
    case PyTuple(_) => false
    case PyList(items) => forall i :: 0 <= i < |items| ==> RedisReady(items[i])
    case PyDict(es) => forall i :: 0 <= i < |es| ==> RedisReady(es[i].1)
    case _ => true
  }

  /** `convert_value`: a UUID becomes its hex text, a datetime its timestamp, a dict is
      converted entry by entry, a list or tuple becomes a list of converted items, and
      anything else is returned as it is. */
  function ConvertValue(v: PyValue): (r: PyValue)
    ensures RedisReady(r)
    ensures !(v.PyUuid? || v.PyDateTime? || v.PyDict? || v.PyList? || v.PyTuple?) ==> r == v
    ensures v.PyUuid? ==> r == PyStr(v.hex)
    ensures v.PyDateTime? ==> r == PyFloat(v.timestamp)
    ensures v.PyDict? ==> r.PyDict? && |r.entries| == |v.entries|
    ensures v.PyDict? ==> forall i :: 0 <= i < |v.entries| ==> r.entries[i] == (v.entries[i].0, ConvertValue(v.entries[i].1))
    ensures v.PyList? ==> r.PyList? && |r.items| == |v.items|
    ensures v.PyList? ==> forall i :: 0 <= i < |v.items| ==> r.items[i] == ConvertValue(v.items[i])
    ensures v.PyTuple? ==> r.PyList? && |r.items| == |v.elems|
    ensures v.PyTuple? ==> forall i :: 0 <= i < |v.elems| ==> r.items[i] == ConvertValue(v.elems[i])
  {
    match v
    case PyUuid(h) => PyStr(h)
    case PyDateTime(t) => PyFloat(t)
    case PyDict(es) => PyDict(seq(|es|, i requires 0 <= i < |es| => (es[i].0, ConvertValue(es[i].1))))
    case PyList(items) => PyList(seq(|items|, i requires 0 <= i < |items| => ConvertValue(items[i])))
    case PyTuple(items) => PyList(seq(|items|, i requires 0 <= i < |items| => ConvertValue(items[i])))
    case _ => v
  }

  /** `convert_for_redis`: the same keys in the same order, each value converted. */
  function ConvertEntries(es: seq<(string, PyValue)>): (r: seq<(string, PyValue)>)
    ensures Keys(r) == Keys(es)
    ensures forall i :: 0 <= i < |es| ==> r[i].1 == ConvertValue(es[i].1)
  {
    ConvertValue(PyDict(es)).entries
  }

  /** A converted value is left alone by a second conversion, so conversion is idempotent. */
  lemma {:induction false} ConvertReadyIdentity(v: PyValue)
    requires RedisReady(v)
    ensures ConvertValue(v) == v
  {
    match v
    case PyList(items) =>
      forall i | 0 <= i < |items| ensures ConvertValue(items[i]) == items[i] {
        ConvertReadyIdentity(items[i]);
      }
      assert ConvertValue(v).items == items;
    case PyDict(es) =>
      forall i | 0 <= i < |es| ensures (es[i].0, ConvertValue(es[i].1)) == es[i] {
        ConvertReadyIdentity(es[i].1);
      }
      assert ConvertValue(v).entries == es;
    case _ =>
  }

  lemma ConvertIdempotent(es: seq<(string, PyValue)>)
    ensures ConvertEntries(ConvertEntries(es)) == ConvertEntries(es)
  {
    var once := ConvertEntries(es);
    forall i | 0 <= i < |once| ensures (once[i].0, ConvertValue(once[i].1)) == once[i] {
      ConvertReadyIdentity(once[i].1);
    }
  }
}
