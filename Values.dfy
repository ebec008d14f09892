/** Value types shared by every part of the model: optional values, results
    with an error side, and the Python values (dicts, lists and scalars) that
    the system passes around as tool inputs, tool results and payloads. */
module Values {

  datatype Option<+T> = None | Some(value: T)

  datatype Result<+T, +E> = Ok(value: T) | Err(error: E)

  /** A Python value as the system handles it: JSON-like data plus `Decimal`.
      A dict is an ordered list of entries (Python dicts keep insertion order). */
  datatype PyValue =
    | PNone
    | PBool(b: bool)
    | PInt(i: int)
    | PFloat(f: real)
    | PDecimal(d: real)
    | PStr(s: string)
    | PList(items: seq<PyValue>)
    | PDict(entries: seq<(string, PyValue)>)

  /** Python truthiness (`if value:`). */
  predicate Truthy(v: PyValue)
  {
    match v
    case PNone => false
    case PBool(b) => b
    case PInt(i) => i != 0
    case PFloat(f) => f != 0.0
    case PDecimal(d) => d != 0.0
    case PStr(s) => s != ""
    case PList(items) => items != []
    case PDict(entries) => entries != []
  }

  /** `d.get(key)` on a dict given as its entries: the value stored under
      the first entry with that key. */
  function DictGet(entries: seq<(string, PyValue)>, key: string): Option<PyValue>
  {
    if entries == [] then None
    else if entries[0].0 == key then Some(entries[0].1)
    else DictGet(entries[1..], key)
  }

  /** A lookup succeeds exactly when some entry has the key, and then it
      returns the value of the first such entry. */
  lemma {:induction false} DictGetFound(entries: seq<(string, PyValue)>, key: string)
    ensures DictGet(entries, key).Some? <==> exists i :: 0 <= i < |entries| && entries[i].0 == key
    ensures DictGet(entries, key).Some? ==>
              exists i :: 0 <= i < |entries| && entries[i] == (key, DictGet(entries, key).value)
                          && forall j :: 0 <= j < i ==> entries[j].0 != key
  {
    if entries != [] && entries[0].0 != key {
      DictGetFound(entries[1..], key);
      assert forall i :: 1 <= i < |entries| ==> entries[i] == entries[1..][i - 1];
      if DictGet(entries, key).Some? {
        var i :| 0 <= i < |entries[1..]| && entries[1..][i] == (key, DictGet(entries, key).value)
                 && forall j :: 0 <= j < i ==> entries[1..][j].0 != key;
        assert entries[i + 1] == (key, DictGet(entries, key).value);
      }
    }
  }

  /** A string-valued optional argument is truthy when present and non-empty. */
  predicate Given(s: Option<string>)
  {
    s.Some? && s.value != ""
  }
}
