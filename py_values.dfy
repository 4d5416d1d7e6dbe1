/**
 * The Python values the runtime helpers handle: decoded JSON (None, bools,
 * integers, floats as reals, strings, lists and string-keyed dicts), Python truthiness, and
 * the subscript and `.get` operations with the exceptions they raise.
 */
module PyValues {
  import opened Wrappers
  import opened Strings

  datatype PyValue =
    | PyNone
    | PyBool(b: bool)
    | PyInt(i: int)
    | PyFloat(x: real)
    | PyStr(s: string)
    | PyList(items: seq<PyValue>)
    | PyDict(entries: map<string, PyValue>)

  /** The exceptions the modelled code can raise while looking into a value. */
  datatype PyError =
    | KeyError(key: string)
    | IndexError
    | TypeError
    | AttributeError

  /** `bool(v)`. */
  predicate Truthy(v: PyValue) {
    match v
    case PyNone => false
    case PyBool(b) => b
    case PyInt(i) => i != 0
    case PyFloat(x) => x != 0.0
    case PyStr(s) => s != []
    case PyList(items) => items != []
    case PyDict(entries) => entries != map[]
  }

  /** `v[key]` with a string key: a dict lookup, a `TypeError` for anything else. */
  function GetItem(v: PyValue, key: string): (r: Result<PyValue, PyError>)
    ensures r.Ok? <==> v.PyDict? && key in v.entries
    ensures r.Ok? ==> r.value == v.entries[key]
    ensures r.Err? ==> r.error == (if v.PyDict? then KeyError(key) else TypeError)
  {
    match v
    case PyDict(entries) => if key in entries then Ok(entries[key]) else Err(KeyError(key))
    case _ => Err(TypeError)
  }

  /**
   * `v[i]` with a non-negative integer index: list and string indexing
   * (a string gives its one-character string), a `KeyError` on a dict (JSON
   * keys are strings, so an integer is never one), a `TypeError` otherwise.
   */
  function GetIndex(v: PyValue, i: nat): (r: Result<PyValue, PyError>)
    ensures r.Ok? <==> (v.PyList? && i < |v.items|) || (v.PyStr? && i < |v.s|)
    ensures r.Ok? && v.PyList? ==> r.value == v.items[i]
    ensures r.Ok? && v.PyStr? ==> r.value == PyStr([v.s[i]])
    ensures v.PyDict? ==> r.Err? && r.error.KeyError?
  {
    match v
    case PyList(items) => if i < |items| then Ok(items[i]) else Err(IndexError)
    case PyStr(s) => if i < |s| then Ok(PyStr([s[i]])) else Err(IndexError)
    case PyDict(_) => Err(KeyError(NatToString(i)))
    case _ => Err(TypeError)
  }

  /** `v.get(key, default)`: only dicts have the method. */
  function DictGet(v: PyValue, key: string, default: PyValue): (r: Result<PyValue, PyError>)
    ensures r.Ok? <==> v.PyDict?
    ensures r.Ok? ==> r.value == if key in v.entries then v.entries[key] else default
    ensures r.Err? ==> r.error == AttributeError
  {
    match v
    case PyDict(entries) => Ok(if key in entries then entries[key] else default)
    case _ => Err(AttributeError)
  }

  /** `{}` */
  const EmptyDict := PyDict(map[])
}
