/**
 * The Python values that flow between the agent and its tools: the keyword
 * arguments the agent parses out of an action and the dicts the tool
 * functions return. A dict is an association list in insertion order with
 * distinct keys, as a Python `dict` is.
 */
module PyValues {
  import opened Wrappers
  import opened Text

  datatype PyValue =
    | PyNone
    | PyBool(b: bool)
    | PyInt(i: int)
    | PyStr(s: string)
    | PyList(items: seq<PyValue>)
    | PyDict(entries: seq<(string, PyValue)>)

  type Dict = seq<(string, PyValue)>

  /** `list(d.keys())`. */
  function Keys(d: Dict): seq<string> {
    if d == [] then [] else [d[0].0] + Keys(d[1..])
  }

  predicate HasKey(d: Dict, key: string) {
    exists k :: 0 <= k < |d| && d[k].0 == key
  }

  lemma HasKeyCons(d: Dict, key: string)
    requires d != []
    ensures HasKey(d, key) <==> d[0].0 == key || HasKey(d[1..], key)
  {
    if HasKey(d, key) && d[0].0 != key {
      var k :| 0 <= k < |d| && d[k].0 == key;
      assert d[1..][k - 1].0 == key;
    }
    if HasKey(d[1..], key) {
      var k :| 0 <= k < |d[1..]| && d[1..][k].0 == key;
      assert d[k + 1].0 == key;
    }
  }

  /** `key in d` and `d[key]`, as `d.get(key)` without a default. */
  function Get(d: Dict, key: string): (r: Option<PyValue>)
    ensures r.None? <==> !HasKey(d, key)
    ensures r.Some? ==> exists k :: 0 <= k < |d| && d[k] == (key, r.value)
  {
    if d == [] then None
    else if d[0].0 == key then Some(d[0].1)
    else
      var r := Get(d[1..], key);
      HasKeyCons(d, key);
      assert r.Some? ==> exists k :: 0 <= k < |d| && d[k] == (key, r.value) by {
        if r.Some? {
          var k :| 0 <= k < |d[1..]| && d[1..][k] == (key, r.value);
          assert d[k + 1] == (key, r.value);
        }
      }
      r
  }

  /** The value under the first entry with this key. */
  lemma {:induction false} GetAt(d: Dict, k: nat, key: string)
    requires k < |d| && d[k].0 == key
    requires forall j :: 0 <= j < k ==> d[j].0 != key
    ensures Get(d, key) == Some(d[k].1)
  {
    if k > 0 {
      GetAt(d[1..], k - 1, key);
    }
  }

  /** `d.get(key, default)`. */
  function GetOrDefault(d: Dict, key: string, default: PyValue): (r: PyValue)
    ensures !HasKey(d, key) ==> r == default
    ensures HasKey(d, key) ==> Get(d, key) == Some(r)
  {
    Get(d, key).GetOr(default)
  }

  /** `d[key] = v`: an existing key keeps its position and takes the new value; a new key goes last. */
  function Put(d: Dict, key: string, v: PyValue): (r: Dict)
    ensures Get(r, key) == Some(v)
  {
    if d == [] then [(key, v)]
    else if d[0].0 == key then [(key, v)] + d[1..]
    else [d[0]] + Put(d[1..], key, v)
  }

  /** `d[key] = v` keeps the key order: an existing key stays where it is, a new key is appended. */
  lemma {:induction false} PutKeys(d: Dict, key: string, v: PyValue)
    ensures HasKey(d, key) ==> Keys(Put(d, key, v)) == Keys(d)
    ensures !HasKey(d, key) ==> Keys(Put(d, key, v)) == Keys(d) + [key]
  {
    if d != [] {
      HasKeyCons(d, key);
      if d[0].0 != key {
        PutKeys(d[1..], key, v);
        assert Put(d, key, v)[1..] == Put(d[1..], key, v);
        if !HasKey(d, key) {
          assert Keys(d) + [key] == [d[0].0] + (Keys(d[1..]) + [key]);
        }
      } else {
        assert Put(d, key, v)[1..] == d[1..];
      }
    }
  }

  /** Writing one key leaves every other key's value as it was. */
  lemma {:induction false} PutOther(d: Dict, key: string, v: PyValue, other: string)
    requires other != key
    ensures Get(Put(d, key, v), other) == Get(d, other)
  {
    if d != [] && d[0].0 != key {
      PutOther(d[1..], key, v, other);
    }
  }

  /** Python truthiness. */
  predicate Truthy(v: PyValue) {
    match v
    case PyNone => false
    case PyBool(b) => b
    case PyInt(i) => i != 0
    case PyStr(s) => s != ""
    case PyList(items) => items != []
    case PyDict(entries) => entries != []
  }

  /**
   * `str(v)`, as an f-string renders it. Scalars are written out; a list or
   * a dict is rendered by `repr`, which is a parameter.
   */
  function Show(v: PyValue, repr: PyValue -> string): (r: string)
    ensures v.PyStr? ==> r == v.s
    ensures v.PyNone? ==> r == "None"
  {
    match v
    case PyNone => "None"
    case PyBool(b) => if b then "True" else "False"
    case PyInt(i) => IntToString(i)
    case PyStr(s) => s
    case _ => repr(v)
  }
}
