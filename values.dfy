/** The Python values that the configuration dictionaries hold. */
module Values {
  import opened Wrappers

  /** A dictionary value: an `int`, a `float` (modelled as `real`) or a `bool`. */
  datatype Value = IntV(i: int) | RealV(r: real) | BoolV(b: bool)

  /** Python's `m.get(k, default)`. */
  function Get<K, V>(m: map<K, V>, k: K, default: V): (r: V)
    ensures k in m ==> r == m[k]
    ensures k !in m ==> r == default
  {
    if k in m then m[k] else default
  }

  /** A Python `dict`: its keys in insertion order and the value of each key. */
  datatype Dict = Dict(keys: seq<string>, values: map<string, Value>)

  /** The keys are listed once each and are exactly the mapped keys. */
  predicate WellFormed(d: Dict) {
    (forall i, j :: 0 <= i < j < |d.keys| ==> d.keys[i] != d.keys[j]) &&
    d.values.Keys == set k | k in d.keys
  }

  function LookupInt(d: Dict, k: string): Option<int> {
    if k in d.values && d.values[k].IntV? then Some(d.values[k].i) else None
  }

  function LookupReal(d: Dict, k: string): Option<real> {
    if k in d.values && d.values[k].RealV? then Some(d.values[k].r) else None
  }

  function LookupBool(d: Dict, k: string): Option<bool> {
    if k in d.values && d.values[k].BoolV? then Some(d.values[k].b) else None
  }
}
