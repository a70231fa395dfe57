/**
 * The Python values the export code inspects: `None`, strings, integers and
 * booleans, with Python's truthiness, the `a or b` operator, and lookups in a
 * dict-like source (`dict.get` / `getattr`) that yield `None` for a missing key.
 */
module PyValue {
  import opened Wrappers
  import opened Text

  datatype Value = VNone | VStr(s: string) | VInt(i: int) | VBool(b: bool)

  /** Python's `bool(v)`. */
  predicate Truthy(v: Value) {
    match v
    case VNone => false
    case VStr(s) => s != ""
    case VInt(i) => i != 0
    case VBool(b) => b
  }

  /** Python's `a or b`. */
  function Or(a: Value, b: Value): (r: Value)
    ensures Truthy(r) <==> Truthy(a) || Truthy(b)
    ensures Truthy(a) ==> r == a
    ensures !Truthy(a) ==> r == b
  {
    if Truthy(a) then a else b
  }

  /** A dict or object passed as a parameter source; `None` is Python's `None`. */
  type Source = Option<map<string, Value>>

  /** `not source`: `None` or an empty dict. */
  predicate SourceFalsy(source: Source) {
    source.None? || source.value == map[]
  }

  /** `source.get(key)` / `getattr(source, key)` with a missing key read as `None`. */
  function Get(m: map<string, Value>, key: string): Value {
    if key in m then m[key] else VNone
  }

  /** Strings are stripped before their presence is decided; other values are kept. */
  function Stripped(v: Value): (r: Value)
    ensures r.VStr? ==> Trimmed(r.s)
    ensures !v.VStr? ==> r == v
  {
    if v.VStr? then VStr(Strip(v.s)) else v
  }

  /** `value not in (None, "")`: a falsy value such as `0` or `False` still counts. */
  predicate Present(v: Value) {
    v != VNone && v != VStr("")
  }

  /** The stripped value under `key`. */
  function StrippedAt(m: map<string, Value>, key: string): Value {
    Stripped(Get(m, key))
  }

  /**
   * The lookup loop shared by `_safe_get_value` and `_get_param_value`:
   * the stripped value of the first key whose stripped value is present.
   */
  function FirstPresent(m: map<string, Value>, keys: seq<string>): (r: Option<Value>)
    ensures r.Some? ==> Present(r.value)
    ensures r.Some? && r.value.VStr? ==> Trimmed(r.value.s)
    decreases |keys|
  {
    if keys == [] then None
    else
      var v := StrippedAt(m, keys[0]);
      if Present(v) then Some(v) else FirstPresent(m, keys[1..])
  }

  /** `FirstPresent` finds nothing exactly when no key holds a present value. */
  lemma {:induction false} FirstPresentNone(m: map<string, Value>, keys: seq<string>)
    ensures FirstPresent(m, keys).None? <==>
            forall i :: 0 <= i < |keys| ==> !Present(StrippedAt(m, keys[i]))
    decreases |keys|
  {
    if keys != [] {
      FirstPresentNone(m, keys[1..]);
      assert forall i :: 1 <= i < |keys| ==> keys[i] == keys[1..][i - 1];
    }
  }

  /** What `FirstPresent` finds is the value of the first key that qualifies. */
  lemma {:induction false} FirstPresentFirst(m: map<string, Value>, keys: seq<string>) returns (k: nat)
    requires FirstPresent(m, keys).Some?
    ensures k < |keys| && FirstPresent(m, keys).value == StrippedAt(m, keys[k])
    ensures forall j :: 0 <= j < k ==> !Present(StrippedAt(m, keys[j]))
    decreases |keys|
  {
    if Present(StrippedAt(m, keys[0])) {
      k := 0;
    } else {
      var k' := FirstPresentFirst(m, keys[1..]);
      k := k' + 1;
      assert forall j :: 1 <= j < k ==> keys[j] == keys[1..][j - 1];
    }
  }

  /** The first truthy value of `vs`, or `fallback` when none is truthy. */
  function FirstTruthy(vs: seq<Value>, fallback: Value): (r: Value)
    ensures (exists i :: 0 <= i < |vs| && Truthy(vs[i])) ==> Truthy(r)
    ensures (forall i :: 0 <= i < |vs| ==> !Truthy(vs[i])) ==> r == fallback
    decreases |vs|
  {
    if vs == [] then fallback
    else if Truthy(vs[0]) then vs[0]
    else
      assert forall i :: 1 <= i < |vs| ==> vs[i] == vs[1..][i - 1];
      FirstTruthy(vs[1..], fallback)
  }

  /** A truthy result is the first truthy value of `vs`. */
  lemma {:induction false} FirstTruthyFirst(vs: seq<Value>, fallback: Value) returns (k: nat)
    requires exists i :: 0 <= i < |vs| && Truthy(vs[i])
    ensures k < |vs| && Truthy(vs[k]) && FirstTruthy(vs, fallback) == vs[k]
    ensures forall j :: 0 <= j < k ==> !Truthy(vs[j])
    decreases |vs|
  {
    if Truthy(vs[0]) {
      k := 0;
    } else {
      var i :| 0 <= i < |vs| && Truthy(vs[i]);
      assert vs[1..][i - 1] == vs[i];
      var k' := FirstTruthyFirst(vs[1..], fallback);
      k := k' + 1;
      assert forall j :: 1 <= j < k ==> vs[j] == vs[1..][j - 1];
    }
  }
}
