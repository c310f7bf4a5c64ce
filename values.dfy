/**
 * Values shared by every part of the model: the Option and Result wrappers
 * used for Python's `None` results and raised exceptions, the dynamic Python
 * values that argument checks inspect, and counting of the stream's
 * skipped-sample marker.
 */
module Values {

  datatype Option<+T> = None | Some(value: T)

  datatype Result<+T, +E> = Ok(value: T) | Err(error: E)

  /** A Python value, as far as the modelled code inspects it (truthiness, isinstance, equality). */
  datatype PyValue =
    | PyNone
    | PyBool(b: bool)
    | PyInt(i: int)
    | PyFloat(f: real)
    | PyStr(s: string)
    | PyOther

  /** Python truthiness of a value (`if value:`); any other object is truthy. */
  predicate Truthy(v: PyValue)
  {
    match v
    case PyNone => false
    case PyBool(b) => b
    case PyInt(i) => i != 0
    case PyFloat(f) => f != 0.0
    case PyStr(s) => |s| > 0
    case PyOther => true
  }

  /** One register or library-setting write, as issued to the LabJack library. */
  datatype Write = Write(register: string, value: real)

  /** The value the LabJack stream puts in place of a sample it could not deliver. */
  const SkipMarker: real := -9999.0

  /** Number of occurrences of `x` in `s` (Python's `list.count`). */
  function CountOf(s: seq<real>, x: real): (c: nat)
    ensures c <= |s|
    ensures c == 0 <==> forall j :: 0 <= j < |s| ==> s[j] != x
  {
    if s == [] then 0 else (if s[0] == x then 1 else 0) + CountOf(s[1..], x)
  }

  lemma {:induction false} CountOfAppend(a: seq<real>, b: seq<real>, x: real)
    ensures CountOf(a + b, x) == CountOf(a, x) + CountOf(b, x)
  {
    if a == [] {
      assert a + b == b;
    } else {
      assert (a + b)[1..] == a[1..] + b;
      CountOfAppend(a[1..], b, x);
    }
  }

  function Min(a: int, b: int): (m: int)
    ensures m <= a && m <= b && (m == a || m == b)
  {
    if a <= b then a else b
  }
}
