/** The dynamically typed arguments the readout functions receive. The
    Python code tests them with `type(x) is int`, `x in range(1, 7)`,
    `x in ['r', 'a']`, `if x:` and formats them with f-strings; each of
    those tests is stated here for every kind of value it can meet. */
module PyValues {
  import opened Text

  /** A Python value as far as the readout code can tell values apart.
      Floats are represented exactly by reals; only integral ones matter. */
  datatype Value =
    | PyInt(i: int)
    | PyBool(b: bool)
    | PyFloat(x: real)
    | PyStr(s: string)
    | PyList(items: seq<Value>)
    | PyNone

  /** Python truthiness, as used by `if echo:`. */
  predicate Truthy(v: Value) {
    match v
    case PyInt(i) => i != 0
    case PyBool(b) => b
    case PyFloat(x) => x != 0.0
    case PyStr(s) => s != []
    case PyList(items) => items != []
    case PyNone => false
  }

  /** `v in range(1, 6 + 1)`. Membership compares with `==`, so besides the
      integers 1 to 6 it admits `True` (equal to 1) and the floats 1.0 to 6.0. */
  predicate IsChannel(v: Value) {
    match v
    case PyInt(i) => 1 <= i <= 6
    case PyBool(b) => b
    case PyFloat(x) => x.Floor as real == x && 1.0 <= x <= 6.0
    case _ => false
  }

  /** `f'{v}'` for a value that passed the channel test: `3`, `True`, `3.0`. */
  function ChannelText(v: Value): (t: string)
    requires IsChannel(v)
    ensures |t| >= 1 && ' ' !in t && '\n' !in t
  {
    match v
    case PyInt(i) => NatToString(i)
    case PyBool(_) => "True"
    case PyFloat(x) =>
      assert x.Floor >= 1;
      NatToString(x.Floor) + ".0"
  }

  /** Different channel values are written to the board as different text,
      so the command identifies the value that was passed. */
  lemma ChannelTextInjective(a: Value, b: Value)
    requires IsChannel(a) && IsChannel(b)
    requires ChannelText(a) == ChannelText(b)
    ensures a == b
  {
    var t := ChannelText(a);
    match a {
      case PyInt(i) =>
        assert |t| == 1;
        match b {
          case PyInt(j) => NatToStringInjective(i, j);
          case PyBool(_) =>
          case PyFloat(y) =>
        }
      case PyBool(_) =>
        assert t[0] == 'T';
        match b {
          case PyInt(j) =>
          case PyBool(_) =>
          case PyFloat(y) =>
        }
      case PyFloat(x) =>
        var dx := NatToString(x.Floor);
        assert |dx| == 1;
        match b {
          case PyInt(j) =>
          case PyBool(_) =>
          case PyFloat(y) =>
            var dy := NatToString(y.Floor);
            assert |dy| == 1;
            assert dx[0] == t[0] == dy[0];
            assert dx == dy;
            NatToStringInjective(x.Floor, y.Floor);
        }
    }
  }
}
