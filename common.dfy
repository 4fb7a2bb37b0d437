/** Value types shared by every module: Python values as the setters receive
    them, the exceptions the modelled code raises, results, and per-component
    mass maps. */
module Common {

  datatype Option<T> = None | Some(value: T)

  /** The Python exception classes raised by the modelled code. */
  datatype Error =
    | ValueError
    | TypeError
    | AttributeError
    | AssertionError
    | RuntimeError
    | IndexError
    | KeyError
    | ZeroDivisionError
    | UndefinedComponent(id: string)

  datatype Result<T> = Ok(value: T) | Err(error: Error)

  /** The result of an operation that returns nothing but may raise. */
  datatype Outcome = Pass | Fail(error: Error)

  /** A dynamically typed Python value: None, a bool, a number or a string. */
  datatype PyValue = PyNone | PyBool(b: bool) | PyNum(r: real) | PyStr(s: string)

  /** Python truthiness. */
  predicate Truthy(v: PyValue)
  {
    match v
    case PyNone => false
    case PyBool(b) => b
    case PyNum(r) => r != 0.0
    case PyStr(s) => s != ""
  }

  /** `float(v)`: numbers and booleans convert; None raises, and so does every
      string (strings that spell a number are not modelled). */
  function AsFloat(v: PyValue): Option<real>
  {
    match v
    case PyBool(b) => Some(if b then 1.0 else 0.0)
    case PyNum(r) => Some(r)
    case _ => None
  }

  /** Python's `v == 0` (False == 0 holds in Python). */
  predicate EqualsZero(v: PyValue)
  {
    AsFloat(v) == Some(0.0)
  }

  /** Python's `v == 1` (True == 1 holds in Python). */
  predicate EqualsOne(v: PyValue)
  {
    AsFloat(v) == Some(1.0)
  }

  /** Per-component masses of a stream, keyed by component ID; an ID that is
      absent carries no mass. */
  type Masses = map<string, real>

  function At(m: Masses, id: string): real
  {
    if id in m then m[id] else 0.0
  }

  function Sum(xs: seq<real>): real
  {
    if xs == [] then 0.0 else Sum(xs[..|xs| - 1]) + xs[|xs| - 1]
  }

  /** True when `s` starts with the character `c` followed by an underscore
      (`s.startswith('i_')` for c == 'i'). */
  predicate HasPrefix(s: string, c: char)
  {
    |s| >= 2 && s[0] == c && s[1] == '_'
  }

  predicate Distinct<T(==)>(xs: seq<T>)
  {
    forall i, j :: 0 <= i < j < |xs| ==> xs[i] != xs[j]
  }

  /** Python's `str.isnumeric`, restricted to ASCII digits: true for a
      non-empty string of digits. */
  predicate IsNumeric(s: string)
  {
    |s| > 0 && forall i :: 0 <= i < |s| ==> '0' <= s[i] <= '9'
  }
  /** `math.ceil`: the least integer not below `x`. */
  function Ceil(x: real): (r: int)
    ensures r as real - 1.0 < x <= r as real
  {
    -((-x).Floor)
  }

  /** `float(v)` as a setter applies it: numbers and booleans convert, None
      raises `TypeError` and a string raises `ValueError` (strings that spell
      a number are not modelled). */
  function FloatOf(v: PyValue): (r: Result<real>)
    ensures r.Ok? <==> AsFloat(v).Some?
    ensures r.Ok? ==> Some(r.value) == AsFloat(v)
    ensures v.PyNone? ==> r == Err(TypeError)
    ensures v.PyStr? ==> r == Err(ValueError)
  {
    match v
    case PyNone => Err(TypeError)
    case PyStr(_) => Err(ValueError)
    case _ => Ok(AsFloat(v).value)
  }
  /** An inlet waste stream as the unit operations read it: its masses, the
      COD concentration set on it (`_COD`, None when unset), and the
      aggregates computed by code outside this model: COD concentration
      (mg/L), total nitrogen (mg/L) and volumetric flow (m3/hr). */
  datatype Waste = Waste(imass: Masses, codSlot: Option<real>, cod: real, tn: real, fVol: real)

  // Sign facts about products, which the solver does not find on its own.

  lemma MulNonNegative(x: real, y: real)
    requires x >= 0.0 && y >= 0.0
    ensures x * y >= 0.0
  {
  }

  lemma MulNegative(x: real, y: real)
    requires x < 0.0 && y > 0.0
    ensures x * y < 0.0
  {
  }

  lemma MulMonotone(x: real, y: real, z: real)
    requires x > y && z > 0.0
    ensures x * z > y * z
  {
  }
}
