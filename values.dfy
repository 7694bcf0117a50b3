/** Values shared by every component: the failure wrappers that stand for the
    exceptions the services raise, and the dynamically typed scalars that the
    services keep in their dictionaries (chunk metadata, vector payloads,
    chat messages). */
module Values {

  datatype Option<+T> = None | Some(value: T)

  /** The Python exceptions that reach a caller of the modelled core. */
  datatype Error =
    | ValueError(message: string)
    | AttributeError(message: string)
    | ZeroDivisionError

  datatype Result<+T> = Ok(value: T) | Err(error: Error)

  /** A scalar stored in a dictionary: JSON null, a boolean, an integer or a string. */
  datatype Value = VNone | VBool(b: bool) | VInt(i: int) | VStr(s: string)

  /** Python's `==` on two scalars: structural, except that a boolean equals
      the integer it stands for (`True == 1`, `False == 0`). */
  predicate PyEq(a: Value, b: Value)
  {
    a == b
    || (a.VBool? && b.VInt? && b.i == (if a.b then 1 else 0))
    || (a.VInt? && b.VBool? && a.i == (if b.b then 1 else 0))
  }

  /** A string-keyed dictionary such as a chunk's metadata or a chat message. */
  type Dict = map<string, Value>

  /** `d.get(k)`: the stored value, or None when the key is missing. */
  function Get(d: Dict, k: string): (v: Value)
    ensures k !in d ==> v == VNone
    ensures k in d ==> v == d[k]
  {
    if k in d then d[k] else VNone
  }

  /** `d.get(k, default)`. */
  function GetOr(d: Dict, k: string, default: Value): (v: Value)
    ensures k !in d ==> v == default
    ensures k in d ==> v == d[k]
  {
    if k in d then d[k] else default
  }

  /** Decimal digits of a natural number, most significant first. */
  function NatToString(n: nat): (s: string)
    ensures |s| >= 1
    ensures forall i :: 0 <= i < |s| ==> '0' <= s[i] <= '9'
    decreases n
  {
    var d := [('0' as int + n % 10) as char];
    if n < 10 then d else NatToString(n / 10) + d
  }

  /** Python's `str(i)` for an integer. */
  function IntToString(i: int): (s: string)
    ensures |s| >= 1
    ensures (i < 0) <==> s[0] == '-'
  {
    if i < 0 then "-" + NatToString(-i) else NatToString(i)
  }

  /** Python's `str(v)` (also what an f-string inserts). */
  function Render(v: Value): string
  {
    match v
    case VNone => "None"
    case VBool(b) => if b then "True" else "False"
    case VInt(i) => IntToString(i)
    case VStr(s) => s
  }
}
