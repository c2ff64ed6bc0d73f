/** Small value types shared by every model module: optional values, the
    fixed-width unsigned integers the C source uses, and byte strings. */
module Common {

  datatype Option<+T> = None | Some(value: T)

  type byte = bv8

  /** The bytes a buffer holds, from its read position to its end. */
  type Bytes = seq<byte>

  const UINT16_LIMIT: int := 0x1_0000
  const UINT32_LIMIT: int := 0x1_0000_0000

  type uint16 = x: int | 0 <= x < UINT16_LIMIT
  type uint32 = x: int | 0 <= x < UINT32_LIMIT

  function Min(a: int, b: int): (m: int)
    ensures m <= a && m <= b
    ensures m == a || m == b
  {
    if a <= b then a else b
  }

  lemma SeqAssoc<T>(a: seq<T>, b: seq<T>, c: seq<T>)
    ensures a + b + c == a + (b + c)
  {
  }

  function Max(a: int, b: int): (m: int)
    ensures m >= a && m >= b
    ensures m == a || m == b
  {
    if a >= b then a else b
  }

  /** C's conversion of an int to `uint16_t`: reduction modulo 2^16. */
  function ToUint16(x: int): (r: uint16)
    ensures 0 <= x < UINT16_LIMIT ==> r == x
    ensures (r - x) % UINT16_LIMIT == 0
  {
    x % UINT16_LIMIT
  }

  /** C's `/` on `int`: the quotient truncated toward zero. */
  function CDiv(a: int, b: int): (q: int)
    requires b > 0
    ensures a >= 0 ==> q == a / b
    ensures a < 0 ==> q == -((-a) / b)
  {
    if a >= 0 then a / b else -((-a) / b)
  }

  /** C's `%` on `int`: the remainder takes the sign of the dividend. */
  function CRem(a: int, b: int): (r: int)
    requires b > 0
    ensures CDiv(a, b) * b + r == a
    ensures -b < r < b
    ensures a >= 0 ==> r >= 0
    ensures a <= 0 ==> r <= 0
  {
    a - CDiv(a, b) * b
  }

  /** The index of the first true flag, or `|flags|` when none is. */
  function FirstTrue(flags: seq<bool>): (k: nat)
    ensures k <= |flags|
    ensures forall i :: 0 <= i < k ==> !flags[i]
    ensures k < |flags| ==> flags[k]
  {
    if |flags| == 0 then 0
    else if flags[0] then 0
    else 1 + FirstTrue(flags[1..])
  }
}
