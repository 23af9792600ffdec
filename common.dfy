/** Types shared by every part of the engine model: optional values, results
    carrying a script-visible error, bytes, RGBA colours and 32-bit C integers. */
module Common {

  datatype Option<T> = None | Some(value: T)

  datatype Result<T> = Ok(value: T) | Err(error: JsError)

  /** The error classes the engine raises into the script layer. */
  datatype JsError = Error | RangeError | ReferenceError | TypeError

  /** An unsigned 8-bit value (C `uint8_t`). */
  type Byte = x: int | 0 <= x < 256

  /** An RGBA colour with one byte per channel (the engine's `color_t`). */
  datatype Color = Color(r: Byte, g: Byte, b: Byte, alpha: Byte)

  const OPAQUE_WHITE: Color := Color(255, 255, 255, 255)

  const INT_MAX: int := 0x7FFF_FFFF
  const INT_MIN: int := -0x8000_0000

  predicate IsInt32(x: int) {
    INT_MIN <= x <= INT_MAX
  }

  /** Two's-complement wrap-around of a mathematical integer into C `int`. */
  function Wrap32(x: int): (r: int)
    ensures IsInt32(r)
    ensures (r - x) % 0x1_0000_0000 == 0
    ensures IsInt32(x) ==> r == x
  {
    var m := x % 0x1_0000_0000;
    if m > INT_MAX then m - 0x1_0000_0000 else m
  }
}
