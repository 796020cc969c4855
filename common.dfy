/** Shared vocabulary: optional values, bytes, clamping and 16-bit reinterpretation. */
module Common {

  /** A value that may be missing (a null pointer, a failed read). */
  datatype Option<T> = None | Some(value: T)

  /** An unsigned 8-bit value (`uint8_t`). */
  type Byte = b: int | 0 <= b < 256

  /** `std::clamp(v, lo, hi)` for an ordered range. */
  function Clamp(v: int, lo: int, hi: int): (r: int)
    requires lo <= hi
    ensures lo <= r <= hi
    ensures lo <= v <= hi ==> r == v
    ensures v < lo ==> r == lo
    ensures hi < v ==> r == hi
  {
    if v < lo then lo else if hi < v then hi else v
  }

  /** Converting an `int` in [0, 65536) to `int16_t`: the two's-complement reading of 16 bits. */
  function ToInt16(w: int): (r: int)
    requires 0 <= w < 0x1_0000
    ensures -0x8000 <= r < 0x8000
    ensures (r - w) % 0x1_0000 == 0
    ensures w < 0x8000 <==> r >= 0
  {
    if w < 0x8000 then w else w - 0x1_0000
  }

  /** The 16-bit pattern of an `int16_t`: the inverse of ToInt16. */
  function FromInt16(r: int): (w: int)
    requires -0x8000 <= r < 0x8000
    ensures 0 <= w < 0x1_0000
    ensures ToInt16(w) == r
  {
    if r >= 0 then r else r + 0x1_0000
  }

  /**
   * `(hi << 8) | lo` for two bytes, computed in `int`: the shifted byte has no bits below 8,
   * so the or is an addition.
   */
  function Word16(hi: Byte, lo: Byte): (w: int)
    ensures 0 <= w < 0x1_0000
    ensures w / 0x100 == hi && w % 0x100 == lo
  {
    hi * 0x100 + lo
  }

  /** Splitting a 16-bit word into its bytes and joining them again gives the word back. */
  lemma Word16Split(w: int)
    requires 0 <= w < 0x1_0000
    ensures 0 <= w / 0x100 < 0x100 && Word16(w / 0x100, w % 0x100) == w
  {
  }

  /** The magnitude of an integer. */
  function Abs(v: int): (r: nat)
    ensures r == v || r == -v
  {
    if v < 0 then -v else v
  }

  /** Highest BCM GPIO number on the Raspberry Pi header. */
  const MAX_GPIO_PIN: int := 27

  /** The pin range every registry accepts (0..27). */
  predicate ValidPin(pin: int)
  {
    0 <= pin <= MAX_GPIO_PIN
  }
}
