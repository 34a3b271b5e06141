/**
 * Machine-level value types shared by the whole model: bytes, 32-bit
 * unsigned words (the width of `unsigned` and `unsigned long` on the
 * Emscripten target the emulator is built for), wrap-around arithmetic on
 * them, and an Option type that stands for a possibly-null pointer.
 */
module Words {

  /** 2^32: the modulus of `unsigned long` arithmetic. */
  const Modulus: int := 0x1_0000_0000

  /** An `unsigned char`. */
  type Byte = x: int | 0 <= x < 0x100

  /** An `unsigned` / `unsigned long` value. */
  type Word = x: int | 0 <= x < 0x1_0000_0000

  /** `disabled_time`: the time of an event that is not scheduled. */
  const DisabledTime: Word := 0xFFFF_FFFF

  datatype Option<T> = None | Some(value: T)

  /** Wrap an unbounded integer into a word, as C's unsigned conversion does. */
  function Wrap(x: int): Word {
    x % Modulus
  }

  /** `a + b` in unsigned arithmetic. */
  function Add(a: Word, b: Word): (r: Word)
    ensures a + b < Modulus ==> r == a + b
    ensures a + b >= Modulus ==> r == a + b - Modulus
  {
    Wrap(a + b)
  }

  /** `a - b` in unsigned arithmetic. */
  function Sub(a: Word, b: Word): (r: Word)
    ensures b <= a ==> r == a - b
    ensures a < b ==> r == a - b + Modulus
  {
    Wrap(a - b)
  }

  /** `a * b` in unsigned arithmetic. */
  function Mul(a: Word, b: Word): Word {
    Wrap(a * b)
  }

  /** `x << s` for a shift count of 0 or 1 (a bool converted to int). */
  function Shl(x: Word, s: bool): Word {
    if s then Wrap(2 * x) else x
  }

  /** `x >> s` for a shift count of 0 or 1. */
  function Shr(x: Word, s: bool): (r: Word)
    ensures r <= x
  {
    if s then x / 2 else x
  }

  /** Conversion of an unsigned word to a 32-bit `long` (two's complement). */
  function ToLong(x: Word): (r: int)
    ensures -0x8000_0000 <= r < 0x8000_0000
    ensures Wrap(r) == x
  {
    if x < 0x8000_0000 then x else x - Modulus
  }
}
