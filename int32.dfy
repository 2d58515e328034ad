/** C#'s `int`: a 32-bit two's-complement integer whose `-` wraps around
    (the scripts are compiled without `checked` arithmetic). */
module Int32 {

  const Modulus: int := 0x1_0000_0000

  newtype int32 = x: int | -0x8000_0000 <= x < 0x8000_0000

  /** The 32-bit value congruent to `x` modulo 2^32: what an unchecked C#
      subtraction leaves in the destination variable. */
  function Wrap(x: int): (r: int32)
    ensures (x - r as int) % Modulus == 0
    ensures -0x8000_0000 <= x < 0x8000_0000 ==> r as int == x
  {
    var m := (x + 0x8000_0000) % Modulus;
    (m - 0x8000_0000) as int32
  }

  /** `a - b` as C# evaluates it on two `int` operands. */
  function Sub(a: int32, b: int32): (r: int32)
    ensures (a as int - b as int - r as int) % Modulus == 0
    ensures -0x8000_0000 <= a as int - b as int < 0x8000_0000 ==> r as int == a as int - b as int
  {
    Wrap(a as int - b as int)
  }
}
