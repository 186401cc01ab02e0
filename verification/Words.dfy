// Machine words of the firmware and of the host driver, modelled as bounded
// mathematical integers with their wrap-around written out.
module Words {
  type U8 = x: int | 0 <= x < 0x100
  type U16 = x: int | 0 <= x < 0x1_0000
  type U32 = x: int | 0 <= x < 0x1_0000_0000
  type I32 = x: int | -0x8000_0000 <= x < 0x8000_0000

  function Inc8(x: U8): U8 { if x == 0xFF then 0 else x + 1 }

  function Inc32(x: U32): U32 { if x == 0xFFFF_FFFF then 0 else x + 1 }

  // The C cast (uint16_t)x of a 32-bit counter.
  function Low16(x: U32): U16 { x % 0x1_0000 }

  // Unsigned subtraction as the C compiler performs it.
  function Sub16(a: U16, b: U16): U16 { if a >= b then a - b else a - b + 0x1_0000 }

  function Sub32(a: U32, b: U32): U32 { if a >= b then a - b else a - b + 0x1_0000_0000 }

  datatype Option<T> = None | Some(value: T)
}
