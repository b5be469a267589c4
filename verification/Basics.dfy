/** Vocabulary shared by the models. */
module Basics {

  /** One octet, and one 16-bit PCM sample. */
  type Byte = x: int | 0 <= x < 0x100
  type Sample = x: int | -0x8000 <= x < 0x8000

  datatype Option<+T> = None | Some(value: T)

  function Min(a: int, b: int): int { if a <= b then a else b }

  function Max(a: int, b: int): int { if a <= b then b else a }

  function Abs(a: int): nat { if a < 0 then -a else a }
}
