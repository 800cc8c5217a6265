/** Bytes, the size constants of the socket manager, and small shared helpers. */
module Base {
  newtype byte = x: int | 0 <= x < 256

  const RING_BUFFER_SIZE: nat := 256 * 1024
  const MIN_MSG_BUFFER_SIZE: nat := 1024 * 8
  const MAX_MSG_BUFFER_SIZE: nat := 1024 * 1024 * 8

  datatype Option<+T> = None | Some(value: T)

  function Min(a: int, b: int): int { if a <= b then a else b }

  function Max(a: int, b: int): int { if a >= b then a else b }
}
