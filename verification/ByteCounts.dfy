/** Byte counts by direction. */
module ByteCounts {
  datatype Bytes = Bytes(up: int, down: int)

  const ZERO := Bytes(0, 0)

  function Plus(a: Bytes, b: Bytes): Bytes { Bytes(a.up + b.up, a.down + b.down) }

  function Minus(a: Bytes, b: Bytes): Bytes { Bytes(a.up - b.up, a.down - b.down) }

  predicate Reaches(a: Bytes, b: Bytes) { a.up <= b.up && a.down <= b.down }
}
