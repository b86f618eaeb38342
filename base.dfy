/** Optional values; `None` stands for Java's `null` wherever the source checks for it. */
module Base {

  datatype Option<+T> = None | Some(value: T)

  function Max(a: int, b: int): int { if a >= b then a else b }

  function Min(a: int, b: int): int { if a <= b then a else b }
}
