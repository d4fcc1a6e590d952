/** Small numbers and words that several modules speak of. */
module Numbers {

  /** One more than the largest 64-bit word. */
  const WORD: nat := 0x1_0000_0000_0000_0000

  function Min(a: int, b: int): int { if a < b then a else b }

  function Max(a: int, b: int): int { if a < b then b else a }

  /** For counting how many of several conditions hold. */
  function One(b: bool): nat { if b then 1 else 0 }
}
