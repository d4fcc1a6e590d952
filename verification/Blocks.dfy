/** How element indices fall into blocks. */
module Blocks {

  const BLOCK_SIZE: nat := 32

  /** How many blocks hold the first n elements. */
  function BlocksFor(n: nat): nat { (n + BLOCK_SIZE - 1) / BLOCK_SIZE }

  /** The block of element index i, and its cell in that block. */
  function BlockOf(i: nat): nat { i / BLOCK_SIZE }

  function CellOf(i: nat): nat { i % BLOCK_SIZE }
}
