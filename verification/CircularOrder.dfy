/** Order on 64-bit counters that wrap around.
    The queue keeps every index in an unsigned 64-bit word and compares two of them
    through their wrapped difference.  The other modules use unbounded indices; the
    lemmas here say when the two views agree. */
module CircularOrder {
  import opened Blocks
  import opened ModArithmetic
  import opened Numbers

  const HALF: int := 0x8000_0000_0000_0000

  /** The value an unbounded counter has in a 64-bit word. */
  function Wrap(n: int): (w: nat)
    ensures w < WORD
    ensures exists q: int :: n == q * WORD + w
  {
    assert n == (n / WORD) * WORD + n % WORD;
    n % WORD
  }

  /** `circular_less_than`: the wrapped difference a - b, seen as a negative signed word. */
  predicate CircularLess(a: nat, b: nat)
    requires a < WORD && b < WORD
  {
    Wrap(a - b) > HALF
  }

  /** Wrapping forgets exactly the multiples of the word size. */
  lemma WrapShift(n: int, q: int)
    ensures Wrap(n + q * WORD) == Wrap(n)
  {
    var m := n + q * WORD;
    assert m == (n / WORD + q) * WORD + n % WORD;
    WrapUnique(m, n / WORD + q, n % WORD);
  }

  lemma WrapUnique(n: int, q: int, r: nat)
    requires r < WORD && n == q * WORD + r
    ensures Wrap(n) == r
  {
  }

  /** The wrapped difference of two counters is the wrap of their true difference. */
  lemma WrapDifference(a: int, b: int)
    ensures Wrap(Wrap(a) - Wrap(b)) == Wrap(a - b)
  {
    var qa :| a == qa * WORD + Wrap(a);
    var qb :| b == qb * WORD + Wrap(b);
    assert Wrap(a) - Wrap(b) == (a - b) + (qb - qa) * WORD;
    WrapShift(a - b, qb - qa);
  }

  /** Exactly when the circular comparison answers yes: the true distance from a up to b,
      reduced to one word, is nonzero and below half a word. */
  lemma CircularLessExact(a: int, b: int)
    ensures CircularLess(Wrap(a), Wrap(b)) <==> 0 < Wrap(b - a) < HALF
  {
    WrapDifference(a, b);
    var q :| b - a == q * WORD + Wrap(b - a);
    if Wrap(b - a) == 0 {
      WrapUnique(a - b, -q, 0);
    } else {
      WrapUnique(a - b, -q - 1, WORD - Wrap(b - a));
    }
  }

  /** For counters less than half a word apart the circular comparison is the plain one. */
  lemma CircularLessIsLess(a: int, b: int)
    requires -HALF < b - a < HALF
    ensures CircularLess(Wrap(a), Wrap(b)) <==> a < b
  {
    CircularLessExact(a, b);
    if b - a >= 0 {
      WrapUnique(b - a, 0, b - a);
    } else {
      WrapUnique(b - a, -1, WORD + (b - a));
    }
  }

  /** At exactly half a word the comparison answers no both ways, although the counters differ. */
  lemma HalfWordApartIsIncomparable(a: int)
    ensures !CircularLess(Wrap(a), Wrap(a + HALF)) && !CircularLess(Wrap(a + HALF), Wrap(a))
  {
    CircularLessExact(a, a + HALF);
    CircularLessExact(a + HALF, a);
    WrapUnique(HALF, 0, HALF);
    WrapUnique(-HALF, -1, HALF);
  }

  /** A word read as a signed number. */
  function Signed(w: nat): int
    requires w < WORD
  {
    if w < HALF then w else w - WORD
  }

  /** The signed difference of two wrapped counters is their true difference. */
  lemma SignedDifference(a: int, b: int)
    requires -HALF <= a - b < HALF
    ensures Signed(Wrap(Wrap(a) - Wrap(b))) == a - b
  {
    WrapDifference(a, b);
    if a - b >= 0 {
      WrapUnique(a - b, 0, a - b);
    } else {
      WrapUnique(a - b, -1, WORD + (a - b));
    }
  }

  /** How many blocks a word can number. */
  const BLOCKS: nat := 0x800_0000_0000_0000

  /** What a lookup computes from two wrapped block bases: their signed difference, turned back into
      a word because the block size is unsigned, over the block size. */
  function BlockOffset(base: nat, tailBase: nat): nat
    requires base < WORD && tailBase < WORD
  {
    Wrap(Signed(Wrap(base - tailBase))) / BLOCK_SIZE
  }

  lemma SignedAgain(w: nat)
    requires w < WORD
    ensures Wrap(Signed(w)) == w
  {
    WrapUnique(Signed(w), if w < HALF then 0 else -1, w);
  }

  /** Being divided unsigned, the difference loses its sign: a block d behind the tail is at offset
      2^59 - d, not -d; what is left is the true distance in blocks, reduced by 2^59. */
  lemma OffsetForgetsSign(i: int, j: int)
    ensures BlockOffset(Wrap(i * BLOCK_SIZE), Wrap(j * BLOCK_SIZE)) == (i - j) % BLOCKS
    ensures i < j <= i + BLOCKS ==> BlockOffset(Wrap(i * BLOCK_SIZE), Wrap(j * BLOCK_SIZE)) == BLOCKS - (j - i)
  {
    hide Signed;
    SignedAgain(Wrap(Wrap(i * BLOCK_SIZE) - Wrap(j * BLOCK_SIZE)));
    WrapDifference(i * BLOCK_SIZE, j * BLOCK_SIZE);
    var e := i - j;
    var q, r := e / BLOCKS, e % BLOCKS;
    assert e * BLOCK_SIZE == q * WORD + r * BLOCK_SIZE;
    WrapUnique(e * BLOCK_SIZE, q, r * BLOCK_SIZE);
    ModUnique(r * BLOCK_SIZE, r, 0, BLOCK_SIZE);
    if i < j <= i + BLOCKS { ModUnique(e, -1, BLOCKS - (j - i), BLOCKS); }
  }

  /** The lookup is right all the same: with a capacity that divides 2^59, as every power of two that
      fits does, the wrapped sum masked with capacity - 1 is the slot at the true signed distance. */
  lemma SlotSurvivesWrap(tail: nat, i: int, j: int, capacity: nat, m: nat)
    requires tail < capacity && m * capacity == BLOCKS
    ensures Wrap(tail + BlockOffset(Wrap(i * BLOCK_SIZE), Wrap(j * BLOCK_SIZE))) % capacity == (tail + (i - j)) % capacity
  {
    hide Wrap, BlockOffset;
    OffsetForgetsSign(i, j);
    var q, r := (i - j) / BLOCKS, (i - j) % BLOCKS;
    NoLargerThanProduct(capacity, m);
    WrapUnique(tail + r, 0, tail + r);
    var k, s := (tail + r) / capacity, (tail + r) % capacity;
    assert tail + r == k * capacity + s;
    assert q * BLOCKS == q * m * capacity;
    assert tail + (i - j) == (q * m + k) * capacity + s;
    ModUnique(tail + (i - j), q * m + k, s, capacity);
  }

  lemma NoLargerThanProduct(c: nat, m: nat)
    requires c > 0 && m * c == BLOCKS
    ensures c <= BLOCKS
  {
    MulAtLeast(m, c);
  }

  /** `x & ~(BLOCK_SIZE - 1)`. */
  function BlockBase(w: nat): nat { w - w % BLOCK_SIZE }

  lemma BlockBaseOfWrap(n: int)
    ensures Wrap(BlockBase(Wrap(n))) == Wrap(n / BLOCK_SIZE * BLOCK_SIZE)
  {
    var w := Wrap(n);
    var q :| n == q * WORD + w;
    assert WORD == 0x800_0000_0000_0000 * BLOCK_SIZE;
    assert n / BLOCK_SIZE * BLOCK_SIZE == q * WORD + BlockBase(w) by {
      ModUnique(n, q * 0x800_0000_0000_0000 + w / BLOCK_SIZE, w % BLOCK_SIZE, BLOCK_SIZE);
    }
    WrapShift(BlockBase(w), q);
  }

  lemma QuotientsCount(start: nat, count: nat)
    requires 0 < count
    ensures (start + count - 1) / BLOCK_SIZE == BlocksFor(start + count) - 1
    ensures (start - 1) / BLOCK_SIZE == BlocksFor(start) - 1
  {
  }

  lemma BlocksGrow(start: nat, count: nat)
    requires 0 < count && count + BLOCK_SIZE < WORD
    ensures 0 <= BLOCK_SIZE * (BlocksFor(start + count) - BlocksFor(start)) < WORD
  {
  }

  /** A bulk enqueue computes the number of blocks it needs from wrapped indices, the first of which
      is -1 for an empty queue; the result is one block for every boundary in its range. */
  lemma BlockBaseDiffCounts(start: nat, count: nat)
    requires 0 < count && count + BLOCK_SIZE < WORD
    ensures Wrap(BlockBase(Wrap(start + count - 1)) - BlockBase(Wrap(start - 1)))
         == BLOCK_SIZE * (BlocksFor(start + count) - BlocksFor(start))
  {
    hide Wrap, BlockBase, BlocksFor;
    var x, y := start + count - 1, start - 1;
    QuotientsCount(start, count);
    BlocksGrow(start, count);
    BaseDifference(x, y);
    WrapUnique(x / BLOCK_SIZE * BLOCK_SIZE - y / BLOCK_SIZE * BLOCK_SIZE, 0,
               BLOCK_SIZE * (BlocksFor(start + count) - BlocksFor(start)));
  }

  /** The wrapped difference of two block bases is the wrap of their true difference. */
  lemma BaseDifference(x: int, y: int)
    ensures Wrap(BlockBase(Wrap(x)) - BlockBase(Wrap(y))) == Wrap(x / BLOCK_SIZE * BLOCK_SIZE - y / BLOCK_SIZE * BLOCK_SIZE)
  {
    BlockBaseOfWrap(x);
    BlockBaseOfWrap(y);
    BaseIsWord(Wrap(x));
    BaseIsWord(Wrap(y));
    hide Wrap, BlockBase;
    WrapDifference(x / BLOCK_SIZE * BLOCK_SIZE, y / BLOCK_SIZE * BLOCK_SIZE);
  }

  lemma BaseIsWord(w: nat)
    requires w < WORD
    ensures Wrap(BlockBase(w)) == BlockBase(w)
  {
    WrapUnique(BlockBase(w), 0, BlockBase(w));
  }
}
