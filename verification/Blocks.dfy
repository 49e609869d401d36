/** The class `blocks` of src/BS_thread_pool.hpp: splitting an index range, in the machine's own
    integer arithmetic. */
module Blocks {
  import opened ThreadPool

  // --- Integer types -----------------------------------------------------------------------

  datatype Bits = B8 | B16 | B32 | B64

  datatype IndexType = IndexType(bits: Bits, signed: bool)

  function Modulus(bits: Bits): int {
    match bits
    case B8 => 0x100
    case B16 => 0x1_0000
    case B32 => 0x1_0000_0000
    case B64 => 0x1_0000_0000_0000_0000
  }

  function Lowest(t: IndexType): int {
    if t.signed then -(Modulus(t.bits) / 2) else 0
  }

  function Highest(t: IndexType): int {
    if t.signed then Modulus(t.bits) / 2 - 1 else Modulus(t.bits) - 1
  }

  predicate InRange(t: IndexType, x: int) {
    Lowest(t) <= x <= Highest(t)
  }

  /** Conversion to `t`, modulo its width. */
  function Cast(t: IndexType, x: int): (r: int)
    ensures InRange(t, r)
    ensures (x - r) % Modulus(t.bits) == 0
    ensures InRange(t, x) ==> r == x
  {
    var m := x % Modulus(t.bits);
    if m > Highest(t) then m - Modulus(t.bits) else m
  }

  /** The type in which C++ computes: types narrower than `int` are promoted to it. */
  function Promoted(t: IndexType): IndexType {
    if t.bits in {B8, B16} then IndexType(B32, true) else t
  }

  const SIZE_T := IndexType(B64, false)

  /** Whether an exact result may be produced at all: signed overflow is undefined. */
  predicate Defined(t: IndexType, exact: int) {
    Promoted(t).signed ==> InRange(Promoted(t), exact)
  }

  function Arith(t: IndexType, exact: int): int {
    if Promoted(t).signed then exact else Cast(Promoted(t), exact)
  }

  // --- The class ---------------------------------------------------------------------------

  datatype Layout = Layout(
    t: IndexType,
    firstIndex: int,
    indexAfterLast: int,
    numBlocks: nat,
    blockSize: nat,
    remainder: nat)

  /** What the constructor computes; a non-empty range needs a positive number of blocks. */
  function Split(t: IndexType, firstIndex: int, indexAfterLast: int, numBlocks: nat): Layout
    requires indexAfterLast > firstIndex ==> numBlocks > 0 && SplitDefined(t, firstIndex, indexAfterLast)
  {
    if indexAfterLast > firstIndex then
      var totalSize := Cast(SIZE_T, Arith(t, indexAfterLast - firstIndex));
      var n := if totalSize < numBlocks then totalSize else numBlocks;
      Layout(t, firstIndex, indexAfterLast, n, totalSize / n, totalSize % n)
    else
      Layout(t, firstIndex, indexAfterLast, 0, 0, 0)
  }

  /** Both ends are indices of type `t`, and so is their difference after promotion. */
  predicate SplitDefined(t: IndexType, firstIndex: int, indexAfterLast: int) {
    InRange(t, firstIndex) && InRange(t, indexAfterLast) && Defined(t, indexAfterLast - firstIndex)
  }

  /** When that is so, in plain numbers: always for index types of 8 and 16 bits and for unsigned ones, and for
      wider signed ones when the size of the range is itself an index. */
  lemma WhenDefined(t: IndexType, first: int, afterLast: int)
    requires afterLast > first
    ensures SplitDefined(t, first, afterLast)
       <==> (if t.signed then -Half(t.bits) <= first && afterLast < Half(t.bits)
             else 0 <= first && afterLast < 2 * Half(t.bits))
            && (t.signed && t.bits in {B32, B64} ==> afterLast - first < Half(t.bits))
  {
  }

  function Half(bits: Bits): int {
    match bits
    case B8 => 128
    case B16 => 32768
    case B32 => 2147483648
    case B64 => 9223372036854775808
  }

  function Skipped(b: Layout, block: nat): nat {
    if block < b.remainder then block else b.remainder
  }

  /** The two sums of `start`, before the conversion of the result. */
  function FirstSum(b: Layout, block: nat): int {
    b.firstIndex + Cast(b.t, Cast(SIZE_T, block * b.blockSize))
  }

  function SecondSum(b: Layout, block: nat): int {
    Arith(b.t, FirstSum(b, block)) + Cast(b.t, Skipped(b, block))
  }

  function Start(b: Layout, block: nat): int {
    Cast(b.t, Arith(b.t, SecondSum(b, block)))
  }

  function End(b: Layout, block: nat): int {
    if block == Cast(SIZE_T, b.numBlocks - 1) then b.indexAfterLast else Start(b, block + 1)
  }

  class Blocks {
    const t: IndexType
    const firstIndex: int
    const indexAfterLast: int
    var numBlocks: nat
    var blockSize: nat
    var remainder: nat

    function View(): Layout
      reads this
    {
      Layout(t, firstIndex, indexAfterLast, numBlocks, blockSize, remainder)
    }

    constructor (t: IndexType, first: int, afterLast: int, num: nat)
      requires afterLast > first ==> num > 0 && SplitDefined(t, first, afterLast)
      ensures View() == Split(t, first, afterLast, num)
    {
      this.t := t;
      firstIndex, indexAfterLast, numBlocks := first, afterLast, num;
      blockSize, remainder := 0, 0;
      new;
      if indexAfterLast > firstIndex {
        var totalSize := Cast(SIZE_T, Arith(t, indexAfterLast - firstIndex));
        SizePositive(t, first, afterLast);
        numBlocks := if totalSize < numBlocks then totalSize else numBlocks;
        blockSize := totalSize / numBlocks;
        remainder := totalSize % numBlocks;
        DivideByFewer(totalSize, numBlocks);
        // The source has a special case for a zero block size here; it is never reached.
        if blockSize == 0 {
          assert false;
        }
      } else {
        numBlocks := 0;
      }
    }
  }

  // --- Exactness ---------------------------------------------------------------------------

  /** The size of a non-empty range is computed exactly and fits `size_t`. */
  lemma SizePositive(t: IndexType, first: int, afterLast: int)
    requires afterLast > first && SplitDefined(t, first, afterLast)
    ensures Cast(SIZE_T, Arith(t, afterLast - first)) == afterLast - first
    ensures t.bits in {B8, B16} || InRange(t, afterLast - first)
  {
  }

  /** Casts cancel: adding converted amounts and converting the sum is converting the exact sum. */
  lemma CastsCancel(t: IndexType, first: int, a: int, b: int)
    requires InRange(t, first + a + b)
    ensures Cast(t, first + Cast(t, a) + Cast(t, b)) == first + a + b
  {
    var sum := first + Cast(t, a) + Cast(t, b);
    match t.bits
    case B8 => SameResidue(0x100, t, sum, first + a + b, a, b);
    case B16 => SameResidue(0x1_0000, t, sum, first + a + b, a, b);
    case B32 => SameResidue(0x1_0000_0000, t, sum, first + a + b, a, b);
    case B64 => SameResidue(0x1_0000_0000_0000_0000, t, sum, first + a + b, a, b);
  }

  lemma NoMultiple(m: int, k: int)
    requires m > 0 && -m < m * k < m
    ensures k == 0
  {
  }

  lemma SameResidue(m: int, t: IndexType, sum: int, exact: int, a: int, b: int)
    requires m == Modulus(t.bits)
    requires exact - sum == (a - Cast(t, a)) + (b - Cast(t, b))
    requires InRange(t, exact)
    ensures Cast(t, sum) == exact
  {
    var p, q, r := (a - Cast(t, a)) / m, (b - Cast(t, b)) / m, (sum - Cast(t, sum)) / m;
    assert exact - Cast(t, sum) == m * (p + q + r);
    NoMultiple(m, p + q + r);
  }

  /** Where block `block` starts, in unbounded integers. */
  function ExactStart(b: Layout, block: nat): int {
    b.firstIndex + block * b.blockSize + Skipped(b, block)
  }

  lemma Monotone(a: nat, b: nat, size: nat)
    requires a <= b
    ensures a * size <= b * size
  {
  }

  /** The layouts that the constructor makes of a non-empty range. */
  ghost predicate Proper(b: Layout) {
    && b.firstIndex < b.indexAfterLast && SplitDefined(b.t, b.firstIndex, b.indexAfterLast)
    && 0 < b.numBlocks <= b.indexAfterLast - b.firstIndex
    && b.blockSize > 0 && b.remainder < b.numBlocks
    && b.numBlocks * b.blockSize + b.remainder == b.indexAfterLast - b.firstIndex
  }

  lemma DivideByFewer(total: nat, n: nat)
    requires 0 < n <= total
    ensures total / n > 0
    ensures n * (total / n) + total % n == total
  {
  }

  /** The constructor divides exactly, and its special case for an empty block size never applies. */
  lemma SplitProper(t: IndexType, first: int, afterLast: int, num: nat)
    requires afterLast > first && num > 0 && SplitDefined(t, first, afterLast)
    ensures Proper(Split(t, first, afterLast, num))
    ensures var b, total := Split(t, first, afterLast, num), afterLast - first;
            && b.numBlocks == (if total < num then total else num)
            && b.blockSize == total / b.numBlocks && b.remainder == total % b.numBlocks
  {
    SizePositive(t, first, afterLast);
    var total := afterLast - first;
    DivideByFewer(total, if total < num then total else num);
  }

  lemma AmountBound(b: Layout, block: nat)
    requires Proper(b) && block <= b.numBlocks
    ensures 0 <= block * b.blockSize <= block * b.blockSize + Skipped(b, block) <= b.indexAfterLast - b.firstIndex
    ensures block == b.numBlocks ==> ExactStart(b, block) == b.indexAfterLast
  {
    Monotone(block, b.numBlocks, b.blockSize);
  }

  /** No undefined overflow occurs in `start`, no `size_t` wraps, and the casts cancel. */
  lemma StartExact(b: Layout, block: nat)
    requires Proper(b) && block <= b.numBlocks
    ensures block * b.blockSize <= SIZE_MAX
    ensures Defined(b.t, FirstSum(b, block)) && Defined(b.t, SecondSum(b, block))
    ensures Start(b, block) == ExactStart(b, block)
    ensures b.firstIndex <= Start(b, block) <= b.indexAfterLast
  {
    assert b.t.bits in {B8, B16} || InRange(b.t, b.indexAfterLast - b.firstIndex) by {
      SizePositive(b.t, b.firstIndex, b.indexAfterLast);
    }
    AmountBound(b, block);
    StartFrom(b, block, block * b.blockSize);
  }

  lemma StartFrom(b: Layout, block: nat, amount: nat)
    requires amount == block * b.blockSize
    requires InRange(b.t, b.firstIndex) && InRange(b.t, b.indexAfterLast)
    requires b.firstIndex + amount + Skipped(b, block) <= b.indexAfterLast
    requires b.t.bits in {B8, B16} || InRange(b.t, b.indexAfterLast - b.firstIndex)
    ensures amount <= SIZE_MAX
    ensures Defined(b.t, FirstSum(b, block)) && Defined(b.t, SecondSum(b, block))
    ensures Start(b, block) == b.firstIndex + amount + Skipped(b, block)
  {
    CastedStart(b, amount, Skipped(b, block));
  }

  lemma NarrowStart(t: IndexType, first: int, afterLast: int, amount: nat, extra: nat)
    requires InRange(t, first) && InRange(t, afterLast) && t.bits in {B8, B16}
    requires first + amount + extra <= afterLast
    ensures var sum := first + Cast(t, amount);
            && Defined(t, sum) && Defined(t, Arith(t, sum) + Cast(t, extra))
            && Cast(t, Arith(t, Arith(t, sum) + Cast(t, extra))) == first + amount + extra
  {
    CastsCancel(t, first, amount, extra);
  }

  lemma WideStart(t: IndexType, first: int, afterLast: int, amount: nat, extra: nat)
    requires InRange(t, first) && InRange(t, afterLast) && t.bits in {B32, B64}
    requires first + amount + extra <= afterLast && InRange(t, afterLast - first)
    ensures var sum := first + Cast(t, amount);
            && Defined(t, sum) && Defined(t, Arith(t, sum) + Cast(t, extra))
            && Cast(t, Arith(t, Arith(t, sum) + Cast(t, extra))) == first + amount + extra
  {
    assert Cast(t, amount) == amount && Cast(t, extra) == extra;
  }

  /** No range of indices is longer than `size_t` can count. */
  lemma AmountFits(t: IndexType, first: int, afterLast: int, amount: nat)
    requires InRange(t, first) && InRange(t, afterLast) && first + amount <= afterLast
    ensures amount <= SIZE_MAX && Cast(SIZE_T, amount) == amount
  {
    assert InRange(SIZE_T, amount);
  }

  lemma CastedStart(b: Layout, amount: nat, extra: nat)
    requires InRange(b.t, b.firstIndex) && InRange(b.t, b.indexAfterLast)
    requires b.firstIndex + amount + extra <= b.indexAfterLast
    requires b.t.bits in {B8, B16} || InRange(b.t, b.indexAfterLast - b.firstIndex)
    ensures amount <= SIZE_MAX && Cast(SIZE_T, amount) == amount
    ensures var sum := b.firstIndex + Cast(b.t, amount);
            && Defined(b.t, sum) && Defined(b.t, Arith(b.t, sum) + Cast(b.t, extra))
            && Cast(b.t, Arith(b.t, Arith(b.t, sum) + Cast(b.t, extra))) == b.firstIndex + amount + extra
  {
    AmountFits(b.t, b.firstIndex, b.indexAfterLast, amount);
    if b.t.bits in {B8, B16} {
      NarrowStart(b.t, b.firstIndex, b.indexAfterLast, amount, extra);
    } else {
      WideStart(b.t, b.firstIndex, b.indexAfterLast, amount, extra);
    }
  }

  // --- Main results ------------------------------------------------------------------------

  /** The blocks tile the range: as many as asked for unless the range is shorter, the first starts at
      the beginning, each other one where the one before ends, and the last ends at the end, which is
      also where one more block would start. */
  lemma Tiling(t: IndexType, first: int, afterLast: int, num: nat)
    requires afterLast > first && 0 < num <= SIZE_MAX && SplitDefined(t, first, afterLast)
    ensures var b := Split(t, first, afterLast, num);
            && b.numBlocks == (if afterLast - first < num then afterLast - first else num)
            && Start(b, 0) == first
            && End(b, b.numBlocks - 1) == afterLast == Start(b, b.numBlocks)
            && (forall k :: 0 <= k < b.numBlocks - 1 ==> End(b, k) == Start(b, k + 1))
  {
    var b := Split(t, first, afterLast, num);
    SplitProper(t, first, afterLast, num);
    StartExact(b, 0);
    StartExact(b, b.numBlocks);
    AmountBound(b, b.numBlocks);
  }

  /** Sizes differ by at most one, the larger blocks come first, and none is empty. */
  lemma Balanced(t: IndexType, first: int, afterLast: int, num: nat, k: nat)
    requires afterLast > first && 0 < num <= SIZE_MAX && SplitDefined(t, first, afterLast)
    requires k < Split(t, first, afterLast, num).numBlocks
    ensures var b, total := Split(t, first, afterLast, num), afterLast - first;
            && End(b, k) - Start(b, k) == total / b.numBlocks + (if k < total % b.numBlocks then 1 else 0)
            && End(b, k) - Start(b, k) > 0
            && first <= Start(b, k) && End(b, k) <= afterLast
  {
    var b := Split(t, first, afterLast, num);
    SplitProper(t, first, afterLast, num);
    BlockExtent(b, k);
  }

  lemma BlockExtent(b: Layout, k: nat)
    requires Proper(b) && k < b.numBlocks <= SIZE_MAX
    ensures End(b, k) - Start(b, k) == b.blockSize + (if k < b.remainder then 1 else 0)
    ensures b.firstIndex <= Start(b, k) && End(b, k) <= b.indexAfterLast
  {
    EndIsNextStart(b, k);
    StartExact(b, k);
    StartExact(b, k + 1);
    assert (k + 1) * b.blockSize == k * b.blockSize + b.blockSize;
  }

  lemma EndIsNextStart(b: Layout, k: nat)
    requires Proper(b) && k < b.numBlocks <= SIZE_MAX
    ensures End(b, k) == Start(b, k + 1) == ExactStart(b, k + 1)
  {
    StartExact(b, k + 1);
    AmountBound(b, b.numBlocks);
  }

  lemma ExactMonotone(b: Layout, j: nat, k: nat)
    requires Proper(b) && j <= k <= b.numBlocks
    ensures ExactStart(b, j) <= ExactStart(b, k)
  {
    Monotone(j, k, b.blockSize);
  }

  lemma StartsMonotone(b: Layout, j: nat, k: nat)
    requires Proper(b) && b.numBlocks <= SIZE_MAX && j <= k <= b.numBlocks
    ensures Start(b, j) <= Start(b, k)
  {
    StartExact(b, j);
    StartExact(b, k);
    ExactMonotone(b, j, k);
  }

  lemma EndMeetsStart(b: Layout, k: nat)
    requires Proper(b) && k < b.numBlocks <= SIZE_MAX
    ensures End(b, k) == Start(b, k + 1)
  {
    EndIsNextStart(b, k);
  }

  lemma BlocksApart(b: Layout, j: nat, k: nat)
    requires Proper(b) && b.numBlocks <= SIZE_MAX && j < k < b.numBlocks
    ensures End(b, j) <= Start(b, k)
  {
    EndMeetsStart(b, j);
    StartsMonotone(b, j + 1, k);
  }
}
