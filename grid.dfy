/**
 * Grid topology of the nearest-neighbour benchmarks: the near-square
 * factorisation of the qubit count, the partner of a coupler cell in the two
 * tiling conventions, and the index transposition of the parity-start C++
 * script.
 */
module Grid {

  /** Integer square root: the r with r*r <= n < (r+1)*(r+1). */
  function FloorSqrt(n: nat): (r: nat)
    ensures r * r <= n < (r + 1) * (r + 1)
    ensures n >= 1 ==> r >= 1
  {
    SqrtFrom(n, 0)
  }

  function SqrtFrom(n: nat, r: nat): (s: nat)
    requires r * r <= n
    ensures s * s <= n < (s + 1) * (s + 1)
    ensures s >= r
    decreases n - r
  {
    if (r + 1) * (r + 1) > n then r
    else
      assert r < (r + 1) * (r + 1);
      SqrtFrom(n, r + 1)
  }

  predicate Divides(c: nat, n: nat) { c > 0 && n % c == 0 }

  /**
   * The factorisation loop as a function: count down from c to the first
   * divisor of n. Specification of `Factor`.
   */
  function LargestDivisorFrom(n: nat, c: nat): (f: nat)
    requires c >= 1
    ensures 1 <= f <= c
  {
    if c == 1 || Divides(c, n) then c else LargestDivisorFrom(n, c - 1)
  }

  lemma {:induction false} LargestDivisorFromIsLargest(n: nat, c: nat)
    requires c >= 1
    ensures Divides(LargestDivisorFrom(n, c), n)
    ensures forall e :: LargestDivisorFrom(n, c) < e <= c ==> !Divides(e, n)
  {
    if c == 1 || Divides(c, n) {
    } else {
      LargestDivisorFromIsLargest(n, c - 1);
    }
  }

  /** The factor pair the near-square loop settles on. */
  function NearSquare(n: nat): (dims: (nat, nat))
    requires n >= 1
    ensures 1 <= dims.0 <= FloorSqrt(n)
  {
    var small := LargestDivisorFrom(n, FloorSqrt(n));
    (small, n / small)
  }

  /**
   * What the factorisation promises: a factor pair whose small side is the
   * largest divisor of n not above its square root.
   */
  predicate IsNearSquare(n: nat, small: nat, large: nat)
  {
    1 <= small <= FloorSqrt(n) && small * large == n && small <= large &&
    forall e :: small < e <= FloorSqrt(n) ==> !Divides(e, n)
  }

  lemma NearSquareCorrect(n: nat)
    requires n >= 1
    ensures IsNearSquare(n, NearSquare(n).0, NearSquare(n).1)
  {
    var r := FloorSqrt(n);
    LargestDivisorFromIsLargest(n, r);
    var small := NearSquare(n).0;
    var q := n / small;
    assert q * small == n;
    MulMono(small, r);
    if q < small {
      MulLe(q + 1, small, small);
      Distrib(q, small);
    }
  }

  lemma MulLe(a: int, b: int, c: nat)
    requires a <= b
    ensures a * c <= b * c
  {
  }

  lemma Distrib(a: int, c: int)
    ensures (a + 1) * c == a * c + c
  {
  }

  lemma MulMono(a: nat, b: nat)
    requires a <= b
    ensures a * a <= b * b
  {
    MulLe(a, b, a);
    MulLe(a, b, b);
  }

  /** The scripts' divisibility test `(n / c) * c == n` in integer division. */
  lemma DivisionTest(n: nat, c: nat)
    requires c > 0
    ensures (n / c) * c == n <==> Divides(c, n)
  {
  }

  /**
   * The factorisation loop: start at the square root of n and step down
   * until the candidate divides n. The scripts call the small side colLen
   * (rowLen in the Sycamore script that keeps the loop in C++ with roles
   * exchanged). n = 0 would divide by zero in the first test, so n >= 1.
   */
  method Factor(n: nat) returns (small: nat, large: nat)
    requires n >= 1
    ensures (small, large) == NearSquare(n)
    ensures IsNearSquare(n, small, large)
  {
    NearSquareCorrect(n);
    small := FloorSqrt(n);
    DivisionTest(n, small);
    while (n / small) * small != n
      invariant 1 <= small <= FloorSqrt(n)
      invariant LargestDivisorFrom(n, small) == NearSquare(n).0
      invariant (n / small) * small == n <==> Divides(small, n)
      decreases small
    {
      small := small - 1;
      DivisionTest(n, small);
    }
    large := n / small;
  }

  /**
   * Python's true-division test `(n / c) * c != n`, in exact rational
   * arithmetic: it never holds, so the loop that uses it stops at once.
   */
  predicate TrueDivisionMismatch(n: nat, c: nat)
    requires c > 0
  {
    (n as real / c as real) * c as real != n as real
  }

  lemma TrueDivisionNeverMismatches(n: nat, c: nat)
    requires c > 0
    ensures !TrueDivisionMismatch(n, c)
  {
  }

  /**
   * The factor pair of the scripts whose loop uses true division: the small
   * side stays at the square root and the large side is `n // small`, so the
   * grid can miss qubits.
   */
  function TrueDivisionFactor(n: nat): (dims: (nat, nat))
    requires n >= 1
    ensures dims.0 == FloorSqrt(n) && dims.0 >= 1
    ensures dims.1 == n / dims.0
    ensures dims.0 * dims.1 <= n < dims.0 * (dims.1 + 1)
  {
    var small := FloorSqrt(n);
    Distrib(n / small, small);
    (small, n / small)
  }

  /** n = 7: the true-division grid is 2 x 3, so qubit 6 lies outside it. */
  lemma TrueDivisionLosesQubits()
    ensures TrueDivisionFactor(7) == (2, 3)
    ensures TrueDivisionFactor(7).0 * TrueDivisionFactor(7).1 < 7
    ensures NearSquare(7) == (1, 7)
  {
    assert SqrtFrom(7, 2) == 2;
    assert SqrtFrom(7, 1) == 2;
    assert FloorSqrt(7) == 2;
    assert !Divides(2, 7);
  }

  // ---------------------------------------------------------------------
  // Partner cells

  datatype Cell = Cell(row: int, col: int)

  /** `gate & 2`: the row offset is +1 when set, -1 when clear. */
  predicate RowBit(gate: nat) { (gate / 2) % 2 == 1 }

  /** `gate & 1`: the column bit. */
  predicate ColBit(gate: nat) { gate % 2 == 1 }

  predicate InGrid(c: Cell, rows: int, cols: int)
  {
    0 <= c.row < rows && 0 <= c.col < cols
  }

  /** Row-major index of a cell in a grid whose rows hold `stride` cells. */
  function Index(c: Cell, stride: nat): int { c.row * stride + c.col }

  /**
   * Simple convention: the row moves by -1 or +1 (`gate & 2`), the column
   * gains `gate & 1` unless the grid has a single column.
   */
  function SimplePartner(c: Cell, colLen: nat, gate: nat): (p: Cell)
    ensures p.row == c.row + 1 || p.row == c.row - 1
    ensures p.row == c.row + 1 <==> RowBit(gate)
    ensures p.col == c.col + 1 <==> colLen != 1 && ColBit(gate)
    ensures p.col == c.col || p.col == c.col + 1
  {
    Cell(c.row + (if RowBit(gate) then 1 else -1),
         c.col + (if colLen == 1 then 0 else if ColBit(gate) then 1 else 0))
  }

  /** The row each pattern value starts its scan at (the `sequenceRowStart` table). */
  const RowStartTable: seq<nat> := [1, 1, 0, 0]

  function RowStart(gate: nat): (start: nat)
    requires gate < 4
    ensures start == 1 <==> gate < 2
    ensures start == 0 <==> gate >= 2
  {
    RowStartTable[gate]
  }

  predicate StartsEvenRow(gate: nat)
    requires gate < 4
  {
    RowStart(gate) % 2 == 0
  }

  /**
   * Parity-start convention: the row moves as in the simple convention; an
   * even-start pattern moves the column by -1 when `gate & 1` is clear and
   * by 0 otherwise, an odd-start pattern by +1 when it is set and by 0
   * otherwise. So the partner is always a different cell in an adjacent
   * row, `gate & 2` choosing the row below; even-start patterns never look
   * to the right and odd-start ones never to the left; and the column stays
   * exactly when `gate & 1` agrees with the start parity.
   */
  function ParityPartner(c: Cell, gate: nat): (p: Cell)
    requires gate < 4
    ensures p != c
    ensures p.row == c.row + 1 || p.row == c.row - 1
    ensures p.row == c.row + 1 <==> RowBit(gate)
    ensures StartsEvenRow(gate) ==> c.col - 1 <= p.col <= c.col
    ensures !StartsEvenRow(gate) ==> c.col <= p.col <= c.col + 1
    ensures p.col == c.col <==> ColBit(gate) == StartsEvenRow(gate)
  {
    Cell(c.row + (if RowBit(gate) then 1 else -1),
         c.col + (if StartsEvenRow(gate) then (if ColBit(gate) then 0 else -1)
                  else (if ColBit(gate) then 1 else 0)))
  }

  // ---------------------------------------------------------------------
  // Transposition

  /**
   * The "transpose" of the parity-start C++ script as written: split b by
   * the stride rowLen into (row, col) and rebuild col * rowLen + row, using
   * rowLen again as the stride of the transposed grid.
   */
  function TransposeAsWritten(b: int, rowLen: nat): int
    requires rowLen > 0
  {
    var tempCol := b / rowLen;
    var tempRow := b - tempCol * rowLen;
    tempRow * rowLen + tempCol
  }

  /**
   * The transposition of a grid with `rows` rows of `cols` cells: cell
   * (r, c), stored at r * cols + c, moves to c * rows + r.
   */
  function Transpose(b: nat, rows: nat, cols: nat): nat
    requires cols > 0
  {
    (b % cols) * rows + b / cols
  }

  lemma DivModUnique(b: nat, cols: nat, r: nat, c: nat)
    requires cols > 0 && c < cols && b == r * cols + c
    ensures b / cols == r && b % cols == c
  {
    var q := b / cols;
    if q > r {
      MulLe(r + 1, q, cols);
      Distrib(r, cols);
    } else if q < r {
      MulLe(q + 1, r, cols);
      Distrib(q, cols);
    }
  }

  /** The transposition maps [0, rows*cols) into itself without collisions. */
  lemma TransposeInjective(b1: nat, b2: nat, rows: nat, cols: nat)
    requires cols > 0 && b1 < rows * cols && b2 < rows * cols
    ensures Transpose(b1, rows, cols) < rows * cols
    ensures Transpose(b1, rows, cols) == Transpose(b2, rows, cols) ==> b1 == b2
  {
    TransposeInRange(b1, rows, cols);
    assert rows > 0;
    TransposeRoundTrip(b1, rows, cols);
    TransposeRoundTrip(b2, rows, cols);
  }

  lemma DivBound(b: nat, rows: nat, cols: nat)
    requires cols > 0 && b < rows * cols
    ensures b / cols < rows
  {
    if b / cols >= rows {
      assert (b / cols) * cols >= rows * cols by { MulLe(rows, b / cols, cols); }
    }
  }

  lemma TransposeInRange(b: nat, rows: nat, cols: nat)
    requires cols > 0 && b < rows * cols
    ensures Transpose(b, rows, cols) < rows * cols
  {
    var r, c := b / cols, b % cols;
    DivBound(b, rows, cols);
    assert c * rows + r < (c + 1) * rows;
    MulLe(c + 1, cols, rows);
  }

  /** Transposing back with the roles of rows and columns exchanged restores the index. */
  lemma TransposeRoundTrip(b: nat, rows: nat, cols: nat)
    requires rows > 0 && cols > 0 && b < rows * cols
    ensures Transpose(Transpose(b, rows, cols), cols, rows) == b
  {
    var r, c := b / cols, b % cols;
    DivBound(b, rows, cols);
    DivModUnique(c * rows + r, rows, c, r);
  }

  /** For a square grid the written transposition agrees with the transposition. */
  lemma TransposeAsWrittenOnSquare(b: nat, side: nat)
    requires side > 0
    ensures TransposeAsWritten(b, side) == Transpose(b, side, side)
  {
  }

  /** n = 54 (rowLen 6, 9 rows): the written remap sends both 1 and 36 to 6. */
  lemma TransposeAsWrittenCollides()
    ensures TransposeAsWritten(1, 6) == 6 && TransposeAsWritten(36, 6) == 6
  {
  }

  /** On the same grid the transposition keeps 1 and 36 apart. */
  lemma TransposeSeparates()
    ensures Transpose(1, 9, 6) == 9 && Transpose(36, 9, 6) == 6
  {
  }
}
