/**
 * The coupler tiling of the nearest-neighbour benchmarks: the 8-entry pattern
 * list that is rotated once per layer, and the row/column scan that turns the
 * current pattern value into the list of coupled qubit pairs.
 */
module Tiling {
  import opened Gates
  import opened Grid

  // ---------------------------------------------------------------------
  // Pattern rotation

  /** The "ABCDCDAB" order of the Sycamore supplement. */
  const SycamoreOrder: seq<nat> := [0, 3, 2, 1, 2, 1, 0, 3]

  /** The order used by the parity-start scripts. */
  const ParityOrder: seq<nat> := [0, 3, 1, 2, 1, 2, 0, 3]

  predicate IsPattern(s: seq<nat>)
  {
    |s| == 8 && forall i | 0 <= i < |s| :: s[i] < 4
  }

  lemma PatternsWellFormed()
    ensures IsPattern(SycamoreOrder) && IsPattern(ParityOrder)
  {
  }

  /** Pop the front of the list and push it at the back. */
  function Rotate<T>(s: seq<T>): (r: seq<T>)
    requires |s| > 0
    ensures |r| == |s| && r[|s| - 1] == s[0]
  {
    s[1..] + [s[0]]
  }

  /** The list after k rotations. */
  function RotateBy<T>(s: seq<T>, k: nat): (r: seq<T>)
    requires |s| > 0
    ensures |r| == |s|
  {
    if k == 0 then s else Rotate(RotateBy(s, k - 1))
  }

  /** After k rotations, position i holds the element k places further on, cyclically. */
  lemma {:induction false} RotateByIndex<T>(s: seq<T>, k: nat, i: nat)
    requires |s| > 0 && i < |s|
    ensures RotateBy(s, k)[i] == s[(i + k) % |s|]
  {
    var m := |s|;
    if k == 0 {
      ModOfSmall(i, m);
    } else if i + 1 < m {
      RotateByIndex(s, k - 1, i + 1);
      ModOfSmall(i + 1, m);
    } else {
      RotateByIndex(s, k - 1, 0);
      DivModUnique(m, m, 1, 0);
      ModAddPeriod(k - 1, m);
    }
  }

  lemma ModOfSmall(x: nat, m: nat)
    requires x < m
    ensures x % m == x
  {
    DivModUnique(x, m, 0, x);
  }

  lemma ModAddPeriod(x: nat, m: nat)
    requires m > 0
    ensures (x + m) % m == x % m
  {
    var q := x / m;
    Distrib(q, m);
    DivModUnique(x + m, m, q + 1, x % m);
  }

  lemma ModOfPeriod(x: nat, m: nat)
    requires x < m
    ensures (x + m) % m == x
  {
    ModAddPeriod(x, m);
    ModOfSmall(x, m);
  }

  /** The pattern value used in layer d is the d-th element, cyclically. */
  lemma RotateByHead<T>(s: seq<T>, d: nat)
    requires |s| > 0
    ensures RotateBy(s, d)[0] == s[d % |s|]
  {
    RotateByIndex(s, d, 0);
  }

  /** After as many rotations as the list has elements, it is back in its initial order. */
  lemma RotatePeriod<T>(s: seq<T>)
    requires |s| > 0
    ensures RotateBy(s, |s|) == s
  {
    var r := RotateBy(s, |s|);
    forall i | 0 <= i < |s|
      ensures r[i] == s[i]
    {
      var m := |s|;
      ModOfPeriod(i, m);
      assert (i + m) % m == i;
      RotateByIndex(s, m, i);
      assert r[i] == s[(i + m) % m];
    }
  }

  // ---------------------------------------------------------------------
  // Coupler scan

  /** Which rows the scan visits: every second row from `first`, or from the row-start table. */
  datatype Rule = SimpleRows(first: nat) | ParityRows

  /**
   * A scan of a grid of `rows` rows of `cols` cells, indexed row-major. In the
   * simple convention the grid is rowLen rows of colLen cells; in the
   * parity-start convention it is n / rowLen rows of rowLen cells.
   */
  datatype Tiling = Tiling(rule: Rule, rows: nat, cols: nat)

  function StartRow(rule: Rule, gate: nat): nat
    requires gate < 4
  {
    match rule
    case SimpleRows(first) => first
    case ParityRows => RowStart(gate)
  }

  function Partner(t: Tiling, gate: nat, c: Cell): Cell
    requires gate < 4
  {
    match t.rule
    case SimpleRows(_) => SimplePartner(c, t.cols, gate)
    case ParityRows => ParityPartner(c, gate)
  }

  /** A coupled pair: the scanned cell and the two qubit indices. */
  datatype Coupler = Coupler(row: nat, col: nat, b1: nat, b2: nat)

  /** The pair a scanned cell yields: none when its partner lies outside the grid. */
  function CellCoupler(t: Tiling, gate: nat, row: nat, col: nat): seq<Coupler>
    requires gate < 4
  {
    var p := Partner(t, gate, Cell(row, col));
    if InGrid(p, t.rows, t.cols) then
      [Coupler(row, col, row * t.cols + col, (p.row * t.cols + p.col) as nat)]
    else []
  }

  /** Pairs of the cells col, col+1, ... of one row. */
  function RowCouplers(t: Tiling, gate: nat, row: nat, col: nat): seq<Coupler>
    requires gate < 4
    decreases t.cols - col
  {
    if col >= t.cols then [] else CellCoupler(t, gate, row, col) + RowCouplers(t, gate, row, col + 1)
  }

  /** Pairs of the rows row, row+2, ... */
  function ScanFrom(t: Tiling, gate: nat, row: nat): seq<Coupler>
    requires gate < 4
    decreases t.rows - row
  {
    if row >= t.rows then [] else RowCouplers(t, gate, row, 0) + ScanFrom(t, gate, row + 2)
  }

  /** All pairs coupled under one pattern value, in scan order. */
  function Couplers(t: Tiling, gate: nat): seq<Coupler>
    requires gate < 4
  {
    ScanFrom(t, gate, StartRow(t.rule, gate))
  }

  /** The cell is visited by the scan: a row of the right parity from the start row, inside the grid. */
  predicate Scanned(t: Tiling, gate: nat, row: nat, col: nat)
    requires gate < 4
  {
    var start := StartRow(t.rule, gate);
    start <= row < t.rows && (row - start) % 2 == 0 && col < t.cols
  }

  /** What a pair of the scan is: a scanned cell, its partner inside the grid, and their row-major indices. */
  predicate IsCoupler(t: Tiling, gate: nat, c: Coupler)
    requires gate < 4
  {
    var p := Partner(t, gate, Cell(c.row, c.col));
    Scanned(t, gate, c.row, c.col) && InGrid(p, t.rows, t.cols) &&
    c.b1 == c.row * t.cols + c.col && c.b2 == p.row * t.cols + p.col
  }

  lemma {:induction false} RowCouplersSound(t: Tiling, gate: nat, row: nat, col: nat)
    requires gate < 4
    requires var start := StartRow(t.rule, gate); start <= row < t.rows && (row - start) % 2 == 0
    ensures forall c | c in RowCouplers(t, gate, row, col) :: IsCoupler(t, gate, c) && c.row == row && c.col >= col
    decreases t.cols - col
  {
    if col < t.cols {
      RowCouplersSound(t, gate, row, col + 1);
    }
  }

  lemma {:induction false} ScanFromSound(t: Tiling, gate: nat, row: nat)
    requires gate < 4
    requires var start := StartRow(t.rule, gate); start <= row && (row - start) % 2 == 0
    ensures forall c | c in ScanFrom(t, gate, row) :: IsCoupler(t, gate, c) && c.row >= row
    decreases t.rows - row
  {
    if row < t.rows {
      RowCouplersSound(t, gate, row, 0);
      ScanFromSound(t, gate, row + 2);
    }
  }

  /** Every emitted pair comes from a scanned cell whose partner is inside the grid. */
  lemma CouplersSound(t: Tiling, gate: nat)
    requires gate < 4
    ensures forall c | c in Couplers(t, gate) :: IsCoupler(t, gate, c)
  {
    ScanFromSound(t, gate, StartRow(t.rule, gate));
  }

  lemma {:induction false} RowCouplersComplete(t: Tiling, gate: nat, row: nat, col: nat, target: nat)
    requires gate < 4
    requires col <= target < t.cols
    requires InGrid(Partner(t, gate, Cell(row, target)), t.rows, t.cols)
    ensures exists c | c in RowCouplers(t, gate, row, col) :: c.row == row && c.col == target
    decreases t.cols - col
  {
    if col == target {
      assert CellCoupler(t, gate, row, col)[0] in RowCouplers(t, gate, row, col);
    } else {
      RowCouplersComplete(t, gate, row, col + 1, target);
      var c :| c in RowCouplers(t, gate, row, col + 1) && c.row == row && c.col == target;
      assert c in RowCouplers(t, gate, row, col);
    }
  }

  lemma {:induction false} ScanFromComplete(t: Tiling, gate: nat, row: nat, r: nat, col: nat)
    requires gate < 4
    requires row <= r < t.rows && (r - row) % 2 == 0 && col < t.cols
    requires InGrid(Partner(t, gate, Cell(r, col)), t.rows, t.cols)
    ensures exists c | c in ScanFrom(t, gate, row) :: c.row == r && c.col == col
    decreases t.rows - row
  {
    if r == row {
      RowCouplersComplete(t, gate, row, 0, col);
      var c :| c in RowCouplers(t, gate, row, 0) && c.row == r && c.col == col;
      assert c in ScanFrom(t, gate, row);
    } else {
      ScanFromComplete(t, gate, row + 2, r, col);
      var c :| c in ScanFrom(t, gate, row + 2) && c.row == r && c.col == col;
      assert c in ScanFrom(t, gate, row);
    }
  }

  /** Every scanned cell whose partner is inside the grid yields a pair. */
  lemma CouplersComplete(t: Tiling, gate: nat, row: nat, col: nat)
    requires gate < 4
    requires Scanned(t, gate, row, col)
    requires InGrid(Partner(t, gate, Cell(row, col)), t.rows, t.cols)
    ensures exists c | c in Couplers(t, gate) :: c.row == row && c.col == col
  {
    ScanFromComplete(t, gate, StartRow(t.rule, gate), row, col);
  }

  /** Both qubits of a pair lie in [0, rows*cols) and differ. */
  lemma CouplerInRange(t: Tiling, gate: nat, c: Coupler)
    requires gate < 4
    requires IsCoupler(t, gate, c)
    ensures c.b1 < t.rows * t.cols && c.b2 < t.rows * t.cols && c.b1 != c.b2
  {
    var p := Partner(t, gate, Cell(c.row, c.col));
    IndexInRange(c.row, c.col, t.rows, t.cols);
    IndexInRange(p.row as nat, p.col as nat, t.rows, t.cols);
    DivModUnique(c.b1, t.cols, c.row, c.col);
    DivModUnique(c.b2, t.cols, p.row as nat, p.col as nat);
  }

  lemma IndexInRange(row: nat, col: nat, rows: nat, cols: nat)
    requires row < rows && col < cols
    ensures row * cols + col < rows * cols
  {
    MulLe(row + 1, rows, cols);
    Distrib(row, cols);
  }

  /** The pairs of a layer, with both qubits in range and distinct. */
  lemma CouplersInRange(t: Tiling, gate: nat)
    requires gate < 4
    ensures forall c | c in Couplers(t, gate) :: c.b1 < t.rows * t.cols && c.b2 < t.rows * t.cols && c.b1 != c.b2
  {
    CouplersSound(t, gate);
    forall c | c in Couplers(t, gate)
      ensures c.b1 < t.rows * t.cols && c.b2 < t.rows * t.cols && c.b1 != c.b2
    {
      CouplerInRange(t, gate, c);
    }
  }

  /**
   * The scan loop: rows from the start row in steps of two, every column,
   * the partner computed through tempRow and tempCol, and the pair skipped
   * when the partner falls outside the grid.
   */
  method ScanCouplers(t: Tiling, gate: nat) returns (pairs: seq<Coupler>)
    requires gate < 4
    ensures pairs == Couplers(t, gate)
  {
    pairs := [];
    var row := StartRow(t.rule, gate);
    while row < t.rows
      invariant pairs + ScanFrom(t, gate, row) == Couplers(t, gate)
      decreases t.rows - row
    {
      ghost var old_pairs := pairs;
      pairs := ScanRow(t, gate, row, pairs);
      ScanAppend(old_pairs, RowCouplers(t, gate, row, 0), ScanFrom(t, gate, row + 2));
      row := row + 2;
    }
    assert ScanFrom(t, gate, row) == [];
    assert pairs + [] == pairs;
  }

  lemma ScanAppend(a: seq<Coupler>, b: seq<Coupler>, c: seq<Coupler>)
    ensures a + (b + c) == (a + b) + c
  {
  }

  /** The cells of one row, left to right. */
  method ScanRow(t: Tiling, gate: nat, row: nat, pairs: seq<Coupler>) returns (pairs': seq<Coupler>)
    requires gate < 4 && row < t.rows
    ensures pairs' == pairs + RowCouplers(t, gate, row, 0)
  {
    pairs' := pairs;
    var col := 0;
    while col < t.cols
      invariant col <= t.cols
      invariant pairs' + RowCouplers(t, gate, row, col) == pairs + RowCouplers(t, gate, row, 0)
      decreases t.cols - col
    {
      pairs' := ScanCell(t, gate, row, col, pairs');
      col := col + 1;
    }
  }

  /** One cell: its coupler, if its partner lies in the grid. */
  method ScanCell(t: Tiling, gate: nat, row: nat, col: nat, pairs: seq<Coupler>) returns (pairs': seq<Coupler>)
    requires gate < 4 && col < t.cols
    ensures pairs' + RowCouplers(t, gate, row, col + 1) == pairs + RowCouplers(t, gate, row, col)
  {
    var tempRow, tempCol := MovePartner(t, gate, row, col);
    if !(tempRow < 0 || tempCol < 0 || tempRow >= t.rows || tempCol >= t.cols) {
      NatMul(row, t.cols);
      NatMul(tempRow, t.cols);
      var b1: nat := row * t.cols + col;
      var b2: nat := tempRow * t.cols + tempCol;
      assert CellCoupler(t, gate, row, col) == [Coupler(row, col, b1, b2)];
      pairs' := pairs + [Coupler(row, col, b1, b2)];
    } else {
      assert CellCoupler(t, gate, row, col) == [];
      pairs' := pairs;
    }
  }

  lemma NatMul(a: nat, b: nat)
    ensures a * b >= 0
  {
  }

  /** The partner of one cell, moved step by step as the scripts do with tempRow and tempCol. */
  method MovePartner(t: Tiling, gate: nat, row: nat, col: nat) returns (tempRow: int, tempCol: int)
    requires gate < 4
    ensures Cell(tempRow, tempCol) == Partner(t, gate, Cell(row, col))
    ensures tempRow == row + 1 || tempRow == row - 1
  {
    tempRow := row;
    tempCol := col;
    tempRow := tempRow + (if RowBit(gate) then 1 else -1);
    match t.rule {
      case SimpleRows(_) =>
        tempCol := tempCol + (if t.cols == 1 then 0 else if ColBit(gate) then 1 else 0);
      case ParityRows =>
        if StartsEvenRow(gate) {
          tempCol := tempCol + (if ColBit(gate) then 0 else -1);
        } else {
          tempCol := tempCol + (if ColBit(gate) then 1 else 0);
        }
    }
  }

  // ---------------------------------------------------------------------
  // The parity-start skip test as written

  /**
   * One cell of the parity-start scan as written: the rows scanned run to
   * n / rowLen and the columns to rowLen, but the skip test bounds the partner
   * row by rowLen and its column by colLen = n / rowLen, and the indices use
   * the stride rowLen. colLen is a real because one script computes it with
   * true division.
   */
  function ParityCellAsWritten(rowLen: nat, colLen: real, gate: nat, row: int, col: int): Option<(int, int)>
    requires gate < 4
  {
    var p := ParityPartner(Cell(row, col), gate);
    if p.row < 0 || p.col < 0 || p.row >= rowLen || p.col as real >= colLen then None
    else Some((row * rowLen + col, p.row * rowLen + p.col))
  }

  /**
   * With rowLen == 1 (n = 5 in the C++ script, n = 3 in the Python one, or
   * any n >= 2 whose factorisation is 1 x n) pattern 1 at row 1, column 0 is
   * scanned and the written test couples qubit 1 with itself; the corrected
   * scan skips that cell.
   */
  lemma ParityAsWrittenSelfPair(n: nat)
    requires n >= 2
    ensures ParityCellAsWritten(1, n as real, 1, 1, 0) == Some((1, 1))
    ensures Scanned(Tiling(ParityRows, n, 1), 1, 1, 0)
    ensures CellCoupler(Tiling(ParityRows, n, 1), 1, 1, 0) == []
  {
    assert ParityPartner(Cell(1, 0), 1) == Cell(0, 1);
  }

  /**
   * On a grid that is not square the written test couples across a row end:
   * at n = 6 (three rows of two), pattern 1 at row 1, column 1 has its
   * partner at column 2, outside the grid, and the written test yields
   * (b1, b2) = (3, 2) in the scanned grid, the first cell of its own row
   * (in cirq_sycamore.py, with no transpose after it, qubits 3 and 2).
   */
  lemma ParityAsWrittenWrapPair()
    ensures Scanned(Tiling(ParityRows, 3, 2), 1, 1, 1)
    ensures ParityCellAsWritten(2, 3.0, 1, 1, 1) == Some((3, 2))
    ensures CellCoupler(Tiling(ParityRows, 3, 2), 1, 1, 1) == []
  {
    assert ParityPartner(Cell(1, 1), 1) == Cell(0, 2);
  }

  /**
   * It also drops real couplers: at n = 8 (four rows of two), pattern 0 at
   * row 3, column 0 has its partner at row 2 inside the grid, and the
   * written test, bounding the row by rowLen = 2, skips the pair of qubits 6
   * and 4.
   */
  lemma ParityAsWrittenDropsPair()
    ensures Scanned(Tiling(ParityRows, 4, 2), 0, 3, 0)
    ensures ParityCellAsWritten(2, 4.0, 0, 3, 0) == None
    ensures CellCoupler(Tiling(ParityRows, 4, 2), 0, 3, 0) == [Coupler(3, 0, 6, 4)]
  {
    assert ParityPartner(Cell(3, 0), 0) == Cell(2, 0);
  }

  /** On a square grid the written skip test is the corrected one. */
  lemma ParityAsWrittenOnSquare(r: nat, gate: nat, row: nat, col: nat)
    requires gate < 4 && r > 0
    ensures var t := Tiling(ParityRows, r, r);
      var cs := CellCoupler(t, gate, row, col);
      match ParityCellAsWritten(r, r as real, gate, row, col)
      case None => cs == []
      case Some(pair) => cs == [Coupler(row, col, pair.0 as nat, pair.1 as nat)]
  {
  }
}
