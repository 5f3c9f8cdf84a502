/**
 * Where the dice sit on the 800 x 600 screen. The game lays out its dice in
 * rows of at most five, each row centred horizontally, with a gap of
 * `DiceMargin` between neighbouring dice. `PosX` and `PosY` give the place of
 * the k-th die of n directly; the session's `ResetDice` builds the same
 * layout row by row.
 */
module Layout {

  const ScreenWidth := 800
  const ScreenHeight := 600
  const DiceSize := 100
  const DiceMargin := 20
  const DicePerRow := 5
  /** Distance between the left edges of two neighbouring dice in a row. */
  const Pitch := DiceSize + DiceMargin

  function Min(a: int, b: int): int { if a <= b then a else b }

  /** Width taken by `m` dice side by side. */
  function RowWidth(m: int): int { m * DiceSize + (m - 1) * DiceMargin }

  /** Left edge of the first die of a centred row of `m` dice. The game floors
      the division; with a positive divisor Dafny's `/` floors too. */
  function RowStartX(m: int): int { (ScreenWidth - RowWidth(m)) / 2 }

  /** Number of rows for `n` dice: the ceiling of n / 5. */
  function Rows(n: nat): (r: nat)
    ensures r * DicePerRow >= n
    ensures n > 0 ==> (r - 1) * DicePerRow < n
    ensures n == 0 <==> r == 0
  {
    (n + DicePerRow - 1) / DicePerRow
  }

  /** Number of dice in row `row` of a layout of `n` dice. */
  function InRow(n: nat, row: nat): int { Min(DicePerRow, n - row * DicePerRow) }

  /** Left edge of the k-th of n dice: column k % 5 of row k / 5. */
  function PosX(n: nat, k: nat): (r: int)
    requires k < n
    ensures n <= DicePerRow ==> r == RowStartX(n) + k * Pitch
    ensures RowStartX(InRow(n, k / DicePerRow)) <= r
    ensures r <= RowStartX(InRow(n, k / DicePerRow)) + (InRow(n, k / DicePerRow) - 1) * Pitch
  {
    RowStartX(InRow(n, k / DicePerRow)) + (k % DicePerRow) * Pitch
  }

  /** Top edge of the k-th of n dice: the block of rows starts 50 pixels higher
      per row, above the line 50 pixels over the centred single-die position. */
  function PosY(n: nat, k: nat): (r: int)
    requires k < n
    ensures n <= DicePerRow ==> r == 200
    ensures ScreenHeight / 2 - DiceSize / 2 - 50 * Rows(n) <= r
    ensures r <= ScreenHeight / 2 - DiceSize / 2 - 50 * Rows(n) + (Rows(n) - 1) * Pitch
  {
    ScreenHeight / 2 - DiceSize / 2 - 50 * Rows(n) + (k / DicePerRow) * Pitch
  }

  /** Slot `i` of row `row` is die number `row * 5 + i`. */
  lemma SlotIndex(row: nat, i: nat)
    requires i < DicePerRow
    ensures (row * DicePerRow + i) / DicePerRow == row
    ensures (row * DicePerRow + i) % DicePerRow == i
  {
  }

  /** With at most five dice they share one row at height 200, left edges
      `Pitch` apart, the first one placed so that the row is centred. */
  lemma SingleRow(n: nat, k: nat)
    requires 0 < n <= DicePerRow && k < n
    ensures PosY(n, k) == 200
    ensures PosX(n, k) == (ScreenWidth - RowWidth(n)) / 2 + k * Pitch
    ensures k + 1 < n ==> PosX(n, k + 1) - PosX(n, k) == Pitch
  {
  }

  /** Every row before the last is full, the last holds between one and five
      dice, and the k-th die lies in a row that exists, at a column that row has. */
  lemma RowsHoldAtMostFive(n: nat, k: nat)
    requires k < n
    ensures forall row :: 0 <= row < Rows(n) ==> 1 <= InRow(n, row) <= DicePerRow
    ensures forall row :: 0 <= row < Rows(n) - 1 ==> InRow(n, row) == DicePerRow
    ensures k / DicePerRow < Rows(n)
    ensures k % DicePerRow < InRow(n, k / DicePerRow)
  {
  }

  /** Each row is centred: the space left of its first die equals the space
      right of its last die. */
  lemma RowCentred(n: nat, row: nat)
    requires row < Rows(n)
    ensures InRow(n, row) >= 1
    ensures PosX(n, row * DicePerRow) ==
            ScreenWidth - (PosX(n, row * DicePerRow + InRow(n, row) - 1) + DiceSize)
  {
  }

  /** Two different dice never overlap: they are at least a die and a margin
      apart horizontally (same row) or vertically (different rows). */
  lemma NoOverlap(n: nat, k1: nat, k2: nat)
    requires k1 < n && k2 < n && k1 != k2
    ensures PosX(n, k1) + Pitch <= PosX(n, k2) || PosX(n, k2) + Pitch <= PosX(n, k1) ||
            PosY(n, k1) + Pitch <= PosY(n, k2) || PosY(n, k2) + Pitch <= PosY(n, k1)
  {
    var r1, c1 := k1 / DicePerRow, k1 % DicePerRow;
    var r2, c2 := k2 / DicePerRow, k2 % DicePerRow;
    assert k1 == r1 * DicePerRow + c1 && k2 == r2 * DicePerRow + c2;
    if r1 == r2 {
      var left := RowStartX(InRow(n, r1));
      assert PosX(n, k1) == left + c1 * Pitch && PosX(n, k2) == left + c2 * Pitch;
      if c1 < c2 {
        assert c2 * Pitch - c1 * Pitch == (c2 - c1) * Pitch >= Pitch;
      } else {
        assert c1 * Pitch - c2 * Pitch == (c1 - c2) * Pitch >= Pitch;
      }
    } else {
      var top := ScreenHeight / 2 - DiceSize / 2 - 50 * Rows(n);
      assert PosY(n, k1) == top + r1 * Pitch && PosY(n, k2) == top + r2 * Pitch;
      if r1 < r2 {
        assert r2 * Pitch - r1 * Pitch == (r2 - r1) * Pitch >= Pitch;
      } else {
        assert r1 * Pitch - r2 * Pitch == (r1 - r2) * Pitch >= Pitch;
      }
    }
  }

  /** The die rectangle at (x, y) lies wholly on the screen. */
  predicate OnScreen(x: int, y: int)
  {
    0 <= x && x + DiceSize <= ScreenWidth && 0 <= y && y + DiceSize <= ScreenHeight
  }

  /** Up to 25 dice (five rows) fit on the screen. */
  lemma FitsUpToFiveRows(n: nat, k: nat)
    requires n <= DicePerRow * DicePerRow && k < n
    ensures OnScreen(PosX(n, k), PosY(n, k))
  {
  }

  /** From 26 dice on, the first row starts above the top of the screen. */
  lemma OffScreenFromSixRows(n: nat)
    requires n > DicePerRow * DicePerRow
    ensures !OnScreen(PosX(n, 0), PosY(n, 0))
  {
  }
}
