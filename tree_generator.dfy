/** Generating a batch of trees on a grid (utils/treeGenerator.js): `count`
    trees, 1 to 1000 of them, laid out on a grid of about 4:3 columns to rows
    inside a 3% margin, filled row by row from the bottom-left corner, and
    inserted in one batch. */
module TreeGenerator {
  import opened Js
  import opened Items

  /** The garden's defaults as the screen hands them over. */
  datatype GenDefaults = GenDefaults(itemType: Value, sort: Value, yearPlanted: Value, owner: Value, status: Value)

  /** `!count || count < 1 || count > 1000` rejects the count. */
  predicate ValidCount(count: int) {
    1 <= count <= 1000
  }

  /** `Math.ceil(Math.sqrt(count * 4 / 3))`: the least c with c * c >= count * 4 / 3. */
  function GridCols(count: nat): (c: nat)
    requires count >= 1
    ensures c >= 1 && 3 * c * c >= 4 * count
    ensures 3 * (c - 1) * (c - 1) < 4 * count
  {
    LeastColsFrom(count, 1)
  }

  function LeastColsFrom(count: nat, c: nat): (r: nat)
    requires c >= 1 && 3 * (c - 1) * (c - 1) < 4 * count
    ensures r >= c && 3 * r * r >= 4 * count && 3 * (r - 1) * (r - 1) < 4 * count
    decreases 4 * count - c
  {
    if 3 * c * c >= 4 * count then c
    else
      assert c <= c * c;
      LeastColsFrom(count, c + 1)
  }

  /** `Math.ceil(count / cols)` */
  function GridRows(count: nat, cols: nat): (rows: nat)
    requires cols >= 1
    ensures count >= 1 ==> rows >= 1
  {
    (count + cols - 1) / cols
  }

  /** The rows hold every tree, and one row fewer would not. */
  lemma {:induction false} RowsCover(count: nat, cols: nat)
    requires cols >= 1
    ensures cols * GridRows(count, cols) >= count > cols * (GridRows(count, cols) - 1)
  {
    var q, m := (count + cols - 1) / cols, (count + cols - 1) % cols;
    assert count + cols - 1 == cols * q + m;
    assert cols * (q - 1) == cols * q - cols;
  }

  /** `availableSize / (n - 1 || 1)` over the 94% between the margins. */
  function Spacing(n: nat): (s: real)
    requires n >= 1
    ensures s > 0.0
  {
    if n - 1 == 0 then 94.0 else 94.0 / ((n - 1) as real)
  }

  /** The position of tree i: column `i % cols` from the left margin, row
      `i / cols` up from the bottom margin. */
  function GridX(i: nat, cols: nat): real
    requires cols >= 1
  {
    3.0 + ((i % cols) as real) * Spacing(cols)
  }

  function GridY(i: nat, cols: nat, rows: nat): real
    requires cols >= 1 && rows >= 1
  {
    100.0 - 3.0 - ((i / cols) as real) * Spacing(rows)
  }

  /** The position written out from the column, the row and the two spacings. */
  lemma GridPosition(i: nat, cols: nat, rows: nat, col: nat, row: nat, sx: real, sy: real)
    requires cols >= 1 && rows >= 1 && col == i % cols && row == i / cols
    requires sx == Spacing(cols) && sy == Spacing(rows)
    ensures 3.0 + (col as real) * sx == GridX(i, cols)
    ensures 100.0 - 3.0 - (row as real) * sy == GridY(i, cols, rows)
  {
  }

  /** Record i of a batch of `count`. */
  function GridRecord(count: nat, gardenId: string, d: GenDefaults, i: nat): NewRow
    requires count >= 1
  {
    var cols := GridCols(count);
    var rows := GridRows(count, cols);
    NewRow(gardenId, Or(d.itemType, "olive"), Or(d.sort, ""), OrNull(d.yearPlanted), OrNull(d.owner),
      Or(d.status, "Available"), GridX(i, cols), GridY(i, cols, rows))
  }

  /** k steps of the spacing stay within the 94% when k < n. */
  lemma StepsWithin(k: nat, n: nat)
    requires k < n
    ensures 0.0 <= (k as real) * Spacing(n) <= 94.0
  {
    if n - 1 != 0 {
      var s := Spacing(n);
      assert (k as real) <= ((n - 1) as real);
      assert (k as real) * s <= ((n - 1) as real) * s;
      assert ((n - 1) as real) * s == 94.0;
    }
  }

  /** Row i / cols exists when the rows cover the trees. */
  lemma {:induction false} RowExists(i: nat, count: nat, cols: nat, rows: nat)
    requires cols >= 1 && i < count <= cols * rows
    ensures i / cols < rows
  {
    assert cols * (i / cols) <= i;
  }

  lemma ScaledLess(a: nat, b: nat, s: real)
    requires a < b && s > 0.0
    ensures (a as real) * s < (b as real) * s
  {
  }

  /** Every tree of a valid batch lies within the margins, [3, 97] on each axis. */
  lemma {:induction false} PositionsWithinMargins(count: nat, gardenId: string, d: GenDefaults, i: nat)
    requires ValidCount(count) && i < count
    ensures var r := GridRecord(count, gardenId, d, i);
      3.0 <= r.x <= 97.0 && 3.0 <= r.y <= 97.0
  {
    var cols := GridCols(count);
    var rows := GridRows(count, cols);
    RowsCover(count, cols);
    RowExists(i, count, cols, rows);
    ColumnWithin(i, cols);
    RowWithin(i, cols, rows);
  }

  lemma ColumnWithin(i: nat, cols: nat)
    requires cols >= 1
    ensures 3.0 <= GridX(i, cols) <= 97.0
  {
    StepsWithin(i % cols, cols);
  }

  lemma RowWithin(i: nat, cols: nat, rows: nat)
    requires cols >= 1 && rows >= 1 && i / cols < rows
    ensures 3.0 <= GridY(i, cols, rows) <= 97.0
  {
    StepsWithin(i / cols, rows);
  }

  /** The first tree sits in the bottom-left corner. */
  lemma FirstAtBottomLeft(count: nat, gardenId: string, d: GenDefaults)
    requires ValidCount(count)
    ensures GridRecord(count, gardenId, d, 0).x == 3.0 && GridRecord(count, gardenId, d, 0).y == 97.0
  {
  }

  /** Distinct trees get distinct positions, and a later row lies higher up. */
  lemma {:induction false} DistinctCells(cols: nat, rows: nat, i: nat, j: nat)
    requires cols >= 1 && rows >= 1 && i != j
    ensures GridX(i, cols) != GridX(j, cols) || GridY(i, cols, rows) != GridY(j, cols, rows)
    ensures i / cols < j / cols ==> GridY(i, cols, rows) > GridY(j, cols, rows)
  {
    if i / cols < j / cols {
      LaterRowHigher(cols, rows, i, j);
    } else if j / cols < i / cols {
      LaterRowHigher(cols, rows, j, i);
    } else {
      SameRowApart(cols, i, j);
    }
  }

  lemma LaterRowHigher(cols: nat, rows: nat, i: nat, j: nat)
    requires cols >= 1 && rows >= 1 && i / cols < j / cols
    ensures GridY(i, cols, rows) > GridY(j, cols, rows)
  {
    ScaledLess(i / cols, j / cols, Spacing(rows));
  }

  lemma SameRowApart(cols: nat, i: nat, j: nat)
    requires cols >= 1 && i != j && i / cols == j / cols
    ensures GridX(i, cols) != GridX(j, cols)
  {
    SameRowDistinctColumn(i, j, cols);
    if i % cols < j % cols {
      ScaledLess(i % cols, j % cols, Spacing(cols));
    } else {
      ScaledLess(j % cols, i % cols, Spacing(cols));
    }
  }

  /** Two indices in the same row of the grid are in different columns. */
  lemma SameRowDistinctColumn(i: nat, j: nat, cols: nat)
    requires cols >= 1 && i != j && i / cols == j / cols
    ensures i % cols != j % cols
  {
    assert i == cols * (i / cols) + i % cols && j == cols * (j / cols) + j % cols;
  }

  lemma DistinctPositions(count: nat, gardenId: string, d: GenDefaults, i: nat, j: nat)
    requires ValidCount(count) && i < count && j < count && i != j
    ensures var a, b := GridRecord(count, gardenId, d, i), GridRecord(count, gardenId, d, j);
      a.x != b.x || a.y != b.y
  {
    var cols := GridCols(count);
    RowsCover(count, cols);
    DistinctCells(cols, GridRows(count, cols), i, j);
  }

  /** An example of the grid rule: twelve trees make four columns and three rows. */
  lemma TwelveTrees()
    ensures GridCols(12) == 4 && GridRows(12, 4) == 3
  {
    assert 3 * 3 * 3 < 4 * 12 <= 3 * 4 * 4;
  }

  /** `generateTrees({count, gardenId, defaults})`: None for a rejected count,
      before any insert; otherwise the one batch insert of `count` active trees
      laid out on the grid. */
  method GenerateTrees(count: int, gardenId: string, d: GenDefaults) returns (w: Option<Write>)
    ensures w.None? <==> !ValidCount(count)
    ensures w.Some? ==>
      w.value.Insert? && w.value.into == Trees && w.value.setsActive && |w.value.rows| == count &&
      forall k :: 0 <= k < count ==> w.value.rows[k] == GridRecord(count, gardenId, d, k)
  {
    if count == 0 || count < 1 || count > 1000 {
      return None;
    }
    var cols := GridCols(count);
    var rows := GridRows(count, cols);
    var spacingX := Spacing(cols);
    var spacingY := Spacing(rows);
    var trees: seq<NewRow> := [];
    for i := 0 to count
      invariant |trees| == i
      invariant forall k :: 0 <= k < i ==> trees[k] == GridRecord(count, gardenId, d, k)
    {
      var col := i % cols;
      var row := i / cols;
      var x := 3.0 + (col as real) * spacingX;
      var y := 100.0 - 3.0 - (row as real) * spacingY;
      var tree := NewRow(gardenId, Or(d.itemType, "olive"), Or(d.sort, ""), OrNull(d.yearPlanted),
        OrNull(d.owner), Or(d.status, "Available"), x, y);
      GridPosition(i, cols, rows, col, row, spacingX, spacingY);
      assert tree == GridRecord(count, gardenId, d, i);
      trees := trees + [tree];
    }
    return Some(Insert(Trees, trees, true));
  }

  /** Every record of a batch belongs to the garden and takes each default only
      when it is set. */
  lemma RecordDefaults(count: nat, gardenId: string, d: GenDefaults, i: nat)
    requires ValidCount(count)
    ensures var r := GridRecord(count, gardenId, d, i);
      r.gardenId == gardenId &&
      r.itemType == (if Truthy(d.itemType) then d.itemType else Str("olive")) &&
      r.sort == (if Truthy(d.sort) then d.sort else Str("")) &&
      r.yearPlanted == (if Truthy(d.yearPlanted) then d.yearPlanted else Null) &&
      r.owner == (if Truthy(d.owner) then d.owner else Null) &&
      r.status == (if Truthy(d.status) then d.status else Str("Available"))
  {
  }
}
