/** The result table: its rows and the recompute pass over them. */
module Table {
  import opened Area
  import opened Ledger
  import opened Catalog
  import opened Pricing

  /** One table row. `material` is the catalog name (the display suffix for trim rows is
      carried by `trim`); `total`, `unitPrice` and `belowMinimum` are rewritten on recompute. */
  datatype Row = Row(material: string, length: real, width: real, quantity: int, trim: bool,
                     total: int, unitPrice: real, belowMinimum: bool)

  /** A material whose rows add up to less than this is flagged. */
  const MinimumCharge: int := 200

  /** Two rows describe the same order line: the fields a row keeps from its creation. */
  predicate SameItem(a: Row, b: Row)
  {
    a.material == b.material && a.length == b.length && a.width == b.width
    && a.quantity == b.quantity && a.trim == b.trim
  }

  predicate SameItems(xs: seq<Row>, ys: seq<Row>)
  {
    |xs| == |ys| && forall k | 0 <= k < |xs| :: SameItem(xs[k], ys[k])
  }

  /** The first loop of `updateAllRowsInTable` on one row: new total and unit price from
      the row's own line and the current ledger. */
  function Reprice(catalog: seq<Material>, sums: AreaSums, row: Row): (r: Row)
  {
    var total := RowAmount(catalog, sums, row.material, row.length, row.width, row.quantity, row.trim);
    row.(total := total, unitPrice := CalculateUnitPrice(total, row.quantity))
  }

  function RepriceAll(catalog: seq<Material>, sums: AreaSums, rows: seq<Row>): (r: seq<Row>)
    ensures SameItems(rows, r)
  {
    seq(|rows|, k requires 0 <= k < |rows| => Reprice(catalog, sums, rows[k]))
  }

  /** The sum of the totals of the rows of one material (`materialTotals[material]`). */
  function MaterialTotal(rows: seq<Row>, material: string): int
  {
    if rows == [] then 0
    else MaterialTotal(rows[..|rows| - 1], material)
         + (if rows[|rows| - 1].material == material then rows[|rows| - 1].total else 0)
  }

  /** The second loop of `updateAllRowsInTable`: flag every row whose material's total is
      below the minimum charge. */
  function FlagAll(rows: seq<Row>): (r: seq<Row>)
    ensures SameItems(rows, r)
  {
    seq(|rows|, k requires 0 <= k < |rows| =>
      rows[k].(belowMinimum := MaterialTotal(rows, rows[k].material) < MinimumCharge))
  }

  /** The whole recompute pass. */
  function Recompute(catalog: seq<Material>, sums: AreaSums, rows: seq<Row>): seq<Row>
  {
    FlagAll(RepriceAll(catalog, sums, rows))
  }

  /** A row as `addRowToTable` builds it, before any pricing. */
  function Blank(material: string, dim: Dimension, trim: bool): Row
  {
    Row(material, dim.length, dim.width, dim.quantity, trim, 0, 0.0, false)
  }

  /** The rows a submission appends, one per dimension and in input order, each priced
      against the ledger after the whole batch has been added. */
  function NewRows(catalog: seq<Material>, sums: AreaSums, material: string,
                   dims: seq<Dimension>, trim: bool): (rows: seq<Row>)
    ensures |rows| == |dims|
    ensures forall k | 0 <= k < |dims| :: SameItem(rows[k], Blank(material, dims[k], trim))
  {
    seq(|dims|, k requires 0 <= k < |dims| => Reprice(catalog, sums, Blank(material, dims[k], trim)))
  }

  /** Growing the batch by one dimension appends that dimension's priced row. */
  lemma NewRowsExtend(catalog: seq<Material>, sums: AreaSums, material: string,
                      dims: seq<Dimension>, i: int, trim: bool)
    requires 0 <= i < |dims|
    ensures NewRows(catalog, sums, material, dims[..i + 1], trim)
            == NewRows(catalog, sums, material, dims[..i], trim) + [Reprice(catalog, sums, Blank(material, dims[i], trim))]
  {
    assert dims[..i + 1][..i] == dims[..i];
  }

  /** The row list with row `i` taken out, the others kept in order. */
  function RemoveAt(rows: seq<Row>, i: int): (r: seq<Row>)
    requires 0 <= i < |rows|
    ensures |r| == |rows| - 1
    ensures forall k | 0 <= k < i :: r[k] == rows[k]
    ensures forall k | i <= k < |r| :: r[k] == rows[k + 1]
  {
    rows[..i] + rows[i + 1..]
  }

  /** Extending a prefix of the rows by one row adds that row's total to its material. */
  lemma MaterialTotalExtend(rows: seq<Row>, i: int, material: string)
    requires 0 <= i < |rows|
    ensures MaterialTotal(rows[..i + 1], material)
            == MaterialTotal(rows[..i], material) + (if rows[i].material == material then rows[i].total else 0)
  {
    assert rows[..i + 1][..i] == rows[..i];
  }

  /** Material totals depend only on the rows' materials and totals. */
  lemma {:induction false} MaterialTotalSame(xs: seq<Row>, ys: seq<Row>, material: string)
    requires |xs| == |ys|
    requires forall k | 0 <= k < |xs| :: xs[k].material == ys[k].material && xs[k].total == ys[k].total
    ensures MaterialTotal(xs, material) == MaterialTotal(ys, material)
  {
    if xs != [] {
      MaterialTotalSame(xs[..|xs| - 1], ys[..|ys| - 1], material);
    }
  }

  /** With no negative totals, a material's total is at least the total of any one of its rows. */
  lemma {:induction false} MaterialTotalAtLeast(rows: seq<Row>, material: string, k: int)
    requires 0 <= k < |rows| && rows[k].material == material
    requires forall j | 0 <= j < |rows| :: 0 <= rows[j].total
    ensures rows[k].total <= MaterialTotal(rows, material)
  {
    var init := rows[..|rows| - 1];
    if k < |rows| - 1 {
      MaterialTotalAtLeast(init, material, k);
    } else {
      MaterialTotalNonNegative(init, material);
    }
  }

  lemma {:induction false} MaterialTotalNonNegative(rows: seq<Row>, material: string)
    requires forall j | 0 <= j < |rows| :: 0 <= rows[j].total
    ensures 0 <= MaterialTotal(rows, material)
  {
    if rows != [] {
      MaterialTotalNonNegative(rows[..|rows| - 1], material);
    }
  }

  /** Recompute reads only each row's order line: rows that describe the same lines come
      out identical, whatever totals, unit prices and flags they held before. */
  lemma RecomputeDependsOnlyOnItems(catalog: seq<Material>, sums: AreaSums, xs: seq<Row>, ys: seq<Row>)
    requires SameItems(xs, ys)
    ensures Recompute(catalog, sums, xs) == Recompute(catalog, sums, ys)
  {
    var rx, ry := RepriceAll(catalog, sums, xs), RepriceAll(catalog, sums, ys);
    forall material {
      MaterialTotalSame(rx, ry, material);
    }
    var fx, fy := FlagAll(rx), FlagAll(ry);
    assert |fx| == |fy|;
    forall k | 0 <= k < |fx| ensures fx[k] == fy[k] {
      assert rx[k].(belowMinimum := false) == ry[k].(belowMinimum := false);
    }
  }

  /** Running the recompute pass twice with no ledger change gives the same rows as once. */
  lemma RecomputeIdempotent(catalog: seq<Material>, sums: AreaSums, rows: seq<Row>)
    ensures Recompute(catalog, sums, Recompute(catalog, sums, rows)) == Recompute(catalog, sums, rows)
  {
    var once := Recompute(catalog, sums, rows);
    RecomputeDependsOnlyOnItems(catalog, sums, once, rows);
  }

  /** After recompute the rows are the same lines in the same order; each row's total and
      unit price come from its own line and the ledger alone, and a row is flagged exactly
      when the summed totals of its material are below the minimum charge. */
  lemma RecomputeRow(catalog: seq<Material>, sums: AreaSums, rows: seq<Row>, k: int)
    requires 0 <= k < |rows|
    ensures |Recompute(catalog, sums, rows)| == |rows|
    ensures SameItem(Recompute(catalog, sums, rows)[k], rows[k])
    ensures Recompute(catalog, sums, rows)[k].total
            == RowAmount(catalog, sums, rows[k].material, rows[k].length, rows[k].width, rows[k].quantity, rows[k].trim)
    ensures Recompute(catalog, sums, rows)[k].unitPrice
            == CalculateUnitPrice(Recompute(catalog, sums, rows)[k].total, rows[k].quantity)
    ensures Recompute(catalog, sums, rows)[k].belowMinimum
            <==> MaterialTotal(Recompute(catalog, sums, rows), rows[k].material) < MinimumCharge
  {
    var r := RepriceAll(catalog, sums, rows);
    var out := FlagAll(r);
    MaterialTotalSame(r, out, rows[k].material);
  }

  /** Rows of one material all carry the same flag, and none is flagged when one of them
      alone reaches the minimum charge and no total is negative. */
  lemma FlagsPerMaterial(catalog: seq<Material>, sums: AreaSums, rows: seq<Row>, i: int, j: int)
    requires 0 <= i < |rows| && 0 <= j < |rows| && rows[i].material == rows[j].material
    ensures Recompute(catalog, sums, rows)[i].belowMinimum == Recompute(catalog, sums, rows)[j].belowMinimum
    ensures (forall k | 0 <= k < |rows| :: 0 <= Recompute(catalog, sums, rows)[k].total)
            && MinimumCharge <= Recompute(catalog, sums, rows)[j].total
            ==> !Recompute(catalog, sums, rows)[i].belowMinimum
  {
    var out := Recompute(catalog, sums, rows);
    RecomputeRow(catalog, sums, rows, i);
    RecomputeRow(catalog, sums, rows, j);
    if (forall k | 0 <= k < |rows| :: 0 <= out[k].total) && MinimumCharge <= out[j].total {
      MaterialTotalAtLeast(out, rows[j].material, j);
    }
  }

  /** Every row of a submission is priced on the ledger after the whole batch: its total
      is the rate times its billed units, rounded, and the rate uses the discount price
      exactly when the material's earlier reading plus the batch's combined area reaches
      the threshold. */
  lemma BatchRowsSeeCombinedArea(catalog: seq<Material>, sums: AreaSums, material: string,
                                 dims: seq<Dimension>, trim: bool, k: int)
    requires 0 <= k < |dims|
    ensures var after := BatchLedger(sums, material, dims, trim);
            -0.5 <= NewRows(catalog, after, material, dims, trim)[k].total as real
                    - ExactAmount(catalog, after, material, dims[k].length, dims[k].width, dims[k].quantity, trim)
                 <= 0.5
    ensures LineRate(catalog, BatchLedger(sums, material, dims, trim), material, trim)
            == (if Current(sums, material) + TotalArea(dims, trim) >= DiscountThreshold
                then GetMaterialPrice(catalog, material, true)
                else GetMaterialPrice(catalog, material, false))
               + (if trim then TrimSurcharge else 0.0)
  {
    var after := BatchLedger(sums, material, dims, trim);
    var d := dims[k];
    assert NewRows(catalog, after, material, dims, trim)[k].total
           == RowAmount(catalog, after, material, d.length, d.width, d.quantity, trim);
    RowAmountNearest(catalog, after, material, d.length, d.width, d.quantity, trim);
    BatchLedgerAdds(sums, material, dims, trim);
  }

  /** A first line of 100 cm x 100 cm, nine pieces, adds 108 units to an empty ledger and
      so is priced at the discount rate on its own. */
  lemma FirstLineCanCrossThreshold(catalog: seq<Material>)
    ensures var dims := [Dimension(100.0, 100.0, 9)];
            var after := BatchLedger(map[], "Vinyl", dims, false);
            Current(after, "Vinyl") == 108.0 && Discounted(after, "Vinyl")
  {
    var dims := [Dimension(100.0, 100.0, 9)];
    assert dims[..0] == [];
    assert 11.0 < 100.0 * 100.0 / UnitArea <= 12.0;
    assert PiecewiseUnits(100.0, 100.0, 9) == 108;
  }
}
