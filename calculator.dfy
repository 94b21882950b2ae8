/** The page's state and its event handlers: the ledger, the result table and the
    dimension groups of the entry form. */
module Calculator {
  import opened Area
  import opened Ledger
  import opened Catalog
  import opened Pricing
  import opened Form
  import opened Table

  /** `materialTotals[material] || 0`. */
  function Lookup(totals: map<string, int>, material: string): int
  {
    if material in totals then totals[material] else 0
  }

  class Calculator {
    /** The material list loaded at start-up; never changed afterwards. */
    const catalog: seq<Material>
    /** `materialAreaSums`. */
    var areaSums: AreaSums
    /** The rows of the result table, in table order. */
    var rows: seq<Row>
    /** The dimension groups of the form, in page order. */
    var groups: seq<DimensionGroup>

    /** The form always holds at least one dimension group. */
    ghost predicate Valid()
      reads this
    {
      |groups| >= 1
    }

    constructor (catalog: seq<Material>)
      ensures Valid()
      ensures this.catalog == catalog && areaSums == map[] && rows == [] && groups == [EmptyGroup]
    {
      this.catalog := catalog;
      areaSums := map[];
      rows := [];
      groups := [EmptyGroup];
    }

    /** `updateMaterialAreaSums`: adds one dimension's ledger area to the material's entry. */
    method UpdateMaterialAreaSums(material: string, length: real, width: real, quantity: int, isTrim: bool)
      modifies this
      ensures areaSums == Accumulate(old(areaSums), material, LedgerArea(length, width, quantity, isTrim))
      ensures rows == old(rows) && groups == old(groups)
    {
      var area := if isTrim then length * width * quantity as real / UnitArea
                  else PiecewiseUnits(length, width, quantity) as real;
      areaSums := areaSums[material := Units(Current(areaSums, material) + area)];
    }

    /** `resetMaterialAreaSums`: empties the ledger. */
    method ResetMaterialAreaSums()
      modifies this
      ensures areaSums == map[] && rows == old(rows) && groups == old(groups)
    {
      areaSums := map[];
    }

    /** `addRowToTable`: appends a row with the given total and the unit price derived from it. */
    method AddRowToTable(material: string, dim: Dimension, totalAmount: int, isTrim: bool)
      modifies this
      ensures rows == old(rows) + [Row(material, dim.length, dim.width, dim.quantity, isTrim, totalAmount,
                                       CalculateUnitPrice(totalAmount, dim.quantity), false)]
      ensures areaSums == old(areaSums) && groups == old(groups)
    {
      var unitPrice := CalculateUnitPrice(totalAmount, dim.quantity);
      rows := rows + [Row(material, dim.length, dim.width, dim.quantity, isTrim, totalAmount, unitPrice, false)];
    }

    /** The delete button of row `i`: lowers the material's entry by the row's batch-rounded
        area, removes the row and recomputes the table. */
    method DeleteRow(i: int)
      requires Valid() && 0 <= i < |rows|
      modifies this
      ensures Valid()
      ensures areaSums == Deduct(old(areaSums), old(rows)[i].material,
                                 BatchUnits(old(rows)[i].length, old(rows)[i].width, old(rows)[i].quantity))
      ensures rows == Recompute(catalog, areaSums, RemoveAt(old(rows), i))
      ensures groups == old(groups)
    {
      var row := rows[i];
      var units := BatchUnits(row.length, row.width, row.quantity);
      areaSums := Deduct(areaSums, row.material, units);
      rows := rows[..i] + rows[i + 1..];
      UpdateAllRowsInTable();
    }

    /** `updateAllRowsInTable`: re-prices every row against the current ledger in table
        order while summing totals per material, then flags the rows of every material
        whose total is below the minimum charge. */
    method UpdateAllRowsInTable()
      requires Valid()
      modifies this
      ensures Valid()
      ensures rows == Recompute(catalog, areaSums, old(rows))
      ensures areaSums == old(areaSums) && groups == old(groups)
    {
      var totals := RepriceRows();
      FlagRows(totals);
    }

    /** The first loop of `updateAllRowsInTable`: each row gets its new total and unit
        price, and `totals` collects the totals per material. */
    method RepriceRows() returns (totals: map<string, int>)
      modifies this
      ensures rows == RepriceAll(catalog, areaSums, old(rows))
      ensures forall m :: Lookup(totals, m) == MaterialTotal(rows, m)
      ensures forall k | 0 <= k < |rows| :: rows[k].material in totals
      ensures areaSums == old(areaSums) && groups == old(groups)
    {
      var table := rows;
      ghost var repriced := RepriceAll(catalog, areaSums, table);
      totals := map[];
      var i := 0;
      while i < |table|
        invariant 0 <= i <= |table| == |repriced|
        invariant forall k | 0 <= k < i :: table[k] == repriced[k]
        invariant forall k | i <= k < |table| :: table[k] == rows[k]
        invariant forall m :: Lookup(totals, m) == MaterialTotal(repriced[..i], m)
        invariant forall k | 0 <= k < i :: repriced[k].material in totals
      {
        var row := table[i];
        var total := RowAmount(catalog, areaSums, row.material, row.length, row.width, row.quantity, row.trim);
        var unitPrice := CalculateUnitPrice(total, row.quantity);
        table := table[i := row.(total := total, unitPrice := unitPrice)];
        assert table[i] == repriced[i];
        ghost var before := totals;
        totals := totals[row.material := Lookup(totals, row.material) + total];
        forall m ensures Lookup(totals, m) == MaterialTotal(repriced[..i + 1], m) {
          MaterialTotalExtend(repriced, i, m);
          assert Lookup(totals, m) == Lookup(before, m) + (if repriced[i].material == m then repriced[i].total else 0);
        }
        i := i + 1;
      }
      assert repriced[..i] == repriced == table;
      rows := table;
    }

    /** The second loop of `updateAllRowsInTable`: a row is flagged when the collected
        total of its material is below the minimum charge. */
    method FlagRows(totals: map<string, int>)
      requires forall m :: Lookup(totals, m) == MaterialTotal(rows, m)
      requires forall k | 0 <= k < |rows| :: rows[k].material in totals
      modifies this
      ensures rows == FlagAll(old(rows))
      ensures areaSums == old(areaSums) && groups == old(groups)
    {
      var j := 0;
      while j < |rows|
        invariant 0 <= j <= |rows| == |old(rows)|
        invariant forall k | 0 <= k < j :: rows[k] == FlagAll(old(rows))[k]
        invariant forall k | j <= k < |rows| :: rows[k] == old(rows)[k]
        invariant areaSums == old(areaSums) && groups == old(groups)
      {
        var material := rows[j].material;
        rows := rows[j := rows[j].(belowMinimum := material in totals && totals[material] < MinimumCharge)];
        j := j + 1;
      }
    }

    /** `handleFormSubmission`. A submission with an empty material name, a material priced
        0 (or missing from the catalog) or a group that is not filled changes nothing.
        Otherwise every group's area goes into the ledger first, then one row per group is
        appended in order, every row is recomputed, and the form is reset. */
    method Submit(material: string, isTrim: bool) returns (accepted: bool)
      requires Valid()
      modifies this
      ensures Valid()
      ensures accepted <==> material != [] && GetMaterialPrice(catalog, material, false) != 0.0
                            && ValidateDimensions(old(groups))
      ensures !accepted ==> areaSums == old(areaSums) && rows == old(rows) && groups == old(groups)
      ensures accepted ==>
                && areaSums == BatchLedger(old(areaSums), material, Dimensions(old(groups)), isTrim)
                && rows == Recompute(catalog, areaSums,
                                     old(rows) + NewRows(catalog, areaSums, material, Dimensions(old(groups)), isTrim))
                && groups == [EmptyGroup]
    {
      var price := GetMaterialPrice(catalog, material, false);
      var discountPrice := GetMaterialPrice(catalog, material, true);
      var entered := groups;
      if material == [] || price == 0.0 || !ValidateDimensions(entered) {
        return false;
      }
      var dims := Dimensions(entered);

      var i := 0;
      while i < |dims|
        invariant 0 <= i <= |dims|
        invariant areaSums == BatchLedger(old(areaSums), material, dims[..i], isTrim)
        invariant rows == old(rows) && groups == old(groups)
      {
        UpdateMaterialAreaSums(material, dims[i].length, dims[i].width, dims[i].quantity, isTrim);
        assert dims[..i + 1][..i] == dims[..i];
        i := i + 1;
      }
      assert dims[..i] == dims;

      ghost var after := areaSums;
      i := 0;
      while i < |dims|
        invariant 0 <= i <= |dims|
        invariant rows == old(rows) + NewRows(catalog, after, material, dims[..i], isTrim)
        invariant areaSums == after && groups == old(groups)
      {
        var d := dims[i];
        var totalAmount := if isTrim
          then CalculateAmountWithTrim(areaSums, d.length, d.width, d.quantity, material, price, discountPrice)
          else CalculateAmount(areaSums, d.length, d.width, d.quantity, material, price, discountPrice);
        assert totalAmount == RowAmount(catalog, after, material, d.length, d.width, d.quantity, isTrim);
        ghost var priced := Reprice(catalog, after, Blank(material, d, isTrim));
        assert priced == Row(material, d.length, d.width, d.quantity, isTrim, totalAmount,
                             CalculateUnitPrice(totalAmount, d.quantity), false);
        ghost var done := NewRows(catalog, after, material, dims[..i], isTrim);
        AddRowToTable(material, d, totalAmount, isTrim);
        NewRowsExtend(catalog, after, material, dims, i, isTrim);
        assert rows == old(rows) + (done + [priced]);
        i := i + 1;
      }
      assert dims[..i] == dims;

      UpdateAllRowsInTable();
      ResetForm();
      accepted := true;
    }

    /** `resetForm`: the form reset empties every box, then groups are removed from the
        end until one is left. */
    method ResetForm()
      requires Valid()
      modifies this
      ensures Valid()
      ensures groups == [EmptyGroup]
      ensures areaSums == old(areaSums) && rows == old(rows)
    {
      groups := seq(|groups|, _ => EmptyGroup);
      while |groups| > 1
        invariant 1 <= |groups|
        invariant forall k | 0 <= k < |groups| :: groups[k] == EmptyGroup
        invariant areaSums == old(areaSums) && rows == old(rows)
      {
        groups := groups[..|groups| - 1];
      }
    }

    /** `manageDimensionGroups('add')`: appends one empty group. */
    method AddDimensionGroup()
      requires Valid()
      modifies this
      ensures Valid()
      ensures groups == old(groups) + [EmptyGroup]
      ensures areaSums == old(areaSums) && rows == old(rows)
    {
      groups := groups + [EmptyGroup];
    }

    /** `manageDimensionGroups('remove')` from the delete button of group `i`: the group is
        removed only when it is not the last one left. */
    method RemoveDimensionGroup(i: int)
      requires Valid() && 0 <= i < |groups|
      modifies this
      ensures Valid()
      ensures |old(groups)| > 1 ==> groups == old(groups)[..i] + old(groups)[i + 1..]
      ensures |old(groups)| == 1 ==> groups == old(groups)
      ensures areaSums == old(areaSums) && rows == old(rows)
    {
      if |groups| > 1 {
        groups := groups[..i] + groups[i + 1..];
      }
    }

    /** The user typing into the boxes of group `i`. */
    method FillDimensionGroup(i: int, group: DimensionGroup)
      requires Valid() && 0 <= i < |groups|
      modifies this
      ensures Valid()
      ensures groups == old(groups)[i := group]
      ensures areaSums == old(areaSums) && rows == old(rows)
    {
      groups := groups[i := group];
    }
  }
}
