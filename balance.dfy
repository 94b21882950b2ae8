/** Whether the ledger equals the sum of what the listed rows contributed to it. */
module Balance {
  import opened Area
  import opened Ledger
  import opened Catalog
  import opened Table

  /** The ledger area a row added when it was submitted. */
  function RowArea(row: Row): real
  {
    LedgerArea(row.length, row.width, row.quantity, row.trim)
  }

  /** The sum of the ledger areas of the rows of one material. */
  function Contribution(rows: seq<Row>, material: string): real
  {
    if rows == [] then 0.0
    else Contribution(rows[..|rows| - 1], material)
         + (if rows[|rows| - 1].material == material then RowArea(rows[|rows| - 1]) else 0.0)
  }

  /** Every material's ledger reading equals its rows' contributions. */
  ghost predicate Balanced(sums: AreaSums, rows: seq<Row>)
  {
    forall material :: Current(sums, material) == Contribution(rows, material)
  }

  lemma {:induction false} ContributionOfItems(xs: seq<Row>, ys: seq<Row>, material: string)
    requires SameItems(xs, ys)
    ensures Contribution(xs, material) == Contribution(ys, material)
  {
    if xs != [] {
      ContributionOfItems(xs[..|xs| - 1], ys[..|ys| - 1], material);
    }
  }

  lemma {:induction false} ContributionAppend(xs: seq<Row>, ys: seq<Row>, material: string)
    ensures Contribution(xs + ys, material) == Contribution(xs, material) + Contribution(ys, material)
  {
    if ys != [] {
      assert (xs + ys)[..|xs + ys| - 1] == xs + ys[..|ys| - 1];
      ContributionAppend(xs, ys[..|ys| - 1], material);
    } else {
      assert xs + ys == xs;
    }
  }

  /** The rows of a submission contribute the batch's combined area to its material only. */
  lemma {:induction false} ContributionOfNewRows(catalog: seq<Material>, sums: AreaSums, batch: string,
                                                 dims: seq<Dimension>, trim: bool, material: string)
    ensures Contribution(NewRows(catalog, sums, batch, dims, trim), material)
            == if material == batch then TotalArea(dims, trim) else 0.0
  {
    if dims != [] {
      var init := dims[..|dims| - 1];
      ContributionOfNewRows(catalog, sums, batch, init, trim, material);
      assert NewRows(catalog, sums, batch, dims, trim)[..|dims| - 1] == NewRows(catalog, sums, batch, init, trim);
    }
  }

  lemma ContributionRemoveAt(rows: seq<Row>, i: int, material: string)
    requires 0 <= i < |rows|
    ensures Contribution(RemoveAt(rows, i), material)
            == Contribution(rows, material) - (if rows[i].material == material then RowArea(rows[i]) else 0.0)
  {
    assert rows == rows[..i] + [rows[i]] + rows[i + 1..];
    ContributionAppend(rows[..i] + [rows[i]], rows[i + 1..], material);
    ContributionAppend(rows[..i], [rows[i]], material);
    ContributionAppend(rows[..i], rows[i + 1..], material);
    assert [rows[i]][..0] == [];
  }

  /** An accepted submission keeps the ledger balanced: the batch's area goes into the
      ledger and the same rows go into the table; recompute does not change either. */
  lemma SubmissionKeepsBalance(catalog: seq<Material>, sums: AreaSums, rows: seq<Row>,
                               batch: string, dims: seq<Dimension>, trim: bool)
    requires Balanced(sums, rows)
    ensures Balanced(BatchLedger(sums, batch, dims, trim),
                     Recompute(catalog, BatchLedger(sums, batch, dims, trim),
                               rows + NewRows(catalog, BatchLedger(sums, batch, dims, trim), batch, dims, trim)))
  {
    var after := BatchLedger(sums, batch, dims, trim);
    var added := NewRows(catalog, after, batch, dims, trim);
    var out := Recompute(catalog, after, rows + added);
    forall material ensures Current(after, material) == Contribution(out, material) {
      SubmissionBalanceAt(catalog, sums, rows, batch, dims, trim, material);
    }
  }

  lemma SubmissionBalanceAt(catalog: seq<Material>, sums: AreaSums, rows: seq<Row>,
                            batch: string, dims: seq<Dimension>, trim: bool, material: string)
    requires Current(sums, material) == Contribution(rows, material)
    ensures var after := BatchLedger(sums, batch, dims, trim);
            Current(after, material)
            == Contribution(Recompute(catalog, after, rows + NewRows(catalog, after, batch, dims, trim)), material)
  {
    var after := BatchLedger(sums, batch, dims, trim);
    var added := NewRows(catalog, after, batch, dims, trim);
    var listed := rows + added;
    BatchLedgerAdds(sums, batch, dims, trim);
    ContributionOfItems(Recompute(catalog, after, listed), listed, material);
    ContributionAppend(rows, added, material);
    ContributionOfNewRows(catalog, after, batch, dims, trim, material);
    if material != batch {
      CurrentElsewhere(after, sums, batch, material);
    }
  }

  /** Deleting a row as the source does (subtracting `ceil(L*W*Q/900)`) keeps a balanced
      ledger balanced exactly when that equals the area the row added. */
  lemma DeleteAsWrittenBalance(catalog: seq<Material>, sums: AreaSums, rows: seq<Row>, i: int)
    requires Balanced(sums, rows)
    requires 0 <= i < |rows| && rows[i].material in sums && sums[rows[i].material].Units?
    ensures var row := rows[i];
            var after := Deduct(sums, row.material, BatchUnits(row.length, row.width, row.quantity));
            Balanced(after, Recompute(catalog, after, RemoveAt(rows, i)))
            <==> BatchUnits(row.length, row.width, row.quantity) as real == RowArea(row)
  {
    var row := rows[i];
    var units := BatchUnits(row.length, row.width, row.quantity);
    var after := Deduct(sums, row.material, units);
    var left := RemoveAt(rows, i);
    var out := Recompute(catalog, after, left);
    ContributionOfItems(out, left, row.material);
    ContributionRemoveAt(rows, i, row.material);
    assert Current(after, row.material) == Current(sums, row.material) - units as real;
    if units as real == RowArea(row) {
      forall material ensures Current(after, material) == Contribution(out, material) {
        ContributionOfItems(out, left, material);
        ContributionRemoveAt(rows, i, material);
        if material != row.material {
          CurrentElsewhere(after, sums, row.material, material);
        }
      }
    } else {
      assert Current(after, row.material) != Contribution(out, row.material);
    }
  }

  /** Deleting a row by withdrawing its own contribution always keeps the ledger balanced. */
  lemma CorrectedDeleteKeepsBalance(catalog: seq<Material>, sums: AreaSums, rows: seq<Row>, i: int)
    requires Balanced(sums, rows)
    requires 0 <= i < |rows|
    ensures var after := Withdraw(sums, rows[i].material, RowArea(rows[i]));
            Balanced(after, Recompute(catalog, after, RemoveAt(rows, i)))
  {
    var row := rows[i];
    var after := Withdraw(sums, row.material, RowArea(row));
    var left := RemoveAt(rows, i);
    var out := Recompute(catalog, after, left);
    forall material ensures Current(after, material) == Contribution(out, material) {
      ContributionOfItems(out, left, material);
      ContributionRemoveAt(rows, i, material);
      if material != row.material {
        CurrentElsewhere(after, sums, row.material, material);
      }
    }
  }

  /** The source's delete does not undo a submission: fifty 10 cm x 10 cm pieces of one
      material add 50 units, deleting their row takes 6 back, and 44 units stay on the
      ledger with no row listed. A later 60-unit line of that material then reads 104
      units and is priced at the discount rate. */
  lemma DeleteLeavesResidue()
    ensures var dims := [Dimension(10.0, 10.0, 50)];
            var added := BatchLedger(map[], "Vinyl", dims, false);
            var deleted := Deduct(added, "Vinyl", BatchUnits(10.0, 10.0, 50));
            && Current(added, "Vinyl") == 50.0
            && Current(deleted, "Vinyl") == 44.0
            && !Balanced(deleted, [])
            && Discounted(Accumulate(deleted, "Vinyl", 60.0), "Vinyl")
            && !Discounted(Accumulate(map[], "Vinyl", 60.0), "Vinyl")
  {
    var dims := [Dimension(10.0, 10.0, 50)];
    RoundingPoliciesExample();
    assert dims[..0] == [];
    var added := BatchLedger(map[], "Vinyl", dims, false);
    var deleted := Deduct(added, "Vinyl", BatchUnits(10.0, 10.0, 50));
    assert Current(deleted, "Vinyl") != Contribution([], "Vinyl");
  }

  /** With the corrected delete, the same add and delete leave no residue. */
  lemma CorrectedDeleteLeavesNoResidue()
    ensures var dims := [Dimension(10.0, 10.0, 50)];
            var added := BatchLedger(map[], "Vinyl", dims, false);
            var deleted := Withdraw(added, "Vinyl", LedgerArea(10.0, 10.0, 50, false));
            Current(deleted, "Vinyl") == 0.0 && !Discounted(Accumulate(deleted, "Vinyl", 60.0), "Vinyl")
  {
    var dims := [Dimension(10.0, 10.0, 50)];
    assert dims[..0] == [];
  }
}
