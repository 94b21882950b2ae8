/** Area units: one unit is a 30 cm x 30 cm square (900 square centimetres). */
module Area {
  import opened Numeric

  const UnitArea: real := 900.0

  /** One dimension line of a submission: length and width in centimetres, and a count. */
  datatype Dimension = Dimension(length: real, width: real, quantity: int)

  /** Per-piece rounding: each piece is rounded up to whole units, then multiplied by the
      count. */
  function PiecewiseUnits(length: real, width: real, quantity: int): int
  {
    Ceil(length * width / UnitArea) * quantity
  }

  /** Batch rounding: the whole order's area rounded up once. */
  function BatchUnits(length: real, width: real, quantity: int): int
  {
    Ceil(length * width * quantity as real / UnitArea)
  }

  /** Per-piece units cover the pieces and waste less than one unit per piece. */
  lemma PiecewiseCovers(length: real, width: real, quantity: int)
    ensures 0 <= quantity ==> length * width * quantity as real <= PiecewiseUnits(length, width, quantity) as real * UnitArea
    ensures 0 < quantity ==> PiecewiseUnits(length, width, quantity) as real * UnitArea
                             < (length * width + UnitArea) * quantity as real
  {
    var c := Ceil(length * width / UnitArea);
    var q := quantity as real;
    assert (c * quantity) as real == c as real * q;
    if 0 <= quantity {
      assert length * width <= c as real * UnitArea;
      assert length * width * q <= c as real * UnitArea * q;
    }
    if 0 < quantity {
      assert c as real * UnitArea < length * width + UnitArea;
      assert c as real * UnitArea * q < (length * width + UnitArea) * q;
    }
  }

  /** Batch units are the fewest whole units that cover the whole order. */
  lemma BatchIsTightest(length: real, width: real, quantity: int)
    ensures length * width * quantity as real <= BatchUnits(length, width, quantity) as real * UnitArea
    ensures (BatchUnits(length, width, quantity) - 1) as real * UnitArea < length * width * quantity as real
  {
  }

  /** The area units a dimension adds to the ledger: unrounded for trim lines,
      per-piece rounded otherwise. */
  function LedgerArea(length: real, width: real, quantity: int, trim: bool): real
  {
    if trim then length * width * quantity as real / UnitArea
    else PiecewiseUnits(length, width, quantity) as real
  }

  /** The area units an amount is billed on: batch rounding for trim lines,
      per-piece rounding otherwise. */
  function BilledUnits(length: real, width: real, quantity: int, trim: bool): int
  {
    if trim then BatchUnits(length, width, quantity) else PiecewiseUnits(length, width, quantity)
  }

  /** A standard line adds to the ledger exactly what it is billed on; a trim line adds
      its unrounded area, which is less than one unit below what it is billed on. */
  lemma LedgerAgainstBilled(length: real, width: real, quantity: int, trim: bool)
    ensures !trim ==> LedgerArea(length, width, quantity, trim) == BilledUnits(length, width, quantity, trim) as real
    ensures trim ==> BilledUnits(length, width, quantity, trim) as real - 1.0 < LedgerArea(length, width, quantity, trim)
                      <= BilledUnits(length, width, quantity, trim) as real
  {
    if trim {
      BatchIsTightest(length, width, quantity);
    }
  }

  /** Batch rounding never bills more units than per-piece rounding. */
  lemma BatchAtMostPiecewise(length: real, width: real, quantity: int)
    requires 0 <= quantity
    ensures BatchUnits(length, width, quantity) <= PiecewiseUnits(length, width, quantity)
  {
    var p := PiecewiseUnits(length, width, quantity);
    var a := length * width * quantity as real;
    PiecewiseCovers(length, width, quantity);
    assert a / UnitArea <= p as real;
    CeilIsLeast(a / UnitArea, p);
  }

  /** The two policies diverge for many small pieces: 50 pieces of 10 cm x 10 cm are
      6 units batched but 50 units per piece. */
  lemma RoundingPoliciesExample()
    ensures BatchUnits(10.0, 10.0, 50) == 6
    ensures PiecewiseUnits(10.0, 10.0, 50) == 50
    ensures PiecewiseUnits(30.0, 30.0, 1) == 1
  {
    assert 5.0 < 10.0 * 10.0 * 50.0 / UnitArea <= 6.0;
    assert 0.0 < 10.0 * 10.0 / UnitArea <= 1.0;
    assert 30.0 * 30.0 / UnitArea == 1.0;
  }
}
