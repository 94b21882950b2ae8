/** The material area ledger (`materialAreaSums`): running area units per material name. */
module Ledger {
  import opened Area

  /** A ledger value. Subtracting from a material the ledger has no number for
      (`undefined - n`) stores NaN. */
  datatype Tally = NaN | Units(value: real)

  type AreaSums = map<string, Tally>

  /** A material's running area at or above this many units earns the discount price. */
  const DiscountThreshold: real := 100.0

  /** `materialAreaSums[material] || 0`: a missing entry and NaN both read as 0. */
  function Current(sums: AreaSums, material: string): real
  {
    if material in sums && sums[material].Units? then sums[material].value else 0.0
  }

  /** `materialAreaSums[material] >= 100`; the comparison is false for a missing entry and for NaN. */
  predicate Discounted(sums: AreaSums, material: string)
  {
    material in sums && sums[material].Units? && sums[material].value >= DiscountThreshold
  }

  /** `materialAreaSums[material] = (materialAreaSums[material] || 0) + area`. */
  function Accumulate(sums: AreaSums, material: string, area: real): (r: AreaSums)
    ensures Current(r, material) == Current(sums, material) + area
    ensures Discounted(r, material) <==> Current(sums, material) + area >= DiscountThreshold
    ensures r - {material} == sums - {material}
  {
    sums[material := Units(Current(sums, material) + area)]
  }

  /** `materialAreaSums[material] -= units`: a number is lowered by `units`; a missing
      entry or NaN becomes NaN. */
  function Deduct(sums: AreaSums, material: string, units: int): (r: AreaSums)
    ensures material in r && r - {material} == sums - {material}
    ensures r[material].Units? <==> material in sums && sums[material].Units?
    ensures r[material].Units? ==> r[material].value == sums[material].value - units as real
  {
    sums[material := if material in sums && sums[material].Units?
                     then Units(sums[material].value - units as real) else NaN]
  }

  /** The removal that undoes `Accumulate`: the row's own contribution is taken back. */
  function Withdraw(sums: AreaSums, material: string, area: real): (r: AreaSums)
    ensures Current(r, material) == Current(sums, material) - area
    ensures r - {material} == sums - {material}
  {
    Accumulate(sums, material, -area)
  }

  /** Two ledgers that agree away from `material` give the same reading for any other name. */
  lemma CurrentElsewhere(a: AreaSums, b: AreaSums, material: string, other: string)
    requires a - {material} == b - {material} && other != material
    ensures Current(a, other) == Current(b, other)
  {
    assert other in a <==> other in a - {material};
    assert other in b <==> other in b - {material};
    if other in a {
      assert a[other] == (a - {material})[other];
      assert b[other] == (b - {material})[other];
    }
  }

  /** The sum of the ledger areas of a batch of dimensions. */
  function TotalArea(dims: seq<Dimension>, trim: bool): real
  {
    if dims == [] then 0.0
    else TotalArea(dims[..|dims| - 1], trim)
         + LedgerArea(dims[|dims| - 1].length, dims[|dims| - 1].width, dims[|dims| - 1].quantity, trim)
  }

  /** The ledger after the first loop of a submission: every dimension added, in order. */
  function BatchLedger(sums: AreaSums, material: string, dims: seq<Dimension>, trim: bool): AreaSums
  {
    if dims == [] then sums
    else
      var d := dims[|dims| - 1];
      Accumulate(BatchLedger(sums, material, dims[..|dims| - 1], trim), material,
                 LedgerArea(d.length, d.width, d.quantity, trim))
  }

  /** A batch raises its material's running area by the batch's combined area and touches
      no other material; so the discount decision after a batch is taken on that total. */
  lemma {:induction false} BatchLedgerAdds(sums: AreaSums, material: string, dims: seq<Dimension>, trim: bool)
    ensures Current(BatchLedger(sums, material, dims, trim), material) == Current(sums, material) + TotalArea(dims, trim)
    ensures BatchLedger(sums, material, dims, trim) - {material} == sums - {material}
    ensures dims != [] ==>
              (Discounted(BatchLedger(sums, material, dims, trim), material)
               <==> Current(sums, material) + TotalArea(dims, trim) >= DiscountThreshold)
  {
    if dims != [] {
      BatchLedgerAdds(sums, material, dims[..|dims| - 1], trim);
    }
  }

  /** Taking a contribution back with `Withdraw` leaves every material's reading and its
      discount decision as they were before `Accumulate`. */
  lemma WithdrawUndoesAccumulate(sums: AreaSums, material: string, area: real, other: string)
    ensures Current(Withdraw(Accumulate(sums, material, area), material, area), other) == Current(sums, other)
    ensures Discounted(Withdraw(Accumulate(sums, material, area), material, area), other) == Discounted(sums, other)
  {
    var r := Withdraw(Accumulate(sums, material, area), material, area);
    if other != material {
      assert r - {material} == sums - {material};
      CurrentElsewhere(r, sums, material, other);
      assert other in r <==> other in r - {material};
      assert other in sums <==> other in sums - {material};
      if other in sums {
        assert r[other] == (r - {material})[other];
        assert sums[other] == (sums - {material})[other];
      }
    }
  }
}
