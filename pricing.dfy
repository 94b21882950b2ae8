/** Amounts: the tier price, the trim surcharge and the money rounding. */
module Pricing {
  import opened Numeric
  import opened Area
  import opened Ledger
  import opened Catalog

  /** Flat surcharge per area unit on trim lines, on top of either tier. */
  const TrimSurcharge: real := 20.0

  /** `materialAreaSums[material] >= 100 ? discountPricePerUnit : pricePerUnit`. */
  function TierPrice(sums: AreaSums, material: string, price: real, discountPrice: real): real
  {
    if Discounted(sums, material) then discountPrice else price
  }

  /** The price of `units` area units at `rate` per unit, before money rounding. */
  function Charge(rate: real, units: int): real
  {
    rate * units as real
  }

  /** A standard line: the tier price times the per-piece rounded units, rounded. */
  function CalculateAmount(sums: AreaSums, length: real, width: real, quantity: int,
                           material: string, price: real, discountPrice: real): int
  {
    RoundHalfAway(Charge(TierPrice(sums, material, price, discountPrice), PiecewiseUnits(length, width, quantity)))
  }

  /** A trim line: the tier price plus the surcharge, times the batch rounded units, rounded. */
  function CalculateAmountWithTrim(sums: AreaSums, length: real, width: real, quantity: int,
                                   material: string, price: real, discountPrice: real): int
  {
    RoundHalfAway(Charge(TierPrice(sums, material, price, discountPrice) + TrimSurcharge,
                         BatchUnits(length, width, quantity)))
  }

  /** The per-piece price shown on a line: the total over the quantity to one decimal,
      and 0 for a zero quantity. */
  function CalculateUnitPrice(totalAmount: int, quantity: int): real
  {
    if quantity == 0 then 0.0 else RoundTenth(totalAmount as real / quantity as real)
  }

  /** Each amount is the nearest integer to its rate times its billed units. */
  lemma AmountsNearest(sums: AreaSums, length: real, width: real, quantity: int,
                       material: string, price: real, discountPrice: real)
    ensures -0.5 <= CalculateAmount(sums, length, width, quantity, material, price, discountPrice) as real
                    - TierPrice(sums, material, price, discountPrice) * PiecewiseUnits(length, width, quantity) as real
                 <= 0.5
    ensures -0.5 <= CalculateAmountWithTrim(sums, length, width, quantity, material, price, discountPrice) as real
                    - (TierPrice(sums, material, price, discountPrice) + TrimSurcharge)
                      * BatchUnits(length, width, quantity) as real
                 <= 0.5
  {
  }

  /** The unit price is 0 for quantity 0, and otherwise a whole number of tenths within
      0.05 of the total over the quantity, a tie going away from zero. */
  lemma UnitPriceRounds(totalAmount: int, quantity: int)
    ensures quantity == 0 ==> CalculateUnitPrice(totalAmount, quantity) == 0.0
    ensures quantity != 0 && 0.0 <= totalAmount as real / quantity as real ==>
              totalAmount as real / quantity as real - 0.05 < CalculateUnitPrice(totalAmount, quantity)
              <= totalAmount as real / quantity as real + 0.05
    ensures quantity != 0 && totalAmount as real / quantity as real < 0.0 ==>
              totalAmount as real / quantity as real - 0.05 <= CalculateUnitPrice(totalAmount, quantity)
              < totalAmount as real / quantity as real + 0.05
    ensures (CalculateUnitPrice(totalAmount, quantity) * 10.0).Floor as real
            == CalculateUnitPrice(totalAmount, quantity) * 10.0
  {
  }

  /** The amount of one line: both prices looked up by name, then the trim or the
      standard rule. */
  function RowAmount(catalog: seq<Material>, sums: AreaSums, material: string,
                     length: real, width: real, quantity: int, trim: bool): int
  {
    var price := GetMaterialPrice(catalog, material, false);
    var discountPrice := GetMaterialPrice(catalog, material, true);
    if trim then CalculateAmountWithTrim(sums, length, width, quantity, material, price, discountPrice)
    else CalculateAmount(sums, length, width, quantity, material, price, discountPrice)
  }

  /** The price per billed unit of a line: the tier price, plus the surcharge on trim lines. */
  function LineRate(catalog: seq<Material>, sums: AreaSums, material: string, trim: bool): real
  {
    TierPrice(sums, material, GetMaterialPrice(catalog, material, false), GetMaterialPrice(catalog, material, true))
    + (if trim then TrimSurcharge else 0.0)
  }

  /** A line's price before money rounding: its rate times the units it is billed on. */
  function ExactAmount(catalog: seq<Material>, sums: AreaSums, material: string,
                       length: real, width: real, quantity: int, trim: bool): real
  {
    Charge(LineRate(catalog, sums, material, trim), BilledUnits(length, width, quantity, trim))
  }

  /** A line's amount is its rate times the units it is billed on, rounded to the nearest
      integer. */
  lemma RowAmountNearest(catalog: seq<Material>, sums: AreaSums, material: string,
                         length: real, width: real, quantity: int, trim: bool)
    ensures -0.5 <= RowAmount(catalog, sums, material, length, width, quantity, trim) as real
                    - ExactAmount(catalog, sums, material, length, width, quantity, trim)
                 <= 0.5
  {
    var price := GetMaterialPrice(catalog, material, false);
    var discountPrice := GetMaterialPrice(catalog, material, true);
    var tier := TierPrice(sums, material, price, discountPrice);
    if trim {
      assert LineRate(catalog, sums, material, trim) == tier + TrimSurcharge;
    } else {
      assert LineRate(catalog, sums, material, trim) == tier;
    }
    RoundsToNearest(ExactAmount(catalog, sums, material, length, width, quantity, trim));
  }

  /** The discount price applies exactly when the ledger holds a number of at least 100
      units for the material; a material with no entry, or with NaN, pays the standard price. */
  lemma TierSelection(sums: AreaSums, material: string, price: real, discountPrice: real)
    ensures material !in sums ==> TierPrice(sums, material, price, discountPrice) == price
    ensures material in sums && sums[material].Units? && sums[material].value >= 100.0
            ==> TierPrice(sums, material, price, discountPrice) == discountPrice
    ensures material in sums && sums[material].Units? && sums[material].value < 100.0
            ==> TierPrice(sums, material, price, discountPrice) == price
    ensures material in sums && sums[material].NaN? ==> TierPrice(sums, material, price, discountPrice) == price
  {
  }

  /** With non-negative prices, sizes and quantity, neither rule yields a negative amount. */
  lemma AmountsNonNegative(sums: AreaSums, length: real, width: real, quantity: int,
                           material: string, price: real, discountPrice: real)
    requires 0.0 <= price && 0.0 <= discountPrice
    requires 0.0 <= length && 0.0 <= width && 0 <= quantity
    ensures 0 <= CalculateAmount(sums, length, width, quantity, material, price, discountPrice)
    ensures 0 <= CalculateAmountWithTrim(sums, length, width, quantity, material, price, discountPrice)
  {
    var tier := TierPrice(sums, material, price, discountPrice);
    assert 0.0 <= length * width * quantity as real;
    PiecewiseCovers(length, width, quantity);
    BatchIsTightest(length, width, quantity);
    assert 0 <= PiecewiseUnits(length, width, quantity) && 0 <= BatchUnits(length, width, quantity);
    assert 0.0 <= Charge(tier, PiecewiseUnits(length, width, quantity));
    assert 0.0 <= Charge(tier + TrimSurcharge, BatchUnits(length, width, quantity));
  }

  /** Thirty by thirty centimetres, one piece, at a standard price of 10 costs 10. */
  lemma OneUnitExample(sums: AreaSums, material: string)
    requires !Discounted(sums, material)
    ensures CalculateAmount(sums, 30.0, 30.0, 1, material, 10.0, 8.0) == 10
  {
    RoundingPoliciesExample();
  }
}
