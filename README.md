# Area-discount pricing engine of the large-format printing calculator

This project is a Dafny model of the pricing core of `scripts.js`, the page script of a
print-shop quoting calculator. A user picks a material from a catalog and enters one or
more dimension groups (length, width, quantity), optionally with trim ("+裁小模"). Each
group becomes one row of the result table.

The page keeps a ledger, `materialAreaSums`, of the area units submitted per material. An
area unit is 30 cm x 30 cm. When a material's ledger reaches 100 units, every row of that
material is priced at the discount price. Every change to the table re-prices all rows
against the ledger. The same pass then flags every material whose rows add up to less
than 200.

Modules, leaf to root:

- `Numeric` (numeric.dfy): `Math.ceil`, and `toFixed(0)`/`toFixed(1)` on exact reals.
- `Area` (area.dfy): per-piece rounding (standard rows) and batch rounding (trim rows and
  deletion), and the area a row adds to the ledger.
- `Catalog` (catalog.dfy): the read-only material list and `getMaterialPrice`.
- `Ledger` (ledger.dfy): ledger values, including the NaN that `undefined - n` stores,
  the add and subtract updates, and a whole submission batch.
- `Pricing` (pricing.dfy): the tier price, `calculateAmount`, `calculateAmountWithTrim`
  and `calculateUnitPrice`.
- `Form` (form.dfy): dimension groups as parsed numbers (NaN for an empty box) and
  `validateDimensions`.
- `Table` (table.dfy): rows, the recompute pass as a function, and the rows a submission
  appends.
- `Balance` (balance.dfy): when the ledger equals the sum of what the listed rows added.
- `Calculator` (calculator.dfy): a class with the page's state (ledger, rows, dimension
  groups). Its methods are the event handlers. Each one states its new state in terms of
  the functions above.

Points of scripts.js worth knowing:

- The trim surcharge is a flat 20 per area unit, on either tier.
- Recompute re-derives each row's billed area from its length, width and quantity.
- The ledger is keyed by the material name as selected. Trim rows share the entry of
  their material.
- Deleting a row does not undo its submission (see Findings).

## Model

| member | source | states |
|---|---|---|
| Numeric.Ceil | scripts.js:170 | `Math.ceil`: the least integer not below its argument |
| Numeric.RoundHalfAway | scripts.js:173 | `toFixed(0)`: the nearest integer, ties away from zero, sign kept |
| Numeric.RoundTenth | scripts.js:219 | `toFixed(1)`: a whole number of tenths within 0.05 of the argument, ties away from zero |
| Area.PiecewiseCovers | scripts.js:170-171 | per-piece units cover L·W·Q and waste less than one unit per piece |
| Area.BatchIsTightest | scripts.js:177-179 | batch units are the fewest whole units that cover L·W·Q |
| Area.LedgerAgainstBilled | scripts.js:150 | a standard row adds to the ledger exactly its billed units; a trim row adds its unrounded area, at most its billed units and less than one unit below them |
| Area.BatchAtMostPiecewise | scripts.js:169-180 | for a non-negative quantity, batch rounding never bills more units than per-piece rounding |
| Area.RoundingPoliciesExample | scripts.js:169-180 | 50 pieces of 10x10 cm are 6 batched units but 50 per-piece units; 30x30 cm is 1 unit |
| Catalog.FindMaterial | scripts.js:162 | `find`: the position of the first entry with the name, or none when no entry has it |
| Catalog.GetMaterialPrice | scripts.js:161-164 | the price (or discount price) of the first entry with the name, 0 when there is none |
| Ledger.Accumulate | scripts.js:151 | the material's reading rises by the area (a missing entry or NaN counts as 0); the discount holds afterwards iff the new reading is at least 100; other entries are unchanged |
| Ledger.Deduct | scripts.js:210 | `-=` lowers a number by the units and turns a missing entry or NaN into NaN; other entries are unchanged |
| Ledger.Withdraw | scripts.js:208-210 | the corrected removal: the reading falls by the row's own contribution; other entries are unchanged |
| Ledger.BatchLedgerAdds | scripts.js:116-118 | a batch raises its material's reading by the batch's combined area and touches nothing else; the discount holds afterwards iff earlier reading plus batch area is at least 100 |
| Ledger.WithdrawUndoesAccumulate | scripts.js:151 | withdrawing what was accumulated restores every reading and every discount decision |
| Pricing.AmountsNearest | scripts.js:169-180 | the standard amount is within 0.5 of tier price times per-piece units; the trim amount is within 0.5 of (tier price + 20) times batch units |
| Pricing.UnitPriceRounds | scripts.js:219 | 0 for quantity 0, otherwise a whole number of tenths within 0.05 of total / quantity, a tie going away from zero |
| Pricing.RowAmountNearest | scripts.js:231-239 | a row's amount is its rate (tier price, plus 20 when trimmed) times its billed units, rounded to the nearest integer |
| Pricing.TierSelection | scripts.js:172 | the discount price applies iff the ledger holds a number of at least 100 for the material; with no entry, or a NaN entry, the standard price applies (99 gets the standard rate, 100 the discount rate) |
| Pricing.AmountsNonNegative | scripts.js:169-180 | with non-negative prices, sizes and quantity, both amounts are non-negative |
| Pricing.OneUnitExample | scripts.js:169-174 | 30x30 cm, quantity 1, standard price 10, below the threshold: the amount is 10 |
| Form.Dimensions | scripts.js:182-186 | one dimension per group, in group order, with the group's numbers, none of them 0 |
| Form.UnfilledGroupRejects | scripts.js:188 | one empty, NaN or zero box anywhere rejects the whole form |
| Table.RepriceAll | scripts.js:225-247 | re-pricing keeps every row's line (material, size, quantity, trim) and the order |
| Table.FlagAll | scripts.js:249-261 | flagging keeps every row's line and the order |
| Table.NewRows | scripts.js:120-126 | a submission appends one row per dimension, in input order, with that dimension's line |
| Table.RemoveAt | scripts.js:211 | removing a row keeps all other rows in order |
| Table.RecomputeDependsOnlyOnItems | scripts.js:225-247 | rows with the same lines recompute to identical rows, whatever totals, prices and flags they held |
| Table.RecomputeIdempotent | scripts.js:221-264 | recomputing twice with no ledger change gives the same rows as recomputing once |
| Table.RecomputeRow | scripts.js:225-261 | after recompute each row keeps its line and position; its total and unit price come from its own line and the ledger; it is flagged iff its material's summed totals are below 200 |
| Table.FlagsPerMaterial | scripts.js:249-261 | rows of one material share one flag, and none is flagged when one of them alone reaches 200 and no total is negative |
| Table.BatchRowsSeeCombinedArea | scripts.js:116-126 | every row of a submission is priced on the ledger after the whole batch: discount iff earlier reading plus batch area reaches 100 |
| Table.FirstLineCanCrossThreshold | scripts.js:116-128 | a first row of 100x100 cm x 9 adds 108 units and is discounted on its own |
| Balance.SubmissionKeepsBalance | scripts.js:116-128 | if the ledger equalled the sum of the rows' contributions, it still does after an accepted submission |
| Balance.DeleteAsWrittenBalance | scripts.js:208-213 | the source's delete keeps a balanced ledger balanced iff `ceil(L*W*Q/900)` equals the area the row added |
| Balance.CorrectedDeleteKeepsBalance | scripts.js:208-213 | deleting by withdrawing the row's own contribution always keeps the ledger balanced |
| Balance.DeleteLeavesResidue | scripts.js:150 | adding 10x10 cm x 50 then deleting it leaves 44 units with no row; a later 60-unit row is then discounted, which it is not on an empty ledger |
| Balance.CorrectedDeleteLeavesNoResidue | scripts.js:210 | with the corrected delete the same add and delete leave 0 units and no discount |
| Calculator.Calculator.constructor | scripts.js:5-6 | empty ledger, empty table, one empty dimension group |
| Calculator.Calculator.UpdateMaterialAreaSums | scripts.js:149-152 | the ledger becomes `Accumulate` of the dimension's ledger area; rows and groups unchanged |
| Calculator.Calculator.ResetMaterialAreaSums | scripts.js:154-156 | the ledger becomes empty; nothing else changes |
| Calculator.Calculator.AddRowToTable | scripts.js:193-217 | exactly one row is appended with the given total and the unit price derived from it |
| Calculator.Calculator.DeleteRow | scripts.js:208-213 | the ledger entry drops by `ceil(L*W*Q/900)`; that row alone is removed and the rest are recomputed in order |
| Calculator.Calculator.UpdateAllRowsInTable | scripts.js:221-264 | the rows become the recompute of the old rows against the unchanged ledger |
| Calculator.Calculator.RepriceRows | scripts.js:225-247 | the rows become their re-priced selves against the unchanged ledger, and the returned map holds, for every material, the sum of its re-priced rows' totals |
| Calculator.Calculator.FlagRows | scripts.js:249-261 | given those per-material totals, each row is flagged iff its material's total is below 200; nothing else changes |
| Calculator.Calculator.Submit | scripts.js:102-130 | accepted iff the name is non-empty, its price is not 0 and every group is filled; if rejected nothing changes; if accepted the ledger gets the whole batch first, one row per group is appended in order, all rows are recomputed and the form holds one empty group |
| Calculator.Calculator.ResetForm | scripts.js:132-144 | the form ends with exactly one empty group; ledger and rows unchanged |
| Calculator.Calculator.AddDimensionGroup | scripts.js:66-68 | one empty group is appended |
| Calculator.Calculator.RemoveDimensionGroup | scripts.js:69-71 | group `i` is removed only when more than one group exists, so at least one always remains |
| Calculator.Calculator.FillDimensionGroup | scripts.js:90-92 | typing into group `i`'s boxes replaces that group only |

## Left out

- Fetching `materials.json`, the TomSelect widget, tooltips, alerts and all DOM rendering are left out. The catalog is a constructor argument. A rejected submission returns `false` where the page shows an alert.
- `getDimensions` reads the DOM. The model reads the class's `groups` field instead. Typing into the boxes is `FillDimensionGroup`.
- The page's `index.html` is not part of this model. Its first dimension group is assumed to have empty default values, like the groups `createDimensionGroup` builds.
- The browser's own form checks (`required`, `min`) are left out because they run before the submit handler. The model follows `validateDimensions` alone, which lets negative numbers through.
- The table-cell round trip is left out: `toFixed` strings, `split('x')`, `parseFloat`/`parseInt`, and stripping the "+裁小模" suffix. Rows are records with a trim flag, so a catalog name that itself contains "+裁小模" is not modelled.
- IEEE-754 floating point, Infinity and `toFixed`'s binary rounding are left out. Numbers are exact reals. `toFixed` is round-half-away-from-zero on the exact value.
- The flag shown on a new row before the recompute that always follows it is not modelled. `AddRowToTable` stores `false`.
- `sizeModal.js` (size-picker modal, `fetch` of the size list) is not part of this model.
- The material select and the trim checkbox are parameters of `Submit`, so their reset by `resetForm` is not state here.

## Findings

| source | as written | input that shows it | evidently intended | confidence | as-written member | corrected member |
|---|---|---|---|---|---|---|
| scripts.js:208-210 | a row's delete subtracts `ceil(L*W*Q/900)`, but its submission added `ceil(L*W/900)*Q` (standard) or `L*W*Q/900` (trim) | standard row, 10x10 cm, quantity 50, on an empty ledger: +50 on submit, -6 on delete, 44 units stay with no row listed; a later 60-unit row then reads 104 and gets the discount price | deleting a row takes back exactly what its submission added, so the ledger stays the sum of the listed rows | high (not executed) | Balance.DeleteLeavesResidue | Ledger.Withdraw |

`Balance.DeleteAsWrittenBalance` proves the delete keeps the ledger balanced exactly when the
two formulas agree. `Balance.CorrectedDeleteKeepsBalance` and `Ledger.WithdrawUndoesAccumulate`
prove the intended property for `Ledger.Withdraw`. The `Calculator` class keeps the delete
as written, so it models the page as it behaves.
