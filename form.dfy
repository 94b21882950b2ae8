/** The dimension groups of the entry form and the check applied to them on submission. */
module Form {
  import opened Area

  /** A number read from an input box: `parseFloat`/`parseInt` give NaN for an empty box. */
  datatype Parsed<T> = NaN | Num(value: T)

  /** One group's three boxes: length, width (`parseFloat`) and quantity (`parseInt`). */
  datatype DimensionGroup = DimensionGroup(length: Parsed<real>, width: Parsed<real>, quantity: Parsed<int>)

  /** A group as built by `createDimensionGroup` or cleared by the form reset: all boxes empty. */
  const EmptyGroup: DimensionGroup := DimensionGroup(NaN, NaN, NaN)

  /** `length && width && quantity`: each box holds a number other than 0 (negatives pass). */
  predicate Filled(group: DimensionGroup)
  {
    && group.length.Num? && group.length.value != 0.0
    && group.width.Num? && group.width.value != 0.0
    && group.quantity.Num? && group.quantity.value != 0
  }

  /** `validateDimensions`: every group is filled. */
  predicate ValidateDimensions(groups: seq<DimensionGroup>)
  {
    forall k | 0 <= k < |groups| :: Filled(groups[k])
  }

  /** The dimensions of a validated form, one per group and in the groups' order. */
  function Dimensions(groups: seq<DimensionGroup>): (dims: seq<Dimension>)
    requires ValidateDimensions(groups)
    ensures |dims| == |groups|
    ensures forall k | 0 <= k < |groups| ::
              && Num(dims[k].length) == groups[k].length
              && Num(dims[k].width) == groups[k].width
              && Num(dims[k].quantity) == groups[k].quantity
    ensures forall k | 0 <= k < |dims| ::
              dims[k].length != 0.0 && dims[k].width != 0.0 && dims[k].quantity != 0
  {
    seq(|groups|, k requires 0 <= k < |groups| =>
      Dimension(groups[k].length.value, groups[k].width.value, groups[k].quantity.value))
  }

  /** One group with an empty, NaN or zero box fails validation for the whole form; in
      particular a group just added and left empty blocks the submission. */
  lemma UnfilledGroupRejects(groups: seq<DimensionGroup>, k: int)
    requires 0 <= k < |groups|
    ensures !Filled(groups[k]) ==> !ValidateDimensions(groups)
    ensures groups[k] == EmptyGroup ==> !ValidateDimensions(groups)
  {
  }
}
