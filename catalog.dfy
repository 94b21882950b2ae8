/** The read-only material catalog and the price lookup. */
module Catalog {

  datatype Option<T> = None | Some(value: T)

  /** One catalog entry: its name, standard price and discount price per area unit. */
  datatype Material = Material(name: string, price: real, discountPrice: real)

  /** Entry `i` is the first one named `name`. */
  predicate FirstNamed(catalog: seq<Material>, name: string, i: int)
  {
    0 <= i < |catalog| && catalog[i].name == name && forall j | 0 <= j < i :: catalog[j].name != name
  }

  /** `Array.prototype.find` by name: the position of the first entry with that name, if any. */
  function FindMaterial(catalog: seq<Material>, name: string): (r: Option<nat>)
    ensures r.Some? ==> FirstNamed(catalog, name, r.value)
    ensures r.None? ==> forall j | 0 <= j < |catalog| :: catalog[j].name != name
  {
    if catalog == [] then None
    else if catalog[0].name == name then Some(0)
    else match FindMaterial(catalog[1..], name)
      case None => None
      case Some(i) => Some(i + 1)
  }

  /** The standard (or, with `isDiscount`, the discount) price of the first entry with the
      given name, and 0 when no entry has it. */
  function GetMaterialPrice(catalog: seq<Material>, name: string, isDiscount: bool): (p: real)
    ensures (forall j | 0 <= j < |catalog| :: catalog[j].name != name) ==> p == 0.0
    ensures forall i | FirstNamed(catalog, name, i) ::
              p == if isDiscount then catalog[i].discountPrice else catalog[i].price
  {
    match FindMaterial(catalog, name)
    case None => 0.0
    case Some(i) => if isDiscount then catalog[i].discountPrice else catalog[i].price
  }
}
