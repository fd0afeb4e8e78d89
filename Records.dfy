/**
 * The records that flow from the parsers through the store to pricing. The
 * source tells a repair from a part by which fields an object has; here the
 * two kinds are the variants of `Item`. A number field the source may hold
 * as `NaN` (a non-empty column that does not parse) is an `Option`, with
 * `None` for `NaN`.
 */
module Records {
  import opened Wrappers

  /** An embedding: the model's vector for one text. */
  type Vector = seq<real>

  /** One line of the parts file. Non-refrigerant parts carry `isRefrigerant == false`. */
  datatype Part = Part(
    repairNumber: string,
    partNumber: string,
    description: string,
    manufacturer: string,
    manufacturerPartNumber: string,
    vendorId: string,
    vendorPartNumber: string,
    cost: Option<real>,
    quantity: Option<int>,
    isRefrigerant: bool)

  /** One line of a repairs file, and the parts associated with it at ingestion. */
  datatype Repair = Repair(
    repairNumber: string,
    repairGroup: string,
    repairSubGroup: string,
    description: string,
    laborTime: Option<real>,
    partsCost: Option<real>,
    regularLaborCost: Option<real>,
    associatedParts: seq<Part>)

  /** A catalog item: what the store keeps beside each vector. */
  datatype Item = RepairItem(repair: Repair) | PartItem(part: Part)

  function Description(item: Item): string {
    match item
    case RepairItem(r) => r.description
    case PartItem(p) => p.description
  }

  /** A markup range: costs from `fromCost` through `throughCost` are multiplied by `markup`. */
  datatype Tier = Tier(fromCost: real, throughCost: real, markup: real)
}
