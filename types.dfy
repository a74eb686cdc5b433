/**
 The custom limit range resource: three tiers (min, default, max), each with an
 optional ingress and an optional egress bandwidth. Object metadata other than
 the name is opaque to the logic and not modelled.
 */
module Types {
  import opened Quantity

  /** One tier of a limit range; a zero quantity means the direction is not set. */
  datatype CustomItems = CustomItems(ingress: Quantity, egress: Quantity)

  /** An item with neither direction set. */
  const EmptyItems: CustomItems := CustomItems(0, 0)

  /** The `typ` string is carried but never consulted. */
  datatype LimitRange = LimitRange(typ: string, max: CustomItems, min: CustomItems, default: CustomItems)

  datatype CustomLimitRangeSpec = CustomLimitRangeSpec(lRange: LimitRange)

  datatype CustomLimitRange = CustomLimitRange(name: string, spec: CustomLimitRangeSpec)

  /** The bandwidths of one direction, tier by tier. */
  datatype Direction = Ingress | Egress

  function Pick(item: CustomItems, d: Direction): Quantity {
    match d
    case Ingress => item.ingress
    case Egress => item.egress
  }
}
