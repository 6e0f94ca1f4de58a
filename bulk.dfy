/** The bulk-discount tiers: a minimum total item count and a rate. The
    getters of the source classes are the datatype's field selectors. */
module Bulk {

  datatype BulkDiscount = BulkDiscount(min_quantity: int, discount: real)

  const NoBulkDiscount: BulkDiscount := BulkDiscount(0, 0.0)
  const FiveItemsDiscount: BulkDiscount := BulkDiscount(5, 0.02)
  const TenItemsDiscount: BulkDiscount := BulkDiscount(10, 0.05)

  /** The three tiers' thresholds and rates. */
  lemma BulkTable()
    ensures NoBulkDiscount.min_quantity == 0 && NoBulkDiscount.discount == 0.0
    ensures FiveItemsDiscount.min_quantity == 5 && FiveItemsDiscount.discount == 0.02
    ensures TenItemsDiscount.min_quantity == 10 && TenItemsDiscount.discount == 0.05
  {
  }
}
