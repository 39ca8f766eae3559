/** The slice of the Play Billing Library that the donation helper touches.
    The library itself is foreign code: only the values that cross its
    boundary are modelled here. */
module Billing {

  /** BillingClient.BillingResponseCode.OK; every other code is a failure. */
  const OK: int := 0

  datatype PurchaseState = Unspecified | Purchased | Pending

  /** A purchase as reported to the purchases-updated listener. The developer
      payload is passed through to the consume request untouched and is not
      modelled. */
  datatype Purchase = Purchase(sku: string, purchaseToken: string, purchaseState: PurchaseState)

  /** The details of one purchasable item, as returned by a sku query. */
  datatype SkuDetails = SkuDetails(sku: string)

  datatype SkuType = InApp | Subs
}
