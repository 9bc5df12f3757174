/** The order types of the exchange and which fields each of them needs. */
module OrderTypes {

  predicate NeedsPrice(orderType: string) {
    orderType in ["LIMIT", "STOP_LOSS_LIMIT", "TAKE_PROFIT_LIMIT", "LIMIT_MAKER"]
  }

  predicate NeedsStopPrice(orderType: string) {
    orderType in ["STOP_LOSS", "STOP_LOSS_LIMIT", "TAKE_PROFIT", "TAKE_PROFIT_LIMIT"]
  }

  predicate NeedsTimeInForce(orderType: string) {
    orderType in ["LIMIT", "STOP_LOSS_LIMIT", "TAKE_PROFIT_LIMIT"]
  }

  predicate MarketLike(orderType: string) {
    orderType in ["MARKET", "STOP_LOSS", "TAKE_PROFIT"]
  }

  function Alias(orderType: string): string {
    if orderType == "STOP_MARKET" then "STOP_LOSS" else orderType
  }

  /** Which types need what. */
  lemma TypesNeed(orderType: string)
    ensures NeedsPrice(orderType) <==> orderType in ["LIMIT", "STOP_LOSS_LIMIT", "TAKE_PROFIT_LIMIT", "LIMIT_MAKER"]
    ensures NeedsStopPrice(orderType) <==>
            orderType in ["STOP_LOSS", "STOP_LOSS_LIMIT", "TAKE_PROFIT", "TAKE_PROFIT_LIMIT"]
    ensures NeedsTimeInForce(orderType) <==> orderType in ["LIMIT", "STOP_LOSS_LIMIT", "TAKE_PROFIT_LIMIT"]
  {
  }
}
