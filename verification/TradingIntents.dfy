/** The validated intent, as the stores and the broker see it. */
module TradingIntents {

  datatype Action = PlaceOrder | CancelOrder | GetOrderStatus | RequestSignature | SimulateTransaction

  /** `orderId` is read for cancel and status intents, `symbol` for exchange intents, `side` for orders;
      `body` stands for every other field. */
  datatype Intent = Intent(
    intentId: string, idempotencyKey: string, principal: string, action: Action, resource: string,
    environment: string, orderId: string, symbol: string, side: string, body: string)

  /** `scopeIdempotencyKey`: the canonical text of four fields, which determines all four
      (CanonicalJson.ScopedKeysCoincideOnlyWhenEqual). */
  datatype ScopedKey = ScopedKey(key: string, principal: string, action: Action, resource: string)

  function ScopeKey(intent: Intent): ScopedKey {
    ScopedKey(intent.idempotencyKey, intent.principal, intent.action, intent.resource)
  }
}
