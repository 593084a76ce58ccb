/** Signed market observations and the guard every settlement puts them through. */
module Attestations {

  datatype Attestation =
    | PriceTwap(marketId: nat, timestamp: nat, nonce: nat, price: nat, window: nat)
    | Resolution(marketId: nat, timestamp: nat, nonce: nat, outcomeBps: nat)
    | HistoricalLiquidation(marketId: nat, timestamp: nat, nonce: nat, pmlc: (nat, nat), mark: nat, breachTs: int)

  datatype Verdict = Accepted | WrongMarket | Stale | NonceReplayed

  function ValidateFreshnessAndNonce(att: Attestation, market: nat, lastNonce: nat, now: nat,
                                     maxStaleness: nat): (v: Verdict)
    ensures v == Accepted
       <==> att.marketId == market && now - maxStaleness <= att.timestamp <= now && att.nonce > lastNonce
  {
    if att.marketId != market then WrongMarket
    else if att.timestamp > now then Stale
    else if now - att.timestamp > maxStaleness then Stale
    else if att.nonce <= lastNonce then NonceReplayed
    else Accepted
  }
}
