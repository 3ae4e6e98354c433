/** The vocabularies owned by the external parsing engine (the `crypto_market_type`
    and `crypto_msg_type` crates). The boundary passes them through by value. */
module EngineTypes {

  /** The engine's market type: eleven variants. */
  datatype MarketType =
    | Spot
    | LinearFuture
    | InverseFuture
    | LinearSwap
    | InverseSwap
    | AmericanOption
    | EuropeanOption
    | QuantoFuture
    | QuantoSwap
    | Move
    | BVOL

  /** The identifier each variant is declared with. */
  function MarketTypeName(m: MarketType): string
  {
    match m
    case Spot => "Spot"
    case LinearFuture => "LinearFuture"
    case InverseFuture => "InverseFuture"
    case LinearSwap => "LinearSwap"
    case InverseSwap => "InverseSwap"
    case AmericanOption => "AmericanOption"
    case EuropeanOption => "EuropeanOption"
    case QuantoFuture => "QuantoFuture"
    case QuantoSwap => "QuantoSwap"
    case Move => "Move"
    case BVOL => "BVOL"
  }

  /** No two engine variants share an identifier. */
  lemma MarketTypeNamesDistinct(a: MarketType, b: MarketType)
    ensures MarketTypeName(a) == MarketTypeName(b) ==> a == b
  {
  }

  /** The engine's message type. The boundary itself only ever names `Other`,
      its fallback when classification panics. */
  datatype MessageType =
    | Other
    | Trade
    | BBO
    | L2TopK
    | L2Snapshot
    | L2Event
    | L3Snapshot
    | L3Event
    | Ticker
    | Candlestick
    | FundingRate
}
