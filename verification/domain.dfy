/** Domain value types: orders, fills, events.
    `Decimal` is modelled by `real`, timestamps by integer microseconds. */
module Domain {

  datatype Option<+T> = None | Some(value: T)

  datatype Result<+T, +E> = Ok(value: T) | Err(error: E)

  /** A UUID; only equality matters. */
  type OrderId = nat

  datatype Instrument = Instrument(symbol: string, venue: string, currency: string)

  datatype OrderSide = Buy | Sell

  datatype OrderType = Mkt | Lmt | Moc | Loc | Stp | StpLmt | AdaptiveMkt

  datatype OrderState =
    | Initialized | SubmitPending | Submitted | Accepted | PartiallyFilled
    | Filled | Canceled | Rejected | Expired

  datatype EventKind =
    | EvSubmitted | EvAccepted | EvPartialFill | EvFilled | EvCanceled | EvRejected | EvExpired

  predicate IsFillKind(k: EventKind) {
    k == EvPartialFill || k == EvFilled
  }

  predicate IsTerminalKind(k: EventKind) {
    k == EvFilled || k == EvCanceled || k == EvRejected || k == EvExpired
  }

  datatype Order = Order(
    id: OrderId,
    strategyId: string,
    instrument: Instrument,
    side: OrderSide,
    quantity: real,
    orderType: OrderType,
    limitPrice: Option<real>,
    stopPrice: Option<real>)

  /** The checks an Order runs on construction. */
  predicate ValidOrder(o: Order) {
    && o.strategyId != ""
    && o.quantity > 0.0
    && (o.orderType in {Lmt, StpLmt} <==> o.limitPrice.Some?)
    && (o.orderType in {Stp, StpLmt} <==> o.stopPrice.Some?)
    && (o.limitPrice.Some? ==> o.limitPrice.value > 0.0)
    && (o.stopPrice.Some? ==> o.stopPrice.value > 0.0)
  }

  datatype Fill = Fill(
    orderId: OrderId,
    execId: string,
    instrument: Instrument,
    side: OrderSide,
    quantity: real,
    price: real,
    commission: real,
    time: int)

  /** The checks a Fill runs on construction. */
  predicate ValidFill(f: Fill) {
    f.execId != "" && f.quantity > 0.0 && f.price > 0.0 && f.commission >= 0.0
  }

  /** Positive for a buy, negative for a sell. */
  function Signed(f: Fill): real {
    if f.side == Buy then f.quantity else -f.quantity
  }

  /** Why an order was rejected or cancelled; `NoReason` stands for an absent reason. */
  datatype Reason =
    | NoReason
    | EngineCancel
    | IbError(code: int, message: string)
    | VenueText(text: string)
    | Unrecoverable
    | PriceRuleUnavailable

  datatype OrderEvent = OrderEvent(id: OrderId, kind: EventKind, reason: Reason, fill: Option<Fill>)

  /** The checks an OrderEvent runs on construction. */
  predicate ValidEvent(e: OrderEvent) {
    && (e.kind in {EvRejected, EvCanceled} ==> e.reason != NoReason)
    && (IsFillKind(e.kind) <==> e.fill.Some?)
  }
}
