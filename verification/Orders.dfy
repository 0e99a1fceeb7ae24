/** The order gateway: a gate result becomes zero, one or two broker orders and
    an action record. Broker replies are arbitrary inputs. */
module Orders {
  import opened Money
  import opened Operations
  import opened Risk

  /** `commission` 0 and `remainingCash` None mean that the reply has no such field. */
  datatype Reply = Reply(success: bool, commission: real, remainingCash: Option<real>)

  /** Replies to the first and, in a flip, the second order. */
  datatype Replies = Replies(first: Reply, second: Reply)

  datatype Side = BuySide | SellSide

  datatype Order = Order(secid: string, side: Side, qty: int, accepted: bool)

  datatype Action =
    | Held
    | RiskBlocked(name: GateName)
    | DailyTradeLimit
    | Rejected
    | Submitted(side: Side, op: OpType, qty: int, notional: real, estimatedCommission: real, totalCost: real,
                reply: Reply, profitStep: Option<real>, avgPrice: Option<real>)
    | FlipExecuted(op: OpType, closeQty: int, openQty: int, notional: real, estimatedCommission: real, reply: Reply)

  /** The action record and every order sent, in order. */
  datatype Outcome = Outcome(action: Action, orders: seq<Order>)

  /** `a or b` on numbers. */
  function OrElse(a: real, b: real): real { if a != 0.0 then a else b }

  /** round(x, 6); exact ties go up here. */
  function Round6(x: real): real { (x * 1000000.0 + 0.5).Floor as real / 1000000.0 }

  function RoundStep(x: Option<real>): Option<real> { if x.Some? then Some(Round6(x.value)) else None }

  function OpOf(d: Decision, g: Gate): OpType
    requires g.Gate?
  {
    if g.op.Some? then g.op.value else if d.signal.Buy? then PlainBuy else PlainSell
  }

  function SideOf(d: Decision, op: OpType): Side {
    if IsReduceOverride(op) then (if CoverSuffix(op) then BuySide else SellSide)
    else if d.signal.Sell? then SellSide else BuySide
  }

  function FlipSide(op: OpType): Side { if op.FlipLongToShort? then SellSide else BuySide }

  /** What is left of a flip whose second order the broker refuses. */
  function CloseOnlyOp(op: OpType): OpType {
    match op
    case FlipLongToShort => CloseLong
    case FlipShortToLong => CoverShort
    case _ => op
  }

  function ApplyFlip(d: Decision, g: Gate, price: real, rate: real, r: Replies): Outcome
    requires g.Gate? && g.flipCloseQty.Some? && g.flipOpenQty.Some?
  {
    var op := OpOf(d, g);
    var side := FlipSide(op);
    var closeQty, openQty := g.flipCloseQty.value, g.flipOpenQty.value;
    var lot := g.metrics.lotSize;
    var closeOrder := Order(d.symbol, side, closeQty, r.first.success);
    var openOrder := Order(d.symbol, side, openQty, r.second.success);
    if !r.first.success then Outcome(Rejected, [closeOrder])
    else if !r.second.success then
      var notional := Notional(closeQty, lot, price);
      Outcome(Submitted(side, CloseOnlyOp(op), closeQty, notional, Fee(notional, rate), 0.0, r.first, None, None),
              [closeOrder, openOrder])
    else
      var notional := Notional(closeQty + openQty, lot, price);
      Outcome(FlipExecuted(op, closeQty, openQty, notional, Fee(notional, rate), r.second), [closeOrder, openOrder])
  }

  function ApplySingle(d: Decision, g: Gate, price: real, rate: real, r: Replies): Outcome
    requires g.Gate?
  {
    var op := OpOf(d, g);
    var side := SideOf(d, op);
    var qty := if g.qty.Some? then g.qty.value else 0;
    var notional := OrElse(g.metrics.notional, Notional(qty, g.metrics.lotSize, price));
    var commission := OrElse(g.metrics.commission, Fee(notional, rate));
    var totalCost := if side.BuySide? then OrElse(g.metrics.totalCost, notional + commission) else 0.0;
    var order := Order(d.symbol, side, qty, r.first.success);
    if !r.first.success then Outcome(Rejected, [order])
    else
      Outcome(Submitted(side, op, qty, notional, commission, totalCost, r.first,
                        RoundStep(g.metrics.profitStep), RoundStep(g.metrics.avgPrice)), [order])
  }

  function ApplyGate(d: Decision, g: Gate, price: real, tradeCount: int, tradeLimit: int, rate: real,
                     r: Replies): Outcome
    requires g.Gate?
  {
    if d.signal.Hold? && !(g.op.Some? && IsReduceOverride(g.op.value) && g.allowed) then Outcome(Held, [])
    else if !g.allowed then Outcome(RiskBlocked(g.name), [])
    else if tradeLimit > 0 && tradeCount >= tradeLimit then Outcome(DailyTradeLimit, [])
    else if g.flipCloseQty.Some? && g.flipOpenQty.Some? then ApplyFlip(d, g, price, rate, r)
    else ApplySingle(d, g, price, rate, r)
  }

  // ---- What the broker did -----------------------------------------------

  function SignedQty(o: Order): int { if o.side.BuySide? then o.qty else -o.qty }

  /** Net lots of the accepted orders for one ticker. */
  function NetAccepted(orders: seq<Order>, secid: string): int {
    if orders == [] then 0
    else
      (if orders[0].accepted && orders[0].secid == secid then SignedQty(orders[0]) else 0)
      + NetAccepted(orders[1..], secid)
  }

  function AcceptedCount(orders: seq<Order>): nat {
    if orders == [] then 0
    else (if orders[0].accepted then 1 else 0) + AcceptedCount(orders[1..])
  }

  lemma {:induction false} NetAcceptedAppend(a: seq<Order>, b: seq<Order>, secid: string)
    ensures NetAccepted(a + b, secid) == NetAccepted(a, secid) + NetAccepted(b, secid)
  {
    if a == [] {
      assert a + b == b;
    } else {
      assert (a + b)[0] == a[0] && (a + b)[1..] == a[1..] + b;
      NetAcceptedAppend(a[1..], b, secid);
    }
  }

  lemma {:induction false} AcceptedCountAppend(a: seq<Order>, b: seq<Order>)
    ensures AcceptedCount(a + b) == AcceptedCount(a) + AcceptedCount(b)
  {
    if a == [] {
      assert a + b == b;
    } else {
      assert (a + b)[0] == a[0] && (a + b)[1..] == a[1..] + b;
      AcceptedCountAppend(a[1..], b);
    }
  }
}
