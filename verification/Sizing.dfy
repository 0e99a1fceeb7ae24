/** Lot sizing: how many lots a share of the cash buys. */
module Sizing {
  import opened Money

  function QuantityForBuy(cash: real, sizePct: real, price: real, lot: int): (qty: nat) {
    if cash <= 0.0 || price <= 0.0 || sizePct <= 0.0 || lot <= 0 then 0
    else
      LotValuePositive(lot, price);
      MaxInt(WholeUnits(cash * sizePct, LotValue(lot, price)), 0)
  }

  /** The result is the largest lot count whose value fits in the allotted cash. */
  lemma QuantityIsLargestThatFits(cash: real, sizePct: real, price: real, lot: int)
    requires cash > 0.0 && sizePct > 0.0 && price > 0.0 && lot > 0
    ensures var qty := QuantityForBuy(cash, sizePct, price, lot);
      Notional(qty, lot, price) <= cash * sizePct < Notional(qty + 1, lot, price)
  {
    LotValuePositive(lot, price);
    ProductPositive(cash, sizePct);
    WholeUnitsFit(cash * sizePct, LotValue(lot, price));
  }

  lemma PositiveQuantityNeedsCash(cash: real, sizePct: real, price: real, lot: int)
    requires QuantityForBuy(cash, sizePct, price, lot) > 0
    ensures cash > 0.0 && sizePct > 0.0 && price > 0.0 && lot > 0
    ensures Notional(QuantityForBuy(cash, sizePct, price, lot), lot, price) <= cash * sizePct
  {
    QuantityIsLargestThatFits(cash, sizePct, price, lot);
  }

  /** Any smaller order also fits. */
  lemma ClippedQuantityFits(qty: int, cash: real, sizePct: real, price: real, lot: int)
    requires 0 < qty <= QuantityForBuy(cash, sizePct, price, lot)
    ensures cash > 0.0 && sizePct > 0.0 && price > 0.0 && lot > 0
    ensures 0.0 < Notional(qty, lot, price) <= cash * sizePct
  {
    PositiveQuantityNeedsCash(cash, sizePct, price, lot);
    LotValuePositive(lot, price);
    ProductPositive(qty as real, LotValue(lot, price));
    ScaleLess(qty as real, QuantityForBuy(cash, sizePct, price, lot) as real, LotValue(lot, price));
  }
}
