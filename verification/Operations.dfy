/** Operation types: the strings through which the Risk Officer, the order
    gateway, the tick simulation and the backtest engine talk to each other. */
module Operations {

  datatype OpType =
    | OpenLong | AddLong | OpenShort | AddShort
    | CloseLong | CoverShort
    | FlipLongToShort | FlipShortToLong
    | RiskTrimSell | RiskTrimCover
    | TakeProfitSell | TakeProfitCover
    | StopLossSell | StopLossCover
    | PlainBuy | PlainSell

  function Name(op: OpType): string {
    match op
    case OpenLong => "open_long"
    case AddLong => "add_long"
    case OpenShort => "open_short"
    case AddShort => "add_short"
    case CloseLong => "close_long"
    case CoverShort => "cover_short"
    case FlipLongToShort => "flip_long_to_short"
    case FlipShortToLong => "flip_short_to_long"
    case RiskTrimSell => "risk_trim_sell"
    case RiskTrimCover => "risk_trim_cover"
    case TakeProfitSell => "take_profit_sell"
    case TakeProfitCover => "take_profit_cover"
    case StopLossSell => "stop_loss_sell"
    case StopLossCover => "stop_loss_cover"
    case PlainBuy => "buy"
    case PlainSell => "sell"
  }

  ghost predicate EndsWith(s: string, suffix: string) {
    |suffix| <= |s| && forall k :: 0 <= k < |suffix| ==> s[|s| - |suffix| + k] == suffix[k]
  }

  /** op.endswith("_cover") */
  predicate CoverSuffix(op: OpType) { op.RiskTrimCover? || op.TakeProfitCover? || op.StopLossCover? }

  /** op.endswith("_sell") */
  predicate SellSuffix(op: OpType) { op.RiskTrimSell? || op.TakeProfitSell? || op.StopLossSell? }

  /** The six reduce overrides that act above the trader's signal. */
  predicate IsReduceOverride(op: OpType) { CoverSuffix(op) || SellSuffix(op) }

  /** Operations that eat the tick budget. */
  predicate IsOpening(op: OpType) {
    op.OpenLong? || op.AddLong? || op.OpenShort? || op.AddShort? || op.FlipLongToShort? || op.FlipShortToLong?
  }

  predicate IsFlip(op: OpType) { op.FlipLongToShort? || op.FlipShortToLong? }

  /** The enumeration decides exactly what the source decides by looking at the
      end of the string. Only the last letters matter: "cover_short" and
      "sell" carry neither suffix. */
  lemma SuffixesAgree(op: OpType)
    ensures CoverSuffix(op) <==> EndsWith(Name(op), "_cover")
    ensures SellSuffix(op) <==> EndsWith(Name(op), "_sell")
  {
    if IsReduceOverride(op) {
      SuffixPresent(op);
    } else {
      hide Name;
      SuffixAbsent(op);
    }
  }

  lemma SuffixPresent(op: OpType)
    requires IsReduceOverride(op)
    ensures CoverSuffix(op) <==> EndsWith(Name(op), "_cover")
    ensures SellSuffix(op) <==> EndsWith(Name(op), "_sell")
  {
    var s := Name(op);
    assert s[|s| - 1] == if CoverSuffix(op) then 'r' else 'l';
    if EndsWith(s, "_cover") {
      LastTwo(s, "_cover", 6);
    }
    if EndsWith(s, "_sell") {
      LastTwo(s, "_sell", 5);
    }
  }

  lemma SuffixAbsent(op: OpType)
    requires !IsReduceOverride(op)
    ensures !EndsWith(Name(op), "_cover") && !EndsWith(Name(op), "_sell")
  {
    var s := Name(op);
    if EndsWith(s, "_cover") {
      LastTwo(s, "_cover", 6);
    }
    if EndsWith(s, "_sell") {
      LastTwo(s, "_sell", 5);
    }
  }

  /** A suffix of n letters fixes the last letter and the separator. */
  lemma LastTwo(s: string, suffix: string, n: nat)
    requires EndsWith(s, suffix) && |suffix| == n >= 1
    ensures s[|s| - 1] == suffix[n - 1] && s[|s| - n] == suffix[0]
  {
    assert s[|s| - n + (n - 1)] == suffix[n - 1];
    assert s[|s| - n + 0] == suffix[0];
  }
}
