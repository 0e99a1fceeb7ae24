/** The one-shot short check: sell, wait, buy back. A state file is overwritten
    before and after each order, so that the runner may die at any point. */
module ShortCheck {
  import opened Money

  datatype Status = NoCandidate | SellStarted | SellSubmitted | SellRejected | BuyStarted | BuyRejected | Done

  /** The state file; `None` before the first write. */
  datatype State = State(status: Status, secid: string, quantity: int, soldAt: Option<int>)

  datatype Reply = Success | Failure | Exception

  /** An order as the broker saw it, with the delay configured when it was sent. */
  datatype Call = Call(sell: bool, secid: string, quantity: int, at: int, reply: Reply, delay: nat)

  /** `secid` None stands for AUTO. */
  datatype Config = Config(secid: Option<string>, candidates: seq<string>, quantity: int, delay: nat)

  function Quantity(c: Config): int { MaxInt(c.quantity, 1) }

  /** What the world does during one life of the process: the state file may
      fail to be read at its start; it dies before effect number `diesAt`
      (counting writes and orders), and a write cut short by that may leave the
      file unreadable; the broker answers; the clock moves by `lag(k)` before its
      k-th reading; a stop request may end the wait. */
  datatype World = World(unreadable: bool, diesAt: nat, torn: bool, sellReply: Reply, buyReply: Reply,
                         lag: nat -> nat, stopped: bool, held: set<string>)

  function FirstFree(candidates: seq<string>, held: set<string>): Option<string> {
    if candidates == [] then None
    else if candidates[0] !in held then Some(candidates[0])
    else FirstFree(candidates[1..], held)
  }

  function ResolveSecid(c: Config, held: set<string>): Option<string> {
    if c.secid.Some? then c.secid else FirstFree(c.candidates, held)
  }

  /** AUTO takes the first candidate that is not held, and none only if all are. */
  lemma {:induction false} FirstFreeIsFirst(candidates: seq<string>, held: set<string>)
    ensures FirstFree(candidates, held).None? <==> forall i :: 0 <= i < |candidates| ==> candidates[i] in held
    ensures FirstFree(candidates, held).Some? ==>
      exists i :: 0 <= i < |candidates| && candidates[i] == FirstFree(candidates, held).value && candidates[i] !in held
        && forall k :: 0 <= k < i ==> candidates[k] in held
  {
    if candidates != [] && candidates[0] in held {
      var rest := candidates[1..];
      FirstFreeIsFirst(rest, held);
      assert forall i :: 0 < i < |candidates| ==> candidates[i] == rest[i - 1];
      if FirstFree(rest, held).Some? {
        var i :| 0 <= i < |rest| && rest[i] == FirstFree(rest, held).value && rest[i] !in held
          && forall k :: 0 <= k < i ==> rest[k] in held;
        assert candidates[i + 1] == rest[i];
      }
    }
  }

  predicate IsSell(c: Call, s: State) { c.sell && c.secid == s.secid && c.quantity == s.quantity }

  /** A buy of the sold ticker, not before the recorded sale plus its delay. */
  predicate IsBuy(c: Call, s: State) {
    !c.sell && c.secid == s.secid && s.soldAt.Some? && c.at >= s.soldAt.value + c.delay
  }

  // ---- One life, effect by effect ----------------------------------------

  /** The state file (`None`: missing or unreadable), the broker's history and
      the process. `lost` records that an order was sent of which the file, or
      the process that read it, no longer knows. */
  datatype Runner = Runner(file: Option<State>, calls: seq<Call>, now: int, effects: nat, readings: nat, dead: bool,
                           lost: bool)

  const FRESH := Runner(None, [], 0, 0, 0, false, false)

  function Ticked(r: Runner, w: World): Runner { r.(now := r.now + w.lag(r.readings), readings := r.readings + 1) }

  function Wrote(r: Runner, s: State, w: World): Runner {
    if r.dead then r
    else if r.effects < w.diesAt then r.(file := Some(s), effects := r.effects + 1)
    else if w.torn then r.(dead := true, file := None, lost := r.lost || r.calls != [])
    else r.(dead := true)
  }

  function Sent(r: Runner, call: Call, w: World): Runner {
    if r.dead then r
    else if r.effects < w.diesAt then r.(calls := r.calls + [call], effects := r.effects + 1)
    else r.(dead := true)
  }

  function SellCall(r: Runner, secid: string, c: Config, w: World): Call {
    Call(true, secid, Quantity(c), r.now, w.sellReply, c.delay)
  }

  function Sold(r: Runner, secid: string, c: Config, w: World): Runner {
    var started := Wrote(Ticked(r, w), State(SellStarted, secid, Quantity(c), None), w);
    var sent := Sent(started, SellCall(started, secid, c, w), w);
    if sent.dead then sent
    else if w.sellReply.Exception? then Wrote(sent, State(SellRejected, secid, Quantity(c), None), w)
    else
      var answered := Ticked(sent, w);
      Wrote(answered, State(if w.sellReply.Success? then SellSubmitted else SellRejected, secid, Quantity(c),
                            Some(answered.now)), w)
  }

  function BuyCall(r: Runner, s: State, c: Config, w: World): Call {
    Call(false, s.secid, Quantity(c), r.now, w.buyReply, c.delay)
  }

  function Bought(r: Runner, s: State, c: Config, w: World): Runner {
    var started := Wrote(Ticked(r, w), s.(status := BuyStarted), w);
    var sent := Sent(started, BuyCall(started, s, c, w), w);
    if sent.dead then sent
    else
      var done := s.(status := if w.buyReply.Success? then Done else BuyRejected);
      if w.buyReply.Exception? then Wrote(sent, done, w) else Wrote(Ticked(sent, w), done, w)
  }

  /** Seconds still to wait; all of them when the sale time is missing. */
  function Remaining(r: Runner, s: State, c: Config, w: World): (Runner, nat) {
    if s.soldAt.None? then (r, c.delay)
    else (Ticked(r, w), MaxInt(c.delay - (Ticked(r, w).now - s.soldAt.value), 0))
  }

  function Covered(r: Runner, s: State, c: Config, w: World): Runner {
    var (r', remaining) := Remaining(r, s, c, w);
    if remaining > 0 && w.stopped then r' else Bought(r'.(now := r'.now + remaining), s, c, w)
  }

  /** A new process reads the state file. */
  function Restarted(r: Runner, w: World): Runner {
    r.(dead := false, effects := 0, readings := 0, lost := r.lost || (w.unreadable && r.file.Some? && r.calls != []))
  }

  function Seen(r: Runner, w: World): Option<State> { if w.unreadable then None else r.file }

  /** One life of the process. In any uncertain or final state it does nothing. */
  function Life(r: Runner, c: Config, w: World): Runner {
    var start, seen := Restarted(r, w), Seen(r, w);
    if seen.Some? && seen.value.status.SellSubmitted? then Covered(start, seen.value, c, w)
    else if seen.Some? && !seen.value.status.NoCandidate? then start
    else
      match ResolveSecid(c, w.held)
      case None => Wrote(start, State(NoCandidate, "", 0, None), w)
      case Some(secid) =>
        var sold := Sold(start, secid, c, w);
        if !sold.dead && sold.file.Some? && sold.file.value.status.SellSubmitted?
        then Covered(sold, sold.file.value, c, w) else sold
  }

  /** Any number of lives, each with its own configuration and its own world. */
  function RunLives(r: Runner, lives: seq<(Config, World)>): Runner {
    if lives == [] then r
    else
      var n := |lives| - 1;
      Life(RunLives(r, lives[..n]), lives[n].0, lives[n].1)
  }

  // ---- What holds between effects ----------------------------------------

  /** Which broker histories each state file allows. */
  ghost predicate Consistent(file: Option<State>, calls: seq<Call>, now: int) {
    match file
    case None => calls == []
    case Some(s) =>
      && (s.soldAt.Some? ==> s.soldAt.value <= now)
      && match s.status
         case NoCandidate => calls == []
         case SellStarted => calls == [] || (|calls| == 1 && IsSell(calls[0], s))
         case SellRejected => |calls| == 1 && IsSell(calls[0], s) && !calls[0].reply.Success?
         case SellSubmitted =>
           |calls| == 1 && IsSell(calls[0], s) && calls[0].reply.Success? && s.soldAt.Some?
             && calls[0].at <= s.soldAt.value
         case _ =>
           && 1 <= |calls| <= 2 && IsSell(calls[0], s) && calls[0].reply.Success? && s.soldAt.Some?
             && calls[0].at <= s.soldAt.value
           && (|calls| == 2 ==> IsBuy(calls[1], s))
           && (s.status.BuyRejected? ==> |calls| == 2 && !calls[1].reply.Success?)
           && (s.status.Done? ==> |calls| == 2 && calls[1].reply.Success?)
  }

  /** As long as no order was forgotten, file and history agree. */
  ghost predicate Remembered(r: Runner) { r.lost || Consistent(r.file, r.calls, r.now) }

  function Count(calls: seq<Call>, sell: bool): nat {
    if calls == [] then 0 else (if calls[0].sell == sell then 1 else 0) + Count(calls[1..], sell)
  }

  /** Signed lots left at the broker by the successful orders. */
  function NetLots(calls: seq<Call>): int {
    if calls == [] then 0
    else
      (if !calls[0].reply.Success? then 0 else if calls[0].sell then -calls[0].quantity else calls[0].quantity)
      + NetLots(calls[1..])
  }

  /** Safety of everything the broker ever saw. */
  ghost predicate Safe(calls: seq<Call>) {
    && Count(calls, true) <= 1 && Count(calls, false) <= 1
    && forall i :: 0 <= i < |calls| && !calls[i].sell ==>
         exists k :: 0 <= k < i && calls[k].sell && calls[k].reply.Success? && calls[k].secid == calls[i].secid
                     && calls[i].at >= calls[k].at + calls[i].delay
  }

  lemma ConsistentIsSafe(file: Option<State>, calls: seq<Call>, now: int)
    requires Consistent(file, calls, now)
    ensures Safe(calls)
  {
    hide Count;
    if |calls| <= 1 {
      CountAtMost(calls, true);
      CountAtMost(calls, false);
    } else {
      CountOfTwo(calls, true);
      CountOfTwo(calls, false);
    }
  }

  lemma {:induction false} CountAtMost(calls: seq<Call>, sell: bool)
    ensures Count(calls, sell) <= |calls|
  {
    if calls != [] {
      CountAtMost(calls[1..], sell);
    }
  }

  lemma CountOfTwo(calls: seq<Call>, sell: bool)
    requires |calls| == 2
    ensures Count(calls, sell) == (if calls[0].sell == sell then 1 else 0) + (if calls[1].sell == sell then 1 else 0)
  {
    var rest := calls[1..];
    assert rest == [calls[1]] && rest[1..] == [];
    assert Count(rest[1..], sell) == 0;
  }

  /** "Done" means flat again exactly when the buying process was configured with the quantity that was sold. */
  lemma DoneIsFlatExactly(s: State, calls: seq<Call>, now: int)
    requires Consistent(Some(s), calls, now) && s.status.Done?
    ensures |calls| == 2 && (NetLots(calls) == 0 <==> calls[1].quantity == s.quantity)
  {
    var rest := calls[1..];
    assert rest == [calls[1]] && rest[1..] == [];
    assert NetLots(rest) == calls[1].quantity;
  }

  /** A sale from a state that knows of no order. */
  lemma SoldRemembers(r: Runner, secid: string, c: Config, w: World)
    requires !r.lost ==> Consistent(r.file, r.calls, r.now) && r.calls == []
    ensures Remembered(Sold(r, secid, c, w)) && r.calls <= Sold(r, secid, c, w).calls
    ensures !Sold(r, secid, c, w).lost ==> !r.lost
  {}

  lemma BoughtRemembers(r: Runner, s: State, c: Config, w: World)
    requires s.status.SellSubmitted? && s.soldAt.Some? ==> r.now >= s.soldAt.value + c.delay
    requires !r.lost ==> s.status.SellSubmitted? && r.file == Some(s) && Consistent(r.file, r.calls, r.now)
    ensures Remembered(Bought(r, s, c, w)) && r.calls <= Bought(r, s, c, w).calls
    ensures !Bought(r, s, c, w).lost ==> !r.lost
  {}

  /** The returned wait passes the recorded sale plus the delay. */
  lemma RemainingPasses(r: Runner, s: State, c: Config, w: World)
    ensures var (r', remaining) := Remaining(r, s, c, w);
      && r'.now >= r.now && r'.(now := r.now, readings := r.readings) == r
      && (s.soldAt.Some? ==> r'.now + remaining >= s.soldAt.value + c.delay)
  {}

  lemma CoveredRemembers(r: Runner, s: State, c: Config, w: World)
    requires s.status.SellSubmitted? && (!r.lost ==> r.file == Some(s) && Consistent(r.file, r.calls, r.now))
    ensures Remembered(Covered(r, s, c, w)) && r.calls <= Covered(r, s, c, w).calls
    ensures !Covered(r, s, c, w).lost ==> !r.lost
  {
    hide Bought;
    RemainingPasses(r, s, c, w);
    var (r', remaining) := Remaining(r, s, c, w);
    if !(remaining > 0 && w.stopped) {
      BoughtRemembers(r'.(now := r'.now + remaining), s, c, w);
    }
  }

  lemma LifeRemembers(r: Runner, c: Config, w: World)
    requires Remembered(r)
    ensures Remembered(Life(r, c, w)) && r.calls <= Life(r, c, w).calls && (!Life(r, c, w).lost ==> !r.lost)
  {
    hide Sold, Covered;
    var start, seen := Restarted(r, w), Seen(r, w);
    if seen.Some? && seen.value.status.SellSubmitted? {
      CoveredRemembers(start, seen.value, c, w);
    } else if seen.None? || seen.value.status.NoCandidate? {
      var secid := ResolveSecid(c, w.held);
      if secid.None? {
      } else {
        SoldRemembers(start, secid.value, c, w);
        var sold := Sold(start, secid.value, c, w);
        if !sold.dead && sold.file.Some? && sold.file.value.status.SellSubmitted? {
          CoveredRemembers(sold, sold.file.value, c, w);
        }
      }
    }
  }

  /** Over any number of crashes and restarts: as long as no order was forgotten,
      the broker saw at most one SELL and one later BUY of what was sold; and
      "done" means flat exactly when both had the same quantity. */
  lemma {:induction false} LivesAreSafe(lives: seq<(Config, World)>)
    ensures var r := RunLives(FRESH, lives);
      && Remembered(r)
      && (!r.lost ==> Safe(r.calls))
      && (!r.lost && r.file.Some? && r.file.value.status.Done? ==>
            |r.calls| == 2 && (NetLots(r.calls) == 0 <==> r.calls[1].quantity == r.calls[0].quantity))
  {
    hide Life, Safe;
    var r := RunLives(FRESH, lives);
    if lives != [] {
      var n := |lives| - 1;
      LivesAreSafe(lives[..n]);
      LifeRemembers(RunLives(FRESH, lives[..n]), lives[n].0, lives[n].1);
    }
    if !r.lost {
      ConsistentIsSafe(r.file, r.calls, r.now);
      if r.file.Some? && r.file.value.status.Done? {
        DoneIsFlatExactly(r.file.value, r.calls, r.now);
      }
    }
  }

  // ---- Forgotten orders --------------------------------------------------

  /** A torn write ends the life, so that it cannot change what the broker saw in it. */
  lemma TornSameCalls(r: Runner, c: Config, w: World)
    ensures Life(r, c, w).calls == Life(r, c, w.(torn := false)).calls
  {
    hide Remaining, ResolveSecid;
    var w' := w.(torn := false);
    var start := Restarted(r, w);
    assert Restarted(r, w') == start && Seen(r, w') == Seen(r, w);
    if Seen(r, w).Some? && Seen(r, w).value.status.SellSubmitted? {
      TornSameCover(start, Seen(r, w).value, c, w);
    } else if Seen(r, w).None? || Seen(r, w).value.status.NoCandidate? {
      var secid := ResolveSecid(c, w.held);
      if secid.Some? {
        var sold := Sold(start, secid.value, c, w);
        TornSameSale(start, secid.value, c, w);
        hide Sold, Covered;
        if !sold.dead && sold.file.Some? {
          TornSameCover(sold, sold.file.value, c, w);
        }
      }
    }
  }

  lemma TornSameSale(r: Runner, secid: string, c: Config, w: World)
    ensures var a, b := Sold(r, secid, c, w), Sold(r, secid, c, w.(torn := false));
      a.calls == b.calls && a.dead == b.dead && (!a.dead ==> a == b)
  {}

  lemma TornSameCover(r: Runner, s: State, c: Config, w: World)
    ensures Covered(r, s, c, w).calls == Covered(r, s, c, w.(torn := false)).calls
  {
    assert Remaining(r, s, c, w) == Remaining(r, s, c, w.(torn := false));
    hide Remaining;
  }

  /** Nothing is forgotten without a torn write or an unreadable file. */
  lemma NothingForgotten(r: Runner, c: Config, w: World)
    requires !w.torn && !w.unreadable
    ensures Life(r, c, w).lost == r.lost
  {
    hide ResolveSecid, Sold, Covered;
    var start := Restarted(r, w);
    if r.file.Some? {
      CoverForgetsNothing(start, r.file.value, c, w);
    }
    var secid := ResolveSecid(c, w.held);
    if secid.Some? {
      var sold := Sold(start, secid.value, c, w);
      SaleForgetsNothing(start, secid.value, c, w);
      if sold.file.Some? {
        CoverForgetsNothing(sold, sold.file.value, c, w);
      }
    }
  }

  lemma SaleForgetsNothing(r: Runner, secid: string, c: Config, w: World)
    requires !w.torn
    ensures Sold(r, secid, c, w).lost == r.lost
  {}

  lemma CoverForgetsNothing(r: Runner, s: State, c: Config, w: World)
    requires !w.torn
    ensures Covered(r, s, c, w).lost == r.lost
  {
    RemainingPasses(r, s, c, w);
    hide Remaining;
  }

  /** A life that does not see the state file after a sale sells again. */
  lemma ForgottenSellsAgain(r: Runner, c: Config, w: World)
    requires r.calls != [] && r.calls[0].sell && Seen(r, w).None? && ResolveSecid(c, w.held).Some? && w.diesAt >= 2
    ensures !Safe(Life(r, c, w).calls)
  {
    var secid := ResolveSecid(c, w.held).value;
    hide ResolveSecid;
    var start := Restarted(r, w);
    var sold := Sold(start, secid, c, w);
    SaleIsSent(start, secid, c, w);
    LaterCallsKept(sold, c, w);
    hide Sold, Covered;
    TwoSales(Life(r, c, w).calls, |r.calls|);
  }

  lemma SaleIsSent(r: Runner, secid: string, c: Config, w: World)
    requires !r.dead && r.effects == 0 && w.diesAt >= 2
    ensures var calls := Sold(r, secid, c, w).calls;
      |calls| == |r.calls| + 1 && r.calls <= calls && calls[|r.calls|].sell
  {}

  lemma LaterCallsKept(sold: Runner, c: Config, w: World)
    ensures sold.file.Some? ==> sold.calls <= Covered(sold, sold.file.value, c, w).calls
  {}

  lemma {:induction false} TwoSales(calls: seq<Call>, k: nat)
    requires 0 < k < |calls| && calls[0].sell && calls[k].sell
    ensures !Safe(calls)
  {
    var rest := calls[1..];
    assert rest[k - 1] == calls[k];
    OneSale(rest, k - 1);
    assert Count(calls, true) == 1 + Count(rest, true);
  }

  lemma {:induction false} OneSale(calls: seq<Call>, k: nat)
    requires k < |calls| && calls[k].sell
    ensures Count(calls, true) >= 1
  {
    if k > 0 {
      assert calls[1..][k - 1] == calls[k];
      OneSale(calls[1..], k - 1);
    }
  }

  /** After a sale, the next life of a process that can read its file is safe in
      every world exactly when the last write left a readable file. */
  lemma NextLifeSafeExactly(r: Runner)
    requires r.calls != [] && r.calls[0].sell
    requires r.file.Some? ==> !r.lost && Consistent(r.file, r.calls, r.now)
    ensures (forall c: Config, w: World :: !w.unreadable ==> Safe(Life(r, c, w).calls)) <==> r.file.Some?
  {
    hide Life, Safe, Consistent;
    if r.file.Some? {
      forall c: Config, w: World | !w.unreadable ensures Safe(Life(r, c, w).calls) {
        var end := Life(r, c, w.(torn := false));
        TornSameCalls(r, c, w);
        NothingForgotten(r, c, w.(torn := false));
        LifeRemembers(r, c, w.(torn := false));
        ConsistentIsSafe(end.file, end.calls, end.now);
      }
    } else {
      var c := Config(Some("A"), [], 1, 0);
      var w := World(false, 2, false, Success, Success, k => 0, false, {});
      ForgottenSellsAgain(r, c, w);
    }
  }

  // ---- Progress ----------------------------------------------------------

  /** Nothing goes wrong in this life: it survives `effects` writes and orders,
      is not stopped, reads its file, and the broker fills what it is sent. */
  predicate Undisturbed(w: World, effects: nat) {
    w.diesAt >= effects && !w.stopped && !w.unreadable && w.sellReply.Success? && w.buyReply.Success?
  }

  /** Lots that a configuration trades: what it says, at least one. */
  function LotsOf(c: Config): int { if c.quantity >= 1 then c.quantity else 1 }

  /** A sale waiting for its cover is bought back in the next undisturbed life:
      one BUY of the same ticker, neither before the delay has passed since the
      sale nor later than the process needs to read its clock. */
  lemma WaitingSaleIsCovered(r: Runner, c: Config, w: World)
    requires Undisturbed(w, 3) && r.file.Some? && r.file.value.status.SellSubmitted? && r.file.value.soldAt.Some?
    ensures var end := Life(r, c, w); var s := r.file.value;
      && !end.dead && end.file.Some? && end.file.value.status.Done?
      && |end.calls| == |r.calls| + 1 && end.calls[..|r.calls|] == r.calls
      && var buy := end.calls[|r.calls|];
         !buy.sell && buy.secid == s.secid && buy.quantity == LotsOf(c) && buy.reply.Success?
         && buy.at == MaxInt(s.soldAt.value + c.delay, r.now + w.lag(0)) + w.lag(1)
  {}

  /** Once the delay has passed, not even a stop request keeps a sale open. */
  lemma OverdueSaleIsCovered(r: Runner, c: Config, w: World)
    requires Undisturbed(w.(stopped := false), 3) && r.file.Some? && r.file.value.status.SellSubmitted?
    requires r.file.value.soldAt.Some? && r.now + w.lag(0) >= r.file.value.soldAt.value + c.delay
    ensures var end := Life(r, c, w);
      && !end.dead && end.file.Some? && end.file.value.status.Done? && |end.calls| == |r.calls| + 1
      && var buy := end.calls[|r.calls|];
         !buy.sell && buy.secid == r.file.value.secid && buy.quantity == LotsOf(c)
         && buy.at == r.now + w.lag(0) + w.lag(1)
  {}

  /** A sale without a readable time waits for the whole delay. */
  lemma UndatedSaleWaits(r: Runner, c: Config, w: World)
    requires Undisturbed(w, 3) && r.file.Some? && r.file.value.status.SellSubmitted? && r.file.value.soldAt.None?
    ensures var end := Life(r, c, w);
      && !end.dead && end.file.Some? && end.file.value.status.Done? && |end.calls| == |r.calls| + 1
      && var buy := end.calls[|r.calls|];
         !buy.sell && buy.secid == r.file.value.secid && buy.quantity == LotsOf(c)
         && buy.at == r.now + c.delay + w.lag(0)
  {}

  /** The ticker that a life trades: the configured one, or the first candidate that is not held. */
  ghost predicate Trades(c: Config, w: World, secid: string) {
    if c.secid.Some? then secid == c.secid.value
    else exists i :: 0 <= i < |c.candidates| && c.candidates[i] == secid && secid !in w.held
           && forall k :: 0 <= k < i ==> c.candidates[k] in w.held
  }

  lemma TradedIsResolved(c: Config, w: World, secid: string)
    requires Trades(c, w, secid)
    ensures ResolveSecid(c, w.held) == Some(secid)
  {
    if c.secid.None? {
      FirstFreeIsFirst(c.candidates, w.held);
      var i :| 0 <= i < |c.candidates| && c.candidates[i] == secid && secid !in w.held
        && forall k :: 0 <= k < i ==> c.candidates[k] in w.held;
      var f := FirstFree(c.candidates, w.held);
      assert f.Some?;
      var j :| 0 <= j < |c.candidates| && c.candidates[j] == f.value && f.value !in w.held
        && forall k :: 0 <= k < j ==> c.candidates[k] in w.held;
      assert i == j;
    }
  }

  /** An undisturbed first life completes the check: exactly one SELL and one BUY
      of the same ticker and quantity, the BUY on time, nothing left open, done. */
  lemma FreshLifeCompletes(r: Runner, c: Config, w: World, secid: string)
    requires Undisturbed(w, 6) && Trades(c, w, secid)
    requires r.calls == [] && (r.file.None? || r.file.value.status.NoCandidate?)
    ensures var end := Life(r, c, w);
      !end.dead && end.file.Some? && end.file.value.status.Done? && |end.calls| == 2 && NetLots(end.calls) == 0
    ensures var sell, buy := Life(r, c, w).calls[0], Life(r, c, w).calls[1];
      && sell.sell && sell.secid == secid && sell.quantity == LotsOf(c) && sell.at == r.now + w.lag(0)
      && !buy.sell && buy.secid == secid && buy.quantity == LotsOf(c)
      && buy.at == MaxInt(sell.at + w.lag(1) + c.delay, sell.at + w.lag(1) + w.lag(2)) + w.lag(3)
  {
    hide ResolveSecid, NetLots;
    TradedIsResolved(c, w, secid);
    var end := Life(r, c, w);
    assert |end.calls| == 2;
    TwoFills(end.calls);
  }

  lemma TwoFills(calls: seq<Call>)
    requires |calls| == 2 && calls[0].reply.Success? && calls[1].reply.Success? && calls[0].sell && !calls[1].sell
    ensures NetLots(calls) == calls[1].quantity - calls[0].quantity
  {
    var rest := calls[1..];
    assert rest == [calls[1]] && rest[1..] == [];
    assert NetLots(rest) == calls[1].quantity;
  }

  /** Without a free candidate nothing is sent, and a later life tries again. */
  lemma NoCandidateNoOrder(r: Runner, c: Config, w: World)
    requires Undisturbed(w, 1) && c.secid.None? && forall i :: 0 <= i < |c.candidates| ==> c.candidates[i] in w.held
    requires r.file.None? || r.file.value.status.NoCandidate?
    ensures Life(r, c, w).calls == r.calls && Life(r, c, w).file.Some? && Life(r, c, w).file.value.status.NoCandidate?
  {
    FirstFreeIsFirst(c.candidates, w.held);
  }

  /** A rejected order ends the check for good: its state is final. */
  lemma RejectedSaleIsFinal(r: Runner, c: Config, w: World, secid: string)
    requires w.diesAt >= 3 && !w.unreadable && !w.sellReply.Success? && Trades(c, w, secid)
    requires r.file.None? || r.file.value.status.NoCandidate?
    ensures var end := Life(r, c, w);
      end.file.Some? && end.file.value.status.SellRejected? && |end.calls| == |r.calls| + 1 && end.calls[|r.calls|].sell
  {
    hide ResolveSecid;
    TradedIsResolved(c, w, secid);
  }

  /** Uncertain, rejected and done states are left as they are. */
  lemma FinalStatesStay(r: Runner, c: Config, w: World)
    requires !w.unreadable && r.file.Some? && !r.file.value.status.SellSubmitted? && !r.file.value.status.NoCandidate?
    ensures Life(r, c, w).calls == r.calls && Life(r, c, w).file == r.file
  {}

  /** A stop request during the wait leaves the sale for the next life. */
  lemma StopKeepsSale(r: Runner, c: Config, w: World)
    requires w.stopped && !w.unreadable && r.file.Some? && r.file.value.status.SellSubmitted?
      && r.file.value.soldAt.Some?
    requires r.now + w.lag(0) < r.file.value.soldAt.value + c.delay
    ensures Life(r, c, w).calls == r.calls && Life(r, c, w).file == r.file && !Life(r, c, w).dead
  {}

  // ---- The object --------------------------------------------------------

  class ShortCheckRunner {
    var file: Option<State>
    var calls: seq<Call>
    var now: int
    var effects: nat
    var readings: nat
    var dead: bool
    ghost var lost: bool

    ghost function Snapshot(): Runner
      reads this
    {
      Runner(file, calls, now, effects, readings, dead, lost)
    }

    constructor ()
      ensures Snapshot() == FRESH
    {
      file, calls, now, effects, readings, dead, lost := None, [], 0, 0, 0, false, false;
    }

    method UtcNow(w: World) returns (t: int)
      modifies this`now, this`readings
      ensures Snapshot() == Ticked(old(Snapshot()), w) && t == now
    {
      now := now + w.lag(readings);
      readings := readings + 1;
      t := now;
    }

    /** Overwrite the state file in place; dying in the middle may leave it unreadable. */
    method WriteState(s: State, w: World)
      modifies this`file, this`effects, this`dead, this`lost
      ensures Snapshot() == Wrote(old(Snapshot()), s, w)
    {
      if dead {
        return;
      }
      if effects < w.diesAt {
        file, effects := Some(s), effects + 1;
      } else {
        dead := true;
        if w.torn {
          file := None;
          lost := lost || calls != [];
        }
      }
    }

    method SubmitOrder(call: Call, w: World)
      modifies this`calls, this`effects, this`dead
      ensures Snapshot() == Sent(old(Snapshot()), call, w)
    {
      if dead {
        return;
      }
      if effects < w.diesAt {
        calls, effects := calls + [call], effects + 1;
      } else {
        dead := true;
      }
    }

    method SubmitSell(secid: string, c: Config, w: World)
      modifies this
      ensures Snapshot() == Sold(old(Snapshot()), secid, c, w)
    {
      var started := UtcNow(w);
      WriteState(State(SellStarted, secid, Quantity(c), None), w);
      SubmitOrder(Call(true, secid, Quantity(c), now, w.sellReply, c.delay), w);
      if dead {
        return;
      }
      if w.sellReply.Exception? {
        WriteState(State(SellRejected, secid, Quantity(c), None), w);
        return;
      }
      var soldAt := UtcNow(w);
      WriteState(State(if w.sellReply.Success? then SellSubmitted else SellRejected, secid, Quantity(c), Some(soldAt)),
                 w);
    }

    method RemainingDelay(s: State, c: Config, w: World) returns (remaining: nat)
      modifies this`now, this`readings
      ensures (Snapshot(), remaining) == Remaining(old(Snapshot()), s, c, w)
    {
      if s.soldAt.None? {
        return c.delay;
      }
      var t := UtcNow(w);
      remaining := MaxInt(c.delay - (t - s.soldAt.value), 0);
    }

    method WaitThenCover(s: State, c: Config, w: World)
      modifies this
      ensures Snapshot() == Covered(old(Snapshot()), s, c, w)
    {
      hide Bought;
      var remaining := RemainingDelay(s, c, w);
      if remaining > 0 && w.stopped {
        return;
      }
      now := now + remaining;
      SubmitBuy(s, c, w);
    }

    method SubmitBuy(s: State, c: Config, w: World)
      modifies this
      ensures Snapshot() == Bought(old(Snapshot()), s, c, w)
    {
      var started := UtcNow(w);
      WriteState(s.(status := BuyStarted), w);
      SubmitOrder(Call(false, s.secid, Quantity(c), now, w.buyReply, c.delay), w);
      if dead {
        return;
      }
      if !w.buyReply.Exception? {
        var finished := UtcNow(w);
      }
      WriteState(s.(status := if w.buyReply.Success? then Done else BuyRejected), w);
    }

    /** One life of the process. */
    method Run(c: Config, w: World)
      modifies this
      ensures Snapshot() == Life(old(Snapshot()), c, w)
    {
      hide Sold, Covered, ResolveSecid;
      var seen := if w.unreadable then None else file;
      lost := lost || (w.unreadable && file.Some? && calls != []);
      dead, effects, readings := false, 0, 0;
      if seen.Some? {
        if seen.value.status.SellSubmitted? {
          WaitThenCover(seen.value, c, w);
          return;
        }
        if !seen.value.status.NoCandidate? {
          return;
        }
      }
      var secid := ResolveSecid(c, w.held);
      if secid.None? {
        WriteState(State(NoCandidate, "", 0, None), w);
        return;
      }
      SubmitSell(secid.value, c, w);
      if !dead && file.Some? && file.value.status.SellSubmitted? {
        WaitThenCover(file.value, c, w);
      }
    }

    /** Any number of lives, each with its own configuration and its own death. */
    method Lives(lives: seq<(Config, World)>)
      requires Snapshot() == FRESH
      modifies this
      ensures Snapshot() == RunLives(FRESH, lives)
      ensures !lost ==> Safe(calls)
    {
      hide Life;
      for i := 0 to |lives|
        invariant Snapshot() == RunLives(FRESH, lives[..i])
      {
        assert lives[..i + 1][..i] == lives[..i];
        Run(lives[i].0, lives[i].1);
      }
      assert lives[..|lives|] == lives;
      LivesAreSafe(lives);
    }
  }
}
