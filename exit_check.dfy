/**
 * The per-bar exit check the three bar-replay engines share
 * (`_check_positions_for_exit`): an optional trailing-stop update, then
 * take-profit checked before stop-loss against the bar's high and low.
 */
module ExitCheck {
  import opened Wrappers
  import opened Market
  import opened BacktestPosition
  import opened TradeStats

  datatype Exit = Exit(price: real, status: PositionStatus)

  /**
   * Trailing stop of backtest_engine.py: a long's stop follows the bar high
   * minus the ATR, a short's the bar low plus the ATR; it only ever moves in
   * the position's favour. Returns the new stop and the new trailing price.
   */
  function TrailedStop(direction: int, sl: real, trailingPrice: real, bar: Bar): (r: (real, real))
    ensures direction == 1 ==> r.0 >= sl
    ensures direction != 1 ==> r.0 <= sl
    ensures r.0 != sl ==> bar.atr.Some?
    ensures direction == 1 && r.0 != sl ==> r.0 == bar.high - bar.atr.value && r.1 == bar.high && bar.high > trailingPrice
    ensures direction != 1 && r.0 != sl ==> r.0 == bar.low + bar.atr.value && r.1 == bar.low && bar.low < trailingPrice
    ensures r.0 == sl ==> r.1 == trailingPrice
  {
    if direction == 1 then
      if bar.high > trailingPrice && bar.atr.Some? && bar.high - bar.atr.value > sl
      then (bar.high - bar.atr.value, bar.high)
      else (sl, trailingPrice)
    else
      if bar.low < trailingPrice && bar.atr.Some? && bar.low + bar.atr.value < sl
      then (bar.low + bar.atr.value, bar.low)
      else (sl, trailingPrice)
  }

  /**
   * Exit decision for one position on one bar: a long takes profit when the
   * high reaches the target, else stops out when the low reaches the stop; a
   * short mirrors this. The target wins when both are touched.
   */
  function ExitOf(direction: int, tp: real, sl: real, bar: Bar): (e: Option<Exit>)
    ensures direction == 1 ==> (e.Some? <==> bar.high >= tp || bar.low <= sl)
    ensures direction != 1 ==> (e.Some? <==> bar.low <= tp || bar.high >= sl)
    ensures e.Some? ==>
      (e.value.status == ClosedTakeProfit && e.value.price == tp) || (e.value.status == ClosedStopLoss && e.value.price == sl)
    ensures direction == 1 && bar.high >= tp ==> e == Some(Exit(tp, ClosedTakeProfit))
    ensures direction != 1 && bar.low <= tp ==> e == Some(Exit(tp, ClosedTakeProfit))
  {
    if direction == 1 then
      if bar.high >= tp then Some(Exit(tp, ClosedTakeProfit))
      else if bar.low <= sl then Some(Exit(sl, ClosedStopLoss))
      else None
    else
      if bar.low <= tp then Some(Exit(tp, ClosedTakeProfit))
      else if bar.high >= sl then Some(Exit(sl, ClosedStopLoss))
      else None
  }

  /**
   * A position closed by the exit rule realizes exactly the move to its
   * target or to its stop, so its profit lies between the two.
   */
  lemma ExitProfitBetweenLevels(entry: real, direction: int, tp: real, sl: real, bar: Bar)
    requires ExitOf(direction, tp, sl, bar).Some?
    ensures var pips := ProfitPips(entry, ExitOf(direction, tp, sl, bar).value.price, direction);
            Min(ProfitPips(entry, tp, direction), ProfitPips(entry, sl, direction)) <= pips
            <= Max(ProfitPips(entry, tp, direction), ProfitPips(entry, sl, direction))
  {
  }

  /** A long whose target is above its entry gains when it exits at the target. */
  lemma TakeProfitIsAGain(entry: real, direction: int, tp: real, sl: real, bar: Bar)
    requires (direction == 1 && tp > entry) || (direction == -1 && tp < entry)
    requires ExitOf(direction, tp, sl, bar).Some? && ExitOf(direction, tp, sl, bar).value.status == ClosedTakeProfit
    ensures ProfitPips(entry, ExitOf(direction, tp, sl, bar).value.price, direction) > 0.0
  {
    ProfitPipsSign(entry, tp, direction);
  }

  /**
   * What the exit check does to one open position: the stop and trailing
   * price it leaves, and the exit (if any) it takes.
   */
  datatype Step = Step(slPrice: real, trailingPrice: real, exit: Option<Exit>)

  /** The step planned for a position with stop `sl` and trailing price `trailingPrice`. */
  function PlannedStep(p: Position, sl: real, trailingPrice: real, bar: Bar, applyTrailing: bool): (s: Step)
    ensures s.exit.Some? ==> s.exit.value.status != Open
    ensures s.exit.Some? && s.exit.value.status == ClosedStopLoss ==> s.exit.value.price == s.slPrice
    ensures !applyTrailing || !p.trailingStop ==> s.slPrice == sl && s.trailingPrice == trailingPrice
  {
    var st := if applyTrailing && p.trailingStop then TrailedStop(p.direction, sl, trailingPrice, bar) else (sl, trailingPrice);
    Step(st.0, st.1, ExitOf(p.direction, p.tpPrice, st.0, bar))
  }

  /** The position's fields show that `s` was carried out at `time`. */
  ghost predicate StepApplied(p: Position, s: Step, time: Timestamp)
    reads p
  {
    && p.slPrice == s.slPrice
    && p.trailingPrice == s.trailingPrice
    && match s.exit
       case None => p.IsOpen()
       case Some(e) => p.IsClosed() && p.status == e.status && p.exitPrice == Some(e.price) && p.exitTime == Some(time)
  }

  /** The steps planned for a list of open positions, read before any of them moves. */
  ghost function Plan(positions: seq<Position>, bar: Bar, applyTrailing: bool): (plan: seq<Step>)
    reads positions
    ensures |plan| == |positions|
    ensures forall j | 0 <= j < |positions| ::
      plan[j] == PlannedStep(positions[j], positions[j].slPrice, positions[j].trailingPrice, bar, applyTrailing)
  {
    seq(|positions|, j requires 0 <= j < |positions| reads positions =>
      PlannedStep(positions[j], positions[j].slPrice, positions[j].trailingPrice, bar, applyTrailing))
  }

  /** Which positions the plan closes. */
  function ExitFlags(plan: seq<Step>): (flags: seq<bool>)
    ensures |flags| == |plan|
    ensures forall j | 0 <= j < |plan| :: flags[j] == plan[j].exit.Some?
  {
    seq(|plan|, j requires 0 <= j < |plan| => plan[j].exit.Some?)
  }

  /** The positions the plan keeps open, in list order. */
  function Kept(s: seq<Position>, plan: seq<Step>): seq<Position>
    requires |plan| == |s|
  {
    Select(s, ExitFlags(plan), false)
  }

  /** The positions the plan closes, in list order. */
  function Dropped(s: seq<Position>, plan: seq<Step>): seq<Position>
    requires |plan| == |s|
  {
    Select(s, ExitFlags(plan), true)
  }

  /**
   * The trade each closing position becomes at its planned exit, in list
   * order: exited at `time`, with the profit of the move from its entry to
   * the exit price, and the exit's reason.
   */
  function ExitTrades(s: seq<Position>, plan: seq<Step>, time: Timestamp): (r: seq<ClosedTrade>)
    requires |plan| == |s|
  {
    if s == [] then []
    else
      var n := |s| - 1;
      ExitTrades(s[..n], plan[..n], time)
        + match plan[n].exit
          case None => []
          case Some(e) =>
            var pips := ProfitPips(s[n].entryPrice, e.price, s[n].direction);
            [ClosedTrade(MonthOf(time), pips, ProfitJpy(pips, s[n].lotSize), e.status)]
  }

  /**
   * The exit check realizes, for each position it closes, exactly the profit
   * of the move from its entry to its target or stop, no more and no less:
   * every realized amount lies between the take-profit and stop-loss results.
   */
  lemma {:induction false} ExitTradesBounded(s: seq<Position>, plan: seq<Step>, time: Timestamp, bar: Bar)
    requires |plan| == |s|
    requires forall j | 0 <= j < |s| :: plan[j].exit == ExitOf(s[j].direction, s[j].tpPrice, plan[j].slPrice, bar)
    ensures |ExitTrades(s, plan, time)| == |Dropped(s, plan)|
    ensures forall k | 0 <= k < |ExitTrades(s, plan, time)| :: exists j | 0 <= j < |s| ::
      plan[j].exit.Some? &&
      Min(ProfitJpy(ProfitPips(s[j].entryPrice, s[j].tpPrice, s[j].direction), s[j].lotSize),
          ProfitJpy(ProfitPips(s[j].entryPrice, plan[j].slPrice, s[j].direction), s[j].lotSize))
      <= ExitTrades(s, plan, time)[k].profitJpy <=
      Max(ProfitJpy(ProfitPips(s[j].entryPrice, s[j].tpPrice, s[j].direction), s[j].lotSize),
          ProfitJpy(ProfitPips(s[j].entryPrice, plan[j].slPrice, s[j].direction), s[j].lotSize))
  {
    if s != [] {
      var n := |s| - 1;
      ExitTradesBounded(s[..n], plan[..n], time, bar);
      assert ExitFlags(plan[..n]) == ExitFlags(plan)[..n];
    }
  }

  /** The loop body of the exit check, applied to one open position. */
  method ExitOne(p: Position, time: Timestamp, bar: Bar, applyTrailing: bool)
    requires p.IsOpen()
    modifies p
    ensures StepApplied(p, PlannedStep(p, old(p.slPrice), old(p.trailingPrice), bar, applyTrailing), time)
  {
    if applyTrailing && p.trailingStop {
      var st := TrailedStop(p.direction, p.slPrice, p.trailingPrice, bar);
      p.slPrice, p.trailingPrice := st.0, st.1;
    }
    var exit := ExitOf(p.direction, p.tpPrice, p.slPrice, bar);
    if exit.Some? {
      p.ClosePosition(time, exit.value.price, exit.value.status);
    }
  }

  /**
   * `_check_positions_for_exit` without the engine's own bookkeeping: one
   * pass over the open positions in list order that trails each stop (when
   * enabled) and closes each position the bar takes to its target or stop.
   * Returns the positions kept open and those just closed, both in list
   * order, and the closed ones' profits are the planned exits' profits.
   */
  method ExitPass(positions: seq<Position>, time: Timestamp, bar: Bar, applyTrailing: bool)
    returns (stillOpen: seq<Position>, nowClosed: seq<Position>)
    requires Distinct(positions)
    requires forall p | p in positions :: p.IsOpen()
    modifies positions
    ensures var plan := old(Plan(positions, bar, applyTrailing));
      && (forall i | 0 <= i < |positions| :: StepApplied(positions[i], plan[i], time))
      && stillOpen == Kept(positions, plan)
      && nowClosed == Dropped(positions, plan)
      && Records(nowClosed, ExitTrades(positions, plan, time))
    ensures Distinct(stillOpen) && Distinct(nowClosed)
    ensures |stillOpen| + |nowClosed| == |positions|
    ensures forall p | p in stillOpen :: p.IsOpen() && p in positions
  {
    ghost var plan := Plan(positions, bar, applyTrailing);
    nowClosed := ApplyExits(positions, time, bar, applyTrailing, plan);
    // the positions the pass closed leave the open list (`list.remove`)
    stillOpen := StillOpen(positions, plan);
    var flags := ExitFlags(plan);
    SelectMembers(positions, flags, true);
    SelectMembers(positions, flags, false);
    SelectDistinct(positions, flags, true);
    SelectDistinct(positions, flags, false);
    SelectCounts(positions, flags);
    DroppedTrades(positions, plan, time);
  }

  /** The closed positions become, one by one, exactly the trades their planned exits describe. */
  lemma {:induction false} DroppedTrades(s: seq<Position>, plan: seq<Step>, time: Timestamp)
    requires |plan| == |s|
    requires forall i | 0 <= i < |s| :: StepApplied(s[i], plan[i], time)
    ensures Records(Dropped(s, plan), ExitTrades(s, plan, time))
  {
    if s != [] {
      var n := |s| - 1;
      DroppedTrades(s[..n], plan[..n], time);
      assert ExitFlags(plan[..n]) == ExitFlags(plan)[..n];
    }
  }

  /**
   * The loop of the exit check: carries out each position's planned step in
   * list order and collects the positions it closes.
   */
  method ApplyExits(positions: seq<Position>, time: Timestamp, bar: Bar, applyTrailing: bool, ghost plan: seq<Step>)
    returns (nowClosed: seq<Position>)
    requires Distinct(positions)
    requires forall p | p in positions :: p.IsOpen()
    requires plan == Plan(positions, bar, applyTrailing)
    modifies positions
    ensures forall i | 0 <= i < |positions| :: StepApplied(positions[i], plan[i], time)
    ensures nowClosed == Dropped(positions, plan)
  {
    nowClosed := [];
    var i := 0;
    while i < |positions|
      invariant 0 <= i <= |positions|
      invariant forall j | 0 <= j < i :: StepApplied(positions[j], plan[j], time)
      invariant forall j | i <= j < |positions| :: unchanged(positions[j])
      invariant nowClosed == Dropped(positions[..i], plan[..i])
    {
      nowClosed := ExitAt(positions, i, time, bar, applyTrailing, plan, nowClosed);
      i := i + 1;
    }
    assert positions[..i] == positions && plan[..i] == plan;
  }

  /** One iteration of the exit loop: the position at index `i` takes its step. */
  method ExitAt(positions: seq<Position>, i: nat, time: Timestamp, bar: Bar, applyTrailing: bool,
                ghost plan: seq<Step>, closedBefore: seq<Position>)
    returns (closedAfter: seq<Position>)
    requires i < |positions| == |plan| && Distinct(positions)
    requires positions[i].IsOpen()
    requires plan[i] == PlannedStep(positions[i], positions[i].slPrice, positions[i].trailingPrice, bar, applyTrailing)
    requires closedBefore == Dropped(positions[..i], plan[..i])
    modifies positions[i]
    ensures StepApplied(positions[i], plan[i], time)
    ensures closedAfter == Dropped(positions[..i + 1], plan[..i + 1])
  {
    var p := positions[i];
    ExitOne(p, time, bar, applyTrailing);
    SelectStep(positions, ExitFlags(plan), i, true);
    assert ExitFlags(plan[..i]) == ExitFlags(plan)[..i];
    assert ExitFlags(plan[..i + 1]) == ExitFlags(plan)[..i + 1];
    if p.status != Open {
      closedAfter := closedBefore + [p];
    } else {
      closedAfter := closedBefore;
    }
  }

  /** The positions still open after the pass, in list order (what the `remove` calls leave). */
  method StillOpen(positions: seq<Position>, ghost plan: seq<Step>) returns (r: seq<Position>)
    requires |plan| == |positions|
    requires forall i | 0 <= i < |positions| :: (positions[i].status == Open <==> plan[i].exit.None?)
    ensures r == Kept(positions, plan)
  {
    r := [];
    var i := 0;
    while i < |positions|
      invariant 0 <= i <= |positions|
      invariant r == Kept(positions[..i], plan[..i])
    {
      SelectStep(positions, ExitFlags(plan), i, false);
      assert ExitFlags(plan[..i]) == ExitFlags(plan)[..i];
      assert ExitFlags(plan[..i + 1]) == ExitFlags(plan)[..i + 1];
      if positions[i].status == Open {
        r := r + [positions[i]];
      }
      i := i + 1;
    }
    assert positions[..i] == positions && plan[..i] == plan;
  }
}
