/**
 * Pieces the three bar-replay engines share: the spread-adjusted entry
 * price, the fields a freshly opened position takes from its bar, the
 * equity record and the trade-history rows.
 */
module EngineCommon {
  import opened Wrappers
  import opened Market
  import opened BacktestPosition

  /**
   * Entry price after the spread: a buy (signal 1) pays the ask, half the
   * spread above the signal's price; any other signal sells at the bid.
   * One pip is 0.01 yen.
   */
  function EntryPrice(signal: int, signalPrice: real, spreadPips: real): real {
    if signal == 1 then signalPrice + spreadPips * 0.01 / 2.0
    else signalPrice - spreadPips * 0.01 / 2.0
  }

  /**
   * The spread is paid once per round: a buy enters half a spread above the
   * quoted price, a sell half a spread below, so the two entries lie one
   * full spread apart, and with a non-negative spread neither side gets a
   * better price than quoted.
   */
  lemma SpreadIsPaid(signalPrice: real, spreadPips: real, sellSignal: int)
    requires sellSignal != 1
    ensures EntryPrice(1, signalPrice, spreadPips) - EntryPrice(sellSignal, signalPrice, spreadPips) == spreadPips * 0.01
    ensures spreadPips >= 0.0 ==> EntryPrice(1, signalPrice, spreadPips) >= signalPrice
    ensures spreadPips >= 0.0 ==> EntryPrice(sellSignal, signalPrice, spreadPips) <= signalPrice
  {
  }

  /** One row of the equity curve. */
  datatype EquityPoint = EquityPoint(time: Timestamp, balance: real, equity: real, openPositions: nat)

  /**
   * The position `_open_new_position` builds from a bar with a signal: the
   * bar's direction, stop, target and strategy, the spread-adjusted entry,
   * the given lot and trailing flag, freshly open.
   */
  ghost predicate OpenedFrom(p: Position, bar: Bar, spreadPips: real, lotSize: real, trailingStop: bool)
    reads p
  {
    && p.IsOpen()
    && p.entryTime == bar.time
    && p.direction == bar.signal
    && p.entryPrice == EntryPrice(bar.signal, bar.entryPrice, spreadPips)
    && p.slPrice == bar.slPrice
    && p.tpPrice == bar.tpPrice
    && p.strategy == bar.strategy
    && p.lotSize == lotSize
    && p.trailingStop == trailingStop
    && p.trailingPrice == p.entryPrice
  }

  /** Opens the position a bar's signal asks for. */
  method NewPosition(bar: Bar, spreadPips: real, lotSize: real, trailingStop: bool) returns (p: Position)
    ensures fresh(p) && OpenedFrom(p, bar, spreadPips, lotSize, trailingStop)
  {
    var entry := EntryPrice(bar.signal, bar.entryPrice, spreadPips);
    p := new Position(bar.time, bar.signal, entry, bar.slPrice, bar.tpPrice, bar.strategy, lotSize, trailingStop);
  }

  /** `[pos.to_dict() for pos in positions]`. */
  function Rows(s: seq<Position>): (rows: seq<PositionRow>)
    reads s
    ensures |rows| == |s|
    ensures forall i | 0 <= i < |s| :: rows[i] == s[i].ToDict()
  {
    if s == [] then [] else Rows(s[..|s| - 1]) + [s[|s| - 1].ToDict()]
  }

  /**
   * The equity the engines record is the liquidation value of the account:
   * the balance plus what closing every open position at the bar's close
   * would realize through `close_position`.
   */
  lemma {:induction false} EquityIsLiquidationValue(s: seq<Position>, price: real)
    ensures SumUnrealized(s, price) == SumRealizable(s, price)
  {
    if s != [] {
      EquityIsLiquidationValue(s[..|s| - 1], price);
      UnrealizedIsRealizable(s[|s| - 1], price);
    }
  }

  /** What closing each position of `s` at `price` would add to the balance. */
  function SumRealizable(s: seq<Position>, price: real): real {
    if s == [] then 0.0
    else
      var p := s[|s| - 1];
      SumRealizable(s[..|s| - 1], price) + ProfitJpy(ProfitPips(p.entryPrice, price, p.direction), p.lotSize)
  }
}
