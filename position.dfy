/**
 * The backtest engines' position (src/backtest/position.py): a simulated
 * trade opened at an entry price with stop-loss and take-profit prices,
 * closed once, with its profit in pips (1 pip = 0.01 yen) and in yen.
 */
module BacktestPosition {
  import opened Wrappers
  import opened Market

  datatype PositionStatus = Open | ClosedTakeProfit | ClosedStopLoss | ClosedManual

  /** The label each status carries as its enum value. */
  function StatusValue(s: PositionStatus): (name: string)
    ensures (name == "オープン") <==> s == Open
  {
    match s
    case Open => "オープン"
    case ClosedTakeProfit => "利確"
    case ClosedStopLoss => "損切り"
    case ClosedManual => "手動決済"
  }

  /** Price move in pips, signed by the direction (+1 long, -1 short). */
  function ProfitPips(entryPrice: real, exitPrice: real, direction: int): real {
    (exitPrice - entryPrice) * direction as real * 100.0
  }

  /** Yen per pip for a lot size: 0.01 * 1000 * lot. */
  function PipValue(lotSize: real): real {
    0.01 * 1000.0 * lotSize
  }

  function ProfitJpy(pips: real, lotSize: real): real {
    pips * PipValue(lotSize)
  }

  /** A long gains exactly when the exit is above the entry, a short when below. */
  lemma ProfitPipsSign(entryPrice: real, exitPrice: real, direction: int)
    ensures direction == 1 ==> (ProfitPips(entryPrice, exitPrice, direction) > 0.0 <==> exitPrice > entryPrice)
    ensures direction == -1 ==> (ProfitPips(entryPrice, exitPrice, direction) > 0.0 <==> exitPrice < entryPrice)
    ensures ProfitPips(entryPrice, entryPrice, direction) == 0.0
  {
  }

  /** A positive lot turns a pip gain into a yen gain and a pip loss into a yen loss. */
  lemma ProfitJpySign(pips: real, lotSize: real)
    requires lotSize > 0.0
    ensures ProfitJpy(pips, lotSize) > 0.0 <==> pips > 0.0
    ensures ProfitJpy(pips, lotSize) < 0.0 <==> pips < 0.0
  {
    assert PipValue(lotSize) > 0.0;
    if pips > 0.0 {
      assert pips * PipValue(lotSize) > 0.0;
    } else if pips < 0.0 {
      assert pips * PipValue(lotSize) < 0.0;
    }
  }

  /** A row of the trade-history table (`to_dict`). */
  datatype PositionRow = PositionRow(
    entryTime: Timestamp,
    exitTime: Option<Timestamp>,
    direction: string,
    entryPrice: real,
    exitPrice: Option<real>,
    profitPips: Option<real>,
    profitJpy: Option<real>,
    exitReason: string,
    strategy: string,
    lotSize: real)

  class Position {
    const entryTime: Timestamp
    const direction: int
    const entryPrice: real
    var slPrice: real
    const tpPrice: real
    const strategy: string
    const lotSize: real
    /** Read by backtest_engine.py's trailing stop; see README. */
    const trailingStop: bool
    var trailingPrice: real

    var exitTime: Option<Timestamp>
    var exitPrice: Option<real>
    var status: PositionStatus
    var profitPips: Option<real>
    var profitJpy: Option<real>

    /** Freshly opened: status OPEN, no exit data and no profit yet. */
    ghost predicate IsOpen()
      reads this
    {
      status == Open && exitTime == None && exitPrice == None && profitPips == None && profitJpy == None
    }

    /** Closed once: exit data recorded, profit computed from the price move. */
    ghost predicate IsClosed()
      reads this
    {
      && status != Open
      && exitTime.Some?
      && exitPrice.Some?
      && profitPips == Some(ProfitPips(entryPrice, exitPrice.value, direction))
      && profitJpy == Some(ProfitJpy(profitPips.value, lotSize))
    }

    constructor (entryTime: Timestamp, direction: int, entryPrice: real, slPrice: real,
                 tpPrice: real, strategy: string, lotSize: real, trailingStop: bool)
      ensures IsOpen()
      ensures this.entryTime == entryTime && this.direction == direction && this.entryPrice == entryPrice
      ensures this.slPrice == slPrice && this.tpPrice == tpPrice && this.strategy == strategy
      ensures this.lotSize == lotSize && this.trailingStop == trailingStop
      ensures this.trailingPrice == entryPrice
    {
      this.entryTime := entryTime;
      this.direction := direction;
      this.entryPrice := entryPrice;
      this.slPrice := slPrice;
      this.tpPrice := tpPrice;
      this.strategy := strategy;
      this.lotSize := lotSize;
      this.trailingStop := trailingStop;
      this.trailingPrice := entryPrice;
      this.exitTime := None;
      this.exitPrice := None;
      this.status := Open;
      this.profitPips := None;
      this.profitJpy := None;
    }

    /** Records the exit and computes the realized profit. */
    method ClosePosition(exitTime: Timestamp, exitPrice: real, status: PositionStatus)
      modifies this`exitTime, this`exitPrice, this`status, this`profitPips, this`profitJpy
      ensures this.exitTime == Some(exitTime) && this.exitPrice == Some(exitPrice) && this.status == status
      ensures profitPips == Some(ProfitPips(entryPrice, exitPrice, direction))
      ensures profitJpy == Some(ProfitJpy(ProfitPips(entryPrice, exitPrice, direction), lotSize))
      ensures status != Open ==> IsClosed()
    {
      this.exitTime := Some(exitTime);
      this.exitPrice := Some(exitPrice);
      this.status := status;
      var pips := ProfitPips(entryPrice, exitPrice, direction);
      profitPips := Some(pips);
      profitJpy := Some(ProfitJpy(pips, lotSize));
    }

    /** The trade-history row of this position. */
    function ToDict(): (row: PositionRow)
      reads this
      ensures (row.direction == "買い") <==> direction == 1
      ensures row.direction == "買い" || row.direction == "売り"
      ensures row.profitPips == profitPips && row.profitJpy == profitJpy
      ensures row.exitTime == exitTime && row.exitPrice == exitPrice
      ensures row.exitReason == StatusValue(status)
    {
      PositionRow(
        entryTime, exitTime,
        if direction == 1 then "買い" else "売り",
        entryPrice, exitPrice, profitPips, profitJpy,
        StatusValue(status), strategy, lotSize)
    }
  }

  /**
   * The row of a closed position is self-consistent: its profit columns are
   * the ones its own entry price, exit price and lot give.
   */
  lemma ClosedRowConsistent(p: Position)
    requires p.IsClosed()
    ensures p.ToDict().profitPips == Some(ProfitPips(p.ToDict().entryPrice, p.ToDict().exitPrice.value, p.direction))
    ensures p.ToDict().profitJpy == Some(ProfitJpy(p.ToDict().profitPips.value, p.ToDict().lotSize))
    ensures p.ToDict().exitReason != "オープン"
  {
  }

  /** Unrealized yen profit of a position at a price: what closing there would realize. */
  function UnrealizedProfit(p: Position, price: real): real {
    p.direction as real * (price - p.entryPrice) * 100.0 * 0.01 * 1000.0 * p.lotSize
  }

  lemma UnrealizedIsRealizable(p: Position, price: real)
    ensures UnrealizedProfit(p, price) == ProfitJpy(ProfitPips(p.entryPrice, price, p.direction), p.lotSize)
  {
  }

  function SumUnrealized(s: seq<Position>, price: real): real {
    if s == [] then 0.0 else SumUnrealized(s[..|s| - 1], price) + UnrealizedProfit(s[|s| - 1], price)
  }
}
