/**
 * The decision logic of the position lifecycle: the direction-dependent
 * threshold test `check_would_close` and the per-status transition table that
 * `check_and_close_position` applies to a position before acting on it.
 */
module Lifecycle {
  import opened Positions

  datatype Direction = Long | Short

  /** A position is treated as short exactly when the exchange reports side "Sell". */
  function DirectionOf(side: string): (d: Direction)
    ensures d == Short <==> side == "Sell"
  {
    if side == "Sell" then Short else Long
  }

  /** The price has reached the closing threshold: at or below it for a long, at or above it for a short. */
  predicate ReachedLow(dir: Direction, price: real, low: real) {
    match dir
    case Long => price <= low
    case Short => price >= low
  }

  /** The price has reached the advancing threshold: at or above it for a long, at or below it for a short. */
  predicate ReachedHigh(dir: Direction, price: real, high: real) {
    match dir
    case Long => price >= high
    case Short => price <= high
  }

  /** The triple `(would_close, change_status, closed_tp3)`. */
  datatype Verdict = Verdict(wouldClose: bool, changeStatus: bool, closedTp3: bool)

  /**
   * The threshold test. The closing threshold is checked first; the advancing
   * threshold only counts when the closing one was not reached, and with the
   * mode "TP3" reaching it closes as well.
   */
  function CheckWouldClose(price: real, dir: Direction, low: real, high: real, close: string): (v: Verdict)
    ensures ReachedLow(dir, price, low) ==> v == Verdict(true, false, false)
    ensures !ReachedLow(dir, price, low) && !ReachedHigh(dir, price, high) ==> v == Verdict(false, false, false)
    ensures v.changeStatus <==> !ReachedLow(dir, price, low) && ReachedHigh(dir, price, high)
    ensures v.wouldClose <==> ReachedLow(dir, price, low) || (v.changeStatus && close == "TP3")
    ensures v.closedTp3 <==> v.changeStatus && close == "TP3"
    ensures v.closedTp3 ==> v.wouldClose
    ensures close != "TP3" ==> !(v.wouldClose && v.changeStatus) && !v.closedTp3
  {
    match dir
    case Long =>
      if price <= low then Verdict(true, false, false)
      else if price >= high then Verdict(close == "TP3", true, close == "TP3")
      else Verdict(false, false, false)
    case Short =>
      if price >= low then Verdict(true, false, false)
      else if price <= high then Verdict(close == "TP3", true, close == "TP3")
      else Verdict(false, false, false)
  }

  /** A short position behaves as a long one on the negated price line. */
  lemma ShortMirrorsLong(price: real, low: real, high: real, close: string)
    ensures CheckWouldClose(price, Short, low, high, close) == CheckWouldClose(-price, Long, -low, -high, close)
  {
  }

  /** The status a position moves to and whether it is to be closed now. */
  datatype Transition = Transition(status: string, wouldClose: bool)

  /**
   * One evaluation of a position's status against the current price:
   * OPEN uses (stopLoss, point38), PROTECCION_13 uses (point13, point61) and
   * PROTECCION_23 uses (point23, takeProfit3) with the TP3 mode; any other
   * status is left alone.
   */
  function Evaluate(status: string, dir: Direction, price: real, params: OrderParams): (t: Transition)
    ensures status == OPEN ==>
      t == (if ReachedLow(dir, price, params.stopLoss) then Transition(CLOSED_STOPLOSS, true)
            else if ReachedHigh(dir, price, params.point38) then Transition(PROTECCION_13, false)
            else Transition(OPEN, false))
    ensures status == PROTECCION_13 ==>
      t == (if ReachedLow(dir, price, params.point13) then Transition(CLOSED_PROTECCION_13, true)
            else if ReachedHigh(dir, price, params.point61) then Transition(PROTECCION_23, false)
            else Transition(PROTECCION_13, false))
    ensures status == PROTECCION_23 ==>
      t == (if ReachedLow(dir, price, params.point23) then Transition(CLOSED_PROTECCION_23, true)
            else if ReachedHigh(dir, price, params.takeProfit3) then Transition(CLOSED_TP3, true)
            else Transition(PROTECCION_23, false))
    ensures !IsLive(status) ==> t == Transition(status, false)
    ensures t.wouldClose <==> IsLive(status) && IsClosed(t.status)
    ensures t.wouldClose || IsLive(t.status) == IsLive(status)
  {
    if status == OPEN then
      var v := CheckWouldClose(price, dir, params.stopLoss, params.point38, "NONE");
      if v.changeStatus && !v.wouldClose then Transition(PROTECCION_13, false)
      else if v.wouldClose then Transition(CLOSED_STOPLOSS, true)
      else Transition(status, false)
    else if status == PROTECCION_13 then
      var v := CheckWouldClose(price, dir, params.point13, params.point61, "NONE");
      if v.changeStatus && !v.wouldClose then Transition(PROTECCION_23, false)
      else if v.wouldClose then Transition(CLOSED_PROTECCION_13, true)
      else Transition(status, false)
    else if status == PROTECCION_23 then
      var v := CheckWouldClose(price, dir, params.point23, params.takeProfit3, "TP3");
      if v.wouldClose then
        if v.closedTp3 then Transition(CLOSED_TP3, true) else Transition(CLOSED_PROTECCION_23, true)
      else Transition(status, false)
    else
      Transition(status, false)
  }

  /** How far along the lifecycle a status is; closed statuses are last. */
  function Stage(status: string): nat {
    if status == OPEN then 0
    else if status == PROTECCION_13 then 1
    else if status == PROTECCION_23 then 2
    else 3
  }

  /**
   * A position never moves back: the stage after an evaluation is at least the
   * stage before it, and it advances by at most one protective stage unless it closes.
   */
  lemma EvaluateNeverRegresses(status: string, dir: Direction, price: real, params: OrderParams)
    requires IsLive(status)
    ensures var t := Evaluate(status, dir, price, params);
      Stage(status) <= Stage(t.status) && (t.wouldClose || Stage(t.status) <= Stage(status) + 1)
  {
  }

  /** Once a position carries a closed status, no later evaluation closes it again or changes it. */
  lemma ClosedIsFinal(status: string, dir: Direction, price: real, params: OrderParams)
    requires IsClosed(status)
    ensures Evaluate(status, dir, price, params) == Transition(status, false)
  {
  }

  /** Two worked cases: a long hitting its stop loss, and a short between its two thresholds. */
  lemma WorkedExamples(p: OrderParams)
    requires p.stopLoss == 100.0
    ensures p.point38 == 120.0 ==> Evaluate(OPEN, Long, 95.0, p) == Transition(CLOSED_STOPLOSS, true)
    ensures p.point38 == 80.0 ==> Evaluate(OPEN, Short, 85.0, p) == Transition(OPEN, false)
  {
  }
}
