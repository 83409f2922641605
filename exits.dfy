/** The exit rules of settings/backtest.py and the first-match-wins chain in
    which `manage_positions` applies them. */
module ExitPolicy {
  import opened Domain

  const TakeProfitPercent: real := 0.20
  const TrailPercent: real := 0.15
  /** The maximum hold `manage_positions` passes (the rule's own default of 24
      is never used by the engine). */
  const MaxHoldHours: int := 48

  /** Opposite-signal exit: a LONG sees SELL, or a SHORT sees BUY. */
  function OppositeSignalExit(pos: Position, signal: Signal): (r: bool)
    ensures r <==> signal != NoSignal && signal != EntrySignal(pos.side)
  {
    (pos.side == Long && signal == Sell) || (pos.side == Short && signal == Buy)
  }

  lemma {:induction false} RatioAtLeast(a: real, e: real, q: real)
    requires e > 0.0
    ensures a / e >= q <==> a >= q * e
  {
    assert a / e * e == a;
    if a / e >= q {
      assert a / e * e >= q * e;
    } else {
      assert a / e * e < q * e;
    }
  }

  lemma GainAtLeast(pos: Position, price: real, q: real)
    requires pos.entryPrice != 0.0
    ensures pos.entryPrice > 0.0 ==>
      && ((price - pos.entryPrice) / pos.entryPrice >= q <==> price >= pos.entryPrice * (1.0 + q))
      && ((pos.entryPrice - price) / pos.entryPrice >= q <==> price <= pos.entryPrice * (1.0 - q))
  {
    if pos.entryPrice > 0.0 {
      RatioAtLeast(price - pos.entryPrice, pos.entryPrice, q);
      RatioAtLeast(pos.entryPrice - price, pos.entryPrice, q);
    }
  }

  /** Take-profit: the relative gain since entry, in the position's direction,
      reaches `profitPercent`. */
  function TakeProfitTarget(pos: Position, price: real, profitPercent: real): (r: bool)
    requires pos.entryPrice != 0.0
    ensures pos.entryPrice > 0.0 ==>
      (r <==> if pos.side == Long then price >= pos.entryPrice * (1.0 + profitPercent)
              else price <= pos.entryPrice * (1.0 - profitPercent))
  {
    GainAtLeast(pos, price, profitPercent);
    if pos.side == Long then (price - pos.entryPrice) / pos.entryPrice >= profitPercent
    else (pos.entryPrice - price) / pos.entryPrice >= profitPercent
  }

  /** What the trailing stop returns: whether it fires, and the position with its
      running extreme updated (the rule writes it into the position in place). */
  datatype Trail = Trail(fires: bool, after: Position)

  function Max(a: real, b: real): real { if a >= b then a else b }
  function Min(a: real, b: real): real { if a <= b then a else b }

  /** Trailing stop: a LONG tracks the highest price seen and fires once the
      price falls to `1 - trailPercent` of it; a SHORT tracks the lowest price and
      fires once the price rises to `1 + trailPercent` of it. */
  function TrailingStopLoss(pos: Position, price: real, trailPercent: real): (r: Trail)
    ensures r.after == pos.(extreme := r.after.extreme) && r.after.extreme.Some?
    ensures var x := r.after.extreme.value;
      && (x == price || (pos.extreme.Some? && x == pos.extreme.value))
      && (pos.side == Long ==>
            x >= price && (pos.extreme.Some? ==> x >= pos.extreme.value)
            && (r.fires <==> price <= x * (1.0 - trailPercent)))
      && (pos.side == Short ==>
            x <= price && (pos.extreme.Some? ==> x <= pos.extreme.value)
            && (r.fires <==> price >= x * (1.0 + trailPercent)))
  {
    match pos.side
    case Long =>
      var highest := if pos.extreme.None? then price else Max(pos.extreme.value, price);
      Trail(price <= highest * (1.0 - trailPercent), pos.(extreme := Some(highest)))
    case Short =>
      var lowest := if pos.extreme.None? then price else Min(pos.extreme.value, price);
      Trail(price >= lowest * (1.0 + trailPercent), pos.(extreme := Some(lowest)))
  }

  /** Time exit: the position has been held for `maxHoldHours` hours or more. */
  function ShouldClosePosition(pos: Position, now: int, maxHoldHours: int): (r: bool)
    ensures r <==> now - pos.entryTime >= maxHoldHours * 3600
  {
    ((now - pos.entryTime) as real) / 3600.0 >= maxHoldHours as real
  }

  /** The outcome of the exit chain for one position on one bar. */
  datatype Decision = Decision(reason: Option<ExitReason>, after: Position)

  /** The chain of `manage_positions`: opposite signal, take-profit 20%,
      trailing stop 15%, time exit 48 hours; the first rule that holds names the
      reason and the later ones are not evaluated, so the trailing stop only
      updates its extreme when the first two rules are false. */
  function ExitDecision(pos: Position, price: real, now: int, signal: Signal): (d: Decision)
    requires pos.entryPrice != 0.0
    ensures d.after == pos.(extreme := d.after.extreme)
    ensures d.reason == Some(OppositeSignal) || d.reason == Some(TakeProfit) ==> d.after == pos
    ensures d.reason.None? ==> d.after.extreme.Some?
  {
    if OppositeSignalExit(pos, signal) then Decision(Some(OppositeSignal), pos)
    else if TakeProfitTarget(pos, price, TakeProfitPercent) then Decision(Some(TakeProfit), pos)
    else
      var t := TrailingStopLoss(pos, price, TrailPercent);
      if t.fires then Decision(Some(TrailingStop), t.after)
      else if ShouldClosePosition(t.after, now, MaxHoldHours) then Decision(Some(TimeExit), t.after)
      else Decision(None, t.after)
  }

  /** Each reason is chosen exactly when its rule holds and every rule before it
      fails; the extreme changes only when the trailing stop was reached. */
  lemma ExitPriority(pos: Position, price: real, now: int, signal: Signal)
    requires pos.entryPrice != 0.0
    ensures var d := ExitDecision(pos, price, now, signal);
      var opp := OppositeSignalExit(pos, signal);
      var tp := TakeProfitTarget(pos, price, TakeProfitPercent);
      var ts := TrailingStopLoss(pos, price, TrailPercent);
      var te := ShouldClosePosition(pos, now, MaxHoldHours);
      && (d.reason == Some(OppositeSignal) <==> opp)
      && (d.reason == Some(TakeProfit) <==> !opp && tp)
      && (d.reason == Some(TrailingStop) <==> !opp && !tp && ts.fires)
      && (d.reason == Some(TimeExit) <==> !opp && !tp && !ts.fires && te)
      && (d.reason == None <==> !opp && !tp && !ts.fires && !te)
      && d.after == (if opp || tp then pos else ts.after)
  {
  }

  /** A position that was opened on this very bar (same side as the signal, same
      price, same time, no extreme yet) is not closed by the chain at a positive
      price: only its extreme is set, to the entry price. */
  lemma NoExitOnEntryBar(pos: Position, price: real, now: int, signal: Signal)
    requires price > 0.0 && signal != NoSignal && pos.side == SideFor(signal)
    requires pos.entryPrice == price && pos.entryTime == now && pos.extreme == None
    ensures ExitDecision(pos, price, now, signal) == Decision(None, pos.(extreme := Some(price)))
  {
  }

  /** The position after the trailing stop has looked at `prices` in turn. */
  function Track(pos: Position, prices: seq<real>, trailPercent: real): Position {
    if prices == [] then pos
    else TrailingStopLoss(Track(pos, prices[..|prices| - 1], trailPercent), prices[|prices| - 1], trailPercent).after
  }

  /** Starting from a fresh position, the extreme is one of the prices seen. */
  lemma {:induction false} TrackIsSeenPrice(pos: Position, prices: seq<real>, trailPercent: real)
    requires pos.extreme == None && prices != []
    ensures Track(pos, prices, trailPercent).extreme.Some?
    ensures Track(pos, prices, trailPercent).extreme.value in prices
  {
    var p, last := prices[..|prices| - 1], prices[|prices| - 1];
    assert prices == p + [last];
    var x := Track(pos, prices, trailPercent).extreme.value;
    if p != [] {
      TrackIsSeenPrice(pos, p, trailPercent);
      var prev := Track(pos, p, trailPercent).extreme.value;
      if x != last {
        assert x == prev;
        assert prev in p;
      }
    }
  }

  /** Starting from a fresh position, the LONG extreme is the highest of the
      prices seen (and the SHORT extreme the lowest): it is one of them and
      bounds all of them, so it never moves against the position. */
  lemma {:induction false} TrackIsRunningExtreme(pos: Position, prices: seq<real>, trailPercent: real)
    requires pos.extreme == None && prices != []
    ensures var x := Track(pos, prices, trailPercent).extreme;
      && x.Some? && x.value in prices
      && (pos.side == Long ==> forall i :: 0 <= i < |prices| ==> prices[i] <= x.value)
      && (pos.side == Short ==> forall i :: 0 <= i < |prices| ==> prices[i] >= x.value)
  {
    TrackIsSeenPrice(pos, prices, trailPercent);
    var p, last := prices[..|prices| - 1], prices[|prices| - 1];
    var x := Track(pos, prices, trailPercent).extreme.value;
    if p != [] {
      TrackIsRunningExtreme(pos, p, trailPercent);
      TrackKeepsFields(pos, p, trailPercent);
      var prev := Track(pos, p, trailPercent).extreme.value;
      assert pos.side == Long ==> x >= last && x >= prev;
      assert pos.side == Short ==> x <= last && x <= prev;
      forall i | 0 <= i < |prices|
        ensures pos.side == Long ==> prices[i] <= x
        ensures pos.side == Short ==> prices[i] >= x
      {
        if i < |p| {
          assert prices[i] == p[i];
        }
      }
    }
  }

  lemma {:induction false} TrackKeepsFields(pos: Position, prices: seq<real>, trailPercent: real)
    ensures Track(pos, prices, trailPercent) == pos.(extreme := Track(pos, prices, trailPercent).extreme)
  {
    if prices != [] {
      TrackKeepsFields(pos, prices[..|prices| - 1], trailPercent);
    }
  }
}
