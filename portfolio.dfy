/** The simulation context that settings/backtest.py threads through every call
    as `balance, positions, trade_history`: an object whose methods update the
    positions dictionary, the running balance and the append-only history in
    place, each proved to produce the book its Ledger function describes. */
module Portfolio {
  import opened Domain
  import opened ExitPolicy
  import opened Ledger

  class Account {
    var balance: real
    /** The positions dictionary: its entries, and its keys in insertion order. */
    var positions: map<Symbol, Position>
    var order: seq<Symbol>
    var history: seq<Entry>

    /** A fresh run: the initial balance, no positions, no history. */
    constructor (initial: real)
      ensures State() == EmptyBook(initial)
    {
      balance := initial;
      positions := map[];
      order := [];
      history := [];
    }

    function State(): Book
      reads this
    {
      Book(balance, positions, order, history)
    }

    ghost predicate Valid()
      reads this
    {
      Domain.Valid(State())
    }

    /** `open_position` for one bar. */
    method OpenPosition(bar: Bar, risk: real)
      requires Opens(State(), bar, risk) ==> bar.close != 0.0
      modifies this
      ensures State() == Open(old(State()), bar, risk)
    {
      var price := bar.close;
      if bar.signal == Buy && bar.symbol !in positions {
        var invest := risk * balance;
        if invest < MinTradeSize {
          return;
        }
        var qty := invest / price;
        positions := positions[bar.symbol := Position(Long, invest, qty, price, bar.time, None)];
        order := order + [bar.symbol];
        balance := balance - invest;
        history := history + [Opened(bar.time, bar.symbol, Long, price, qty, -invest, balance)];
      } else if bar.signal == Sell && bar.symbol !in positions {
        var invest := risk * balance;
        if invest < MinTradeSize {
          return;
        }
        var qty := invest / price;
        positions := positions[bar.symbol := Position(Short, invest, qty, price, bar.time, None)];
        order := order + [bar.symbol];
        balance := balance - invest;
        history := history + [Opened(bar.time, bar.symbol, Short, price, qty, -invest, balance)];
      }
    }

    /** The closing branch of `manage_positions` (and the body of
        `close_positions`): the payout goes to the balance, a closing entry
        records the profit and the rule, if any, and the symbol leaves the
        dictionary. */
    method Settle(sym: Symbol, price: real, time: int, reason: Option<ExitReason>)
      requires sym in positions
      modifies this
      ensures State() == CloseAt(old(State()), sym, price, time, reason)
    {
      var pos := positions[sym];
      var profit;
      if pos.side == Long {
        var proceeds := pos.qty * price;
        profit := proceeds - pos.usdIn;
        balance := balance + proceeds;
      } else {
        var proceeds := pos.qty * pos.entryPrice;
        var currentValue := pos.qty * price;
        profit := proceeds - currentValue;
        balance := balance + proceeds - currentValue + pos.usdIn;
      }
      assert profit == Profit(pos, price) && balance == old(balance) + Payout(pos, price);
      history := history + [Closed(time, sym, pos.side, price, profit, reason)];
      positions := positions - {sym};
      order := Without(order, sym);
    }

    /** The exit chain of `manage_positions` on the held position of the bar's
        symbol; the trailing stop writes its extreme into the entry before the
        later rules run. */
    method ManageHeld(bar: Bar)
      requires bar.symbol in positions && Priced(State())
      modifies this
      ensures State() == Manage(old(State()), bar)
    {
      var sym := bar.symbol;
      var price := bar.close;
      var pos := positions[sym];
      ExitPriority(pos, price, bar.time, bar.signal);
      if OppositeSignalExit(pos, bar.signal) {
        Settle(sym, price, bar.time, Some(OppositeSignal));
      } else if TakeProfitTarget(pos, price, TakeProfitPercent) {
        Settle(sym, price, bar.time, Some(TakeProfit));
      } else {
        var trail := TrailingStopLoss(pos, price, TrailPercent);
        positions := positions[sym := trail.after];
        ghost var mid := State();
        CloseAtIgnoresExtreme(old(State()), sym, trail.after.extreme, price, bar.time, Some(TrailingStop));
        CloseAtIgnoresExtreme(old(State()), sym, trail.after.extreme, price, bar.time, Some(TimeExit));
        if trail.fires {
          Settle(sym, price, bar.time, Some(TrailingStop));
        } else if ShouldClosePosition(trail.after, bar.time, MaxHoldHours) {
          Settle(sym, price, bar.time, Some(TimeExit));
        }
      }
    }

    /** `manage_positions` for one bar: walks a snapshot of the dictionary and
        runs the exit chain on the entry of the bar's symbol only. */
    method ManagePositions(bar: Bar)
      requires Valid()
      modifies this
      ensures State() == Manage(old(State()), bar)
    {
      var snapshot := order;
      var i := 0;
      while i < |snapshot|
        invariant 0 <= i <= |snapshot|
        invariant snapshot == old(order) && NoDup(snapshot)
        invariant bar.symbol in snapshot[..i] ==> State() == Manage(old(State()), bar)
        invariant bar.symbol !in snapshot[..i] ==> State() == old(State())
      {
        var sym := snapshot[i];
        if sym == bar.symbol {
          ManageHeld(bar);
        }
        assert snapshot[..i + 1] == snapshot[..i] + [sym];
        i := i + 1;
      }
      assert snapshot[..i] == snapshot;
    }

    /** One iteration of `close_all_positions`. */
    method ForceClose(sym: Symbol, dfs: map<Symbol, seq<Bar>>)
      requires sym in positions
      modifies this
      ensures State() == ForceOne(old(State()), sym, dfs)
    {
      if sym in dfs && |dfs[sym]| > 0 {
        var last := dfs[sym][|dfs[sym]| - 1];
        var price := last.close;
        var pos := positions[sym];
        ghost var before := history;
        if pos.side == Long {
          var proceeds := pos.qty * price;
          var profit := proceeds - pos.usdIn;
          balance := balance + proceeds;
          history := history + [Forced(last.time, sym, Long, price, pos.qty, proceeds, profit, balance)];
          assert history[|before|] == ForcedEntryAsWritten(sym, pos, last, balance);
        } else {
          var proceeds := pos.qty * pos.entryPrice;
          var currentValue := pos.qty * price;
          var profit := proceeds - currentValue;
          balance := balance + proceeds - currentValue + pos.usdIn;
          history := history + [Forced(last.time, sym, Short, price, pos.qty,
                                       proceeds - currentValue, profit, balance)];
          assert history[|before|] == ForcedEntryAsWritten(sym, pos, last, balance);
        }
        assert history == before + [ForcedEntryAsWritten(sym, pos, last, balance)];
        positions := positions - {sym};
        order := Without(order, sym);
      }
    }

    /** `close_all_positions`: every held symbol with data is closed at the
        close of its last bar, in dictionary order; the others are skipped. */
    method CloseAllPositions(dfs: map<Symbol, seq<Bar>>)
      requires Valid()
      modifies this
      ensures State() == CloseAll(old(State()), dfs)
    {
      if |positions| == 0 {
        return;
      }
      var snapshot := order;
      var i := 0;
      while i < |snapshot|
        invariant 0 <= i <= |snapshot|
        invariant snapshot == old(order) && NoDup(snapshot)
        invariant State() == ForceAll(old(State()), snapshot[..i], dfs)
        invariant forall k :: i <= k < |snapshot| ==> snapshot[k] in positions
      {
        var sym := snapshot[i];
        ForceClose(sym, dfs);
        assert snapshot[..i + 1] == snapshot[..i] + [sym];
        i := i + 1;
      }
      assert snapshot[..i] == snapshot;
    }
  }
}
