/** The position ledger of settings/backtest.py as functions on Book values:
    opening (`open_position`), closing with the fixed LONG and SHORT payoffs,
    managing a held position through the exit chain (`manage_positions`) and the
    final liquidation (`close_all_positions`). Each keeps the ledger invariant
    and the book's capital. */
module Ledger {
  import opened Domain
  import opened ExitPolicy

  /** Minimum notional of a new position. */
  const MinTradeSize: real := 0.01

  /** Realized profit of closing `pos` at `price`. */
  function Profit(pos: Position, price: real): real {
    match pos.side
    case Long => pos.qty * price - pos.usdIn
    case Short => pos.qty * pos.entryPrice - pos.qty * price
  }

  /** What a close credits to the balance: LONG gets qty·price; SHORT gets
      qty·entry − qty·price plus its escrowed usd_in. Both return the capital
      committed at entry plus the realized profit. */
  function Payout(pos: Position, price: real): (r: real)
    ensures r == Profit(pos, price) + pos.usdIn
  {
    match pos.side
    case Long => pos.qty * price
    case Short => pos.qty * pos.entryPrice - pos.qty * price + pos.usdIn
  }

  /** `open_position` creates a position: a BUY or SELL for a symbol not held,
      sized at least at the minimum notional. */
  predicate Opens(b: Book, bar: Bar, risk: real) {
    bar.signal != NoSignal && bar.symbol !in b.positions && risk * b.balance >= MinTradeSize
  }

  function OpenWith(b: Book, bar: Bar, side: Side, invest: real): Book
    requires bar.close != 0.0
  {
    var qty := invest / bar.close;
    var balance := b.balance - invest;
    Book(balance,
         b.positions[bar.symbol := Position(side, invest, qty, bar.close, bar.time, None)],
         b.order + [bar.symbol],
         b.history + [Opened(bar.time, bar.symbol, side, bar.close, qty, -invest, balance)])
  }

  /** `open_position`: BUY opens a LONG and SELL a SHORT worth risk·balance at the
      bar's close, escrowing that amount out of the balance and logging one
      opening entry. The price is only divided by when a position is opened. */
  function Open(b: Book, bar: Bar, risk: real): (r: Book)
    requires Opens(b, bar, risk) ==> bar.close != 0.0
    ensures Opens(b, bar, risk) ==>
      var invest := risk * b.balance;
      var side := SideFor(bar.signal);
      && r.balance == b.balance - invest
      && r.positions == b.positions[bar.symbol := Position(side, invest, invest / bar.close, bar.close, bar.time, None)]
      && r.order == b.order + [bar.symbol]
      && r.history == b.history + [Opened(bar.time, bar.symbol, side, bar.close, invest / bar.close, -invest, r.balance)]
    ensures !Opens(b, bar, risk) ==> r == b
  {
    if Opens(b, bar, risk) then OpenWith(b, bar, SideFor(bar.signal), risk * b.balance) else b
  }

  /** The quantity bought or sold is worth exactly the invested amount at the
      entry price. */
  lemma OpenSizing(b: Book, bar: Bar, risk: real)
    requires Opens(b, bar, risk) && bar.close != 0.0
    ensures Open(b, bar, risk).positions[bar.symbol].qty * bar.close == risk * b.balance
  {
    var invest := risk * b.balance;
    assert invest / bar.close * bar.close == invest;
  }

  /** Closes the position of `sym` at `price`: the balance receives the payout,
      one closing entry records the profit, and the symbol leaves the book. */
  function CloseAt(b: Book, sym: Symbol, price: real, time: int, reason: Option<ExitReason>): (r: Book)
    requires sym in b.positions
    ensures forall s :: s != sym ==> SameAt(b, r, s)
  {
    var pos := b.positions[sym];
    Book(b.balance + Payout(pos, price), b.positions - {sym}, Without(b.order, sym),
         b.history + [Closed(time, sym, pos.side, price, Profit(pos, price), reason)])
  }

  /** Closing does not look at the trailing extreme of the position. */
  lemma CloseAtIgnoresExtreme(b: Book, sym: Symbol, x: Option<real>, price: real, time: int, reason: Option<ExitReason>)
    requires sym in b.positions
    ensures var c := b.(positions := b.positions[sym := b.positions[sym].(extreme := x)]);
      CloseAt(c, sym, price, time, reason) == CloseAt(b, sym, price, time, reason)
  {
    var c := b.(positions := b.positions[sym := b.positions[sym].(extreme := x)]);
    var p, q := c.positions[sym], b.positions[sym];
    assert p.side == q.side && p.qty == q.qty && p.entryPrice == q.entryPrice && p.usdIn == q.usdIn;
    assert Payout(p, price) == Payout(q, price) && Profit(p, price) == Profit(q, price);
    assert c.positions - {sym} == b.positions - {sym};
  }

  /** `manage_positions` for one bar: the position of the bar's symbol, if any,
      goes through the exit chain; a reason closes it, otherwise it stays with
      its trailing extreme updated. */
  function Manage(b: Book, bar: Bar): (r: Book)
    requires Priced(b)
    ensures forall s :: s != bar.symbol ==> SameAt(b, r, s)
  {
    if bar.symbol !in b.positions then b
    else
      var d := ExitDecision(b.positions[bar.symbol], bar.close, bar.time, bar.signal);
      if d.reason.Some? then CloseAt(b, bar.symbol, bar.close, bar.time, d.reason)
      else b.(positions := b.positions[bar.symbol := d.after])
  }

  /** When the chain names no reason the position stays, with the extreme the
      trailing stop left in it. */
  lemma ManageKeeps(b: Book, bar: Bar)
    requires Priced(b) && bar.symbol in b.positions
    requires ExitDecision(b.positions[bar.symbol], bar.close, bar.time, bar.signal).reason.None?
    ensures Manage(b, bar) == b.(positions := b.positions[bar.symbol :=
      ExitDecision(b.positions[bar.symbol], bar.close, bar.time, bar.signal).after])
  {
  }

  /** `sym` has a non-empty bar sequence among the loaded data. */
  predicate HasData(dfs: map<Symbol, seq<Bar>>, sym: Symbol) {
    sym in dfs && |dfs[sym]| > 0
  }

  /** The FORCE entry with its cash flow as the source writes it: FORCE_LONG
      records qty·price, FORCE_SHORT records qty·entry − qty·price. For a LONG
      that is the payout credited to the balance; for a SHORT it falls short of
      the payout by the escrowed usd_in the balance gets back. */
  function ForcedEntryAsWritten(sym: Symbol, pos: Position, last: Bar, balance: real): (e: Entry)
    ensures e.Forced? && e.symbol == sym && e.side == pos.side && e.time == last.time
    ensures e.profit == Profit(pos, last.close) && e.balance == balance
    ensures e.usdFlow == Payout(pos, last.close) - (if pos.side == Short then pos.usdIn else 0.0)
  {
    var flow := if pos.side == Long then pos.qty * last.close
                else pos.qty * pos.entryPrice - pos.qty * last.close;
    Forced(last.time, sym, pos.side, last.close, pos.qty, flow, Profit(pos, last.close), balance)
  }

  /** The FORCE entry with the cash flow evidently intended: the payout
      credited to the balance, for both sides, as FORCE_LONG and the opening
      entries record it. */
  function ForcedEntry(sym: Symbol, pos: Position, last: Bar, balance: real): (e: Entry)
    ensures var w := ForcedEntryAsWritten(sym, pos, last, balance); e.Forced? && w.Forced? && e == w.(usdFlow := e.usdFlow)
    ensures e.usdFlow == Profit(pos, last.close) + pos.usdIn
  {
    Forced(last.time, sym, pos.side, last.close, pos.qty, Payout(pos, last.close),
           Profit(pos, last.close), balance)
  }

  /** One iteration of `close_all_positions`: a held symbol with data is closed
      at the close of its last bar, recording the FORCE entry as written; a
      symbol without data is skipped. */
  function ForceOne(b: Book, sym: Symbol, dfs: map<Symbol, seq<Bar>>): (r: Book)
    ensures forall s :: s != sym ==> SameAt(b, r, s)
  {
    if sym in b.positions && HasData(dfs, sym) then
      var last := dfs[sym][|dfs[sym]| - 1];
      var pos := b.positions[sym];
      var balance := b.balance + Payout(pos, last.close);
      Book(balance, b.positions - {sym}, Without(b.order, sym),
           b.history + [ForcedEntryAsWritten(sym, pos, last, balance)])
    else b
  }

  /** The liquidation step with the corrected FORCE entry. */
  function ForceOneCorrected(b: Book, sym: Symbol, dfs: map<Symbol, seq<Bar>>): (r: Book)
    ensures forall s :: s != sym ==> SameAt(b, r, s)
  {
    if sym in b.positions && HasData(dfs, sym) then
      var last := dfs[sym][|dfs[sym]| - 1];
      var pos := b.positions[sym];
      var balance := b.balance + Payout(pos, last.close);
      Book(balance, b.positions - {sym}, Without(b.order, sym),
           b.history + [ForcedEntry(sym, pos, last, balance)])
    else b
  }

  /** The corrected step differs from `ForceOne` only in the cash flow of the
      entry it appends: same balance, positions, order and earlier history. */
  lemma CorrectionOnlyChangesFlow(b: Book, sym: Symbol, dfs: map<Symbol, seq<Bar>>)
    ensures var r := ForceOneCorrected(b, sym, dfs);
      var w := ForceOne(b, sym, dfs);
      && r.(history := w.history) == w
      && |r.history| == |w.history|
      && r.history[..|b.history|] == w.history[..|b.history|] == b.history
      && (|r.history| > |b.history| ==>
            r.history[|b.history|].Forced? && w.history[|b.history|].Forced? &&
            r.history[|b.history|] == w.history[|b.history|].(usdFlow := r.history[|b.history|].usdFlow))
  {
    var r := ForceOneCorrected(b, sym, dfs);
    var w := ForceOne(b, sym, dfs);
    if sym in b.positions && HasData(dfs, sym) {
      assert r.history[..|b.history|] == b.history && w.history[..|b.history|] == b.history;
    }
  }

  /** `close_all_positions` over the symbols `ks`, in that order. */
  function ForceAll(b: Book, ks: seq<Symbol>, dfs: map<Symbol, seq<Bar>>): Book {
    if ks == [] then b else ForceOne(ForceAll(b, ks[..|ks| - 1], dfs), ks[|ks| - 1], dfs)
  }

  /** `close_all_positions`: nothing to do without positions, otherwise every
      position in dictionary order. */
  function CloseAll(b: Book, dfs: map<Symbol, seq<Bar>>): Book {
    if |b.positions| == 0 then b else ForceAll(b, b.order, dfs)
  }

  lemma {:induction false} AppendEntryKeepsLedger(b: Book, r: Book, e: Entry, sym: Symbol, pos: Position, price: real)
    requires Valid(b) && sym in b.positions && pos == b.positions[sym]
    requires e.symbol == sym && !e.Opened? && e.profit == Profit(pos, price)
    requires r == Book(b.balance + Payout(pos, price), b.positions - {sym}, Without(b.order, sym), b.history + [e])
    ensures Valid(r) && Capital(r) == Capital(b)
  {
    WithoutMembers(b.order, sym);
    WithoutNoDup(b.order, sym);
    RealizedAppend(b.history, e);
    EscrowWithout(b.order, sym, b.positions);
    EscrowFrame(Without(b.order, sym), b.positions, r.positions);
  }

  lemma {:induction false} OpenWithKeepsLedger(b: Book, bar: Bar, side: Side, invest: real)
    requires Valid(b) && bar.close != 0.0 && bar.symbol !in b.positions
    ensures Valid(OpenWith(b, bar, side, invest)) && Capital(OpenWith(b, bar, side, invest)) == Capital(b)
  {
    var r := OpenWith(b, bar, side, invest);
    var s := bar.symbol;
    var e := Opened(bar.time, s, side, bar.close, invest / bar.close, -invest, b.balance - invest);
    assert r.history == b.history + [e];
    assert s !in b.order;
    NoDupAppend(b.order, s);
    RealizedAppend(b.history, e);
    EscrowAppend(b.order, s, r.positions);
    EscrowFrame(b.order, b.positions, r.positions);
  }

  lemma OpenIsOpenWith(b: Book, bar: Bar, risk: real)
    requires Opens(b, bar, risk) && bar.close != 0.0
    ensures Open(b, bar, risk) == OpenWith(b, bar, SideFor(bar.signal), risk * b.balance)
  {
  }

  lemma OpenKeepsLedger(b: Book, bar: Bar, risk: real)
    requires Valid(b) && (Opens(b, bar, risk) ==> bar.close != 0.0)
    ensures Valid(Open(b, bar, risk)) && Capital(Open(b, bar, risk)) == Capital(b)
  {
    if Opens(b, bar, risk) {
      OpenIsOpenWith(b, bar, risk);
      OpenWithKeepsLedger(b, bar, SideFor(bar.signal), risk * b.balance);
    }
  }

  lemma CloseAtKeepsLedger(b: Book, sym: Symbol, price: real, time: int, reason: Option<ExitReason>)
    requires Valid(b) && sym in b.positions
    ensures Valid(CloseAt(b, sym, price, time, reason))
    ensures Capital(CloseAt(b, sym, price, time, reason)) == Capital(b)
  {
    var pos := b.positions[sym];
    AppendEntryKeepsLedger(b, CloseAt(b, sym, price, time, reason),
      Closed(time, sym, pos.side, price, Profit(pos, price), reason), sym, pos, price);
  }

  lemma ManageKeepsLedger(b: Book, bar: Bar)
    requires Valid(b)
    ensures Valid(Manage(b, bar)) && Capital(Manage(b, bar)) == Capital(b)
  {
    if bar.symbol in b.positions {
      var d := ExitDecision(b.positions[bar.symbol], bar.close, bar.time, bar.signal);
      if d.reason.Some? {
        CloseAtKeepsLedger(b, bar.symbol, bar.close, bar.time, d.reason);
      } else {
        ExitPriority(b.positions[bar.symbol], bar.close, bar.time, bar.signal);
        var r := Manage(b, bar);
        EscrowFrame(b.order, b.positions, r.positions);
      }
    }
  }

  lemma ForceOneKeepsLedger(b: Book, sym: Symbol, dfs: map<Symbol, seq<Bar>>)
    requires Valid(b)
    ensures Valid(ForceOne(b, sym, dfs)) && Capital(ForceOne(b, sym, dfs)) == Capital(b)
  {
    if sym in b.positions && HasData(dfs, sym) {
      var last := dfs[sym][|dfs[sym]| - 1];
      var pos := b.positions[sym];
      var balance := b.balance + Payout(pos, last.close);
      AppendEntryKeepsLedger(b, ForceOne(b, sym, dfs), ForcedEntryAsWritten(sym, pos, last, balance), sym, pos, last.close);
    }
  }

  lemma {:induction false} ForceAllKeepsLedger(b: Book, ks: seq<Symbol>, dfs: map<Symbol, seq<Bar>>)
    requires Valid(b)
    ensures Valid(ForceAll(b, ks, dfs)) && Capital(ForceAll(b, ks, dfs)) == Capital(b)
  {
    if ks != [] {
      ForceAllKeepsLedger(b, ks[..|ks| - 1], dfs);
      ForceOneKeepsLedger(ForceAll(b, ks[..|ks| - 1], dfs), ks[|ks| - 1], dfs);
    }
  }

  /** The final liquidation keeps the ledger invariant and the capital. */
  lemma CloseAllKeepsLedger(b: Book, dfs: map<Symbol, seq<Bar>>)
    requires Valid(b)
    ensures Valid(CloseAll(b, dfs)) && Capital(CloseAll(b, dfs)) == Capital(b)
  {
    if |b.positions| != 0 {
      ForceAllKeepsLedger(b, b.order, dfs);
    }
  }

  /** After liquidating over `ks`, a symbol is still held exactly when it was held
      before and is not one of the `ks` that have data; kept positions are
      untouched. */
  lemma {:induction false} ForceAllRemoves(b: Book, ks: seq<Symbol>, dfs: map<Symbol, seq<Bar>>)
    ensures var r := ForceAll(b, ks, dfs);
      forall s :: (s in r.positions <==> s in b.positions && !(s in ks && HasData(dfs, s)))
               && (s in r.positions ==> r.positions[s] == b.positions[s])
  {
    if ks != [] {
      var p := ks[..|ks| - 1];
      ForceAllRemoves(b, p, dfs);
      assert ks == p + [ks[|ks| - 1]];
    }
  }

  /** `close_all_positions` removes exactly the positions whose symbol has
      non-empty data and leaves every other position as it was. */
  lemma CloseAllRemovesExactly(b: Book, dfs: map<Symbol, seq<Bar>>)
    requires Valid(b)
    ensures var r := CloseAll(b, dfs);
      forall s :: (s in r.positions <==> s in b.positions && !HasData(dfs, s))
               && (s in r.positions ==> r.positions[s] == b.positions[s])
  {
    ForceAllRemoves(b, b.order, dfs);
  }

  lemma {:induction false} ForceAllIdle(b: Book, ks: seq<Symbol>, dfs: map<Symbol, seq<Bar>>)
    requires forall k :: k in ks && k in b.positions ==> !HasData(dfs, k)
    ensures ForceAll(b, ks, dfs) == b
  {
    if ks != [] {
      ForceAllIdle(b, ks[..|ks| - 1], dfs);
    }
  }

  /** A second liquidation right after the first changes nothing: no balance
      change, no new history entry, no position removed. */
  lemma CloseAllIdempotent(b: Book, dfs: map<Symbol, seq<Bar>>)
    requires Valid(b)
    ensures CloseAll(CloseAll(b, dfs), dfs) == CloseAll(b, dfs)
  {
    var r := CloseAll(b, dfs);
    CloseAllRemovesExactly(b, dfs);
    CloseAllKeepsLedger(b, dfs);
    ForceAllIdle(r, r.order, dfs);
  }

  /** The opening entry records the balance change as its flow. */
  lemma OpenFlowMatchesBalance(b: Book, bar: Bar, risk: real)
    requires Opens(b, bar, risk) && bar.close != 0.0
    ensures var r := Open(b, bar, risk);
      r.history[|r.history| - 1].usdFlow == r.balance - b.balance
      && r.history[|r.history| - 1].balance == r.balance
  {
    OpenIsOpenWith(b, bar, risk);
  }

  /** The corrected FORCE entry records the balance change as its flow. */
  lemma ForcedFlowMatchesBalance(b: Book, sym: Symbol, dfs: map<Symbol, seq<Bar>>)
    requires sym in b.positions && HasData(dfs, sym)
    ensures var r := ForceOneCorrected(b, sym, dfs);
      r.history[|r.history| - 1].usdFlow == r.balance - b.balance
      && r.history[|r.history| - 1].balance == r.balance
  {
    var last := dfs[sym][|dfs[sym]| - 1];
    var pos := b.positions[sym];
    var balance := b.balance + Payout(pos, last.close);
    var r := ForceOneCorrected(b, sym, dfs);
    assert r.balance == balance;
    assert r.history[|r.history| - 1] == ForcedEntry(sym, pos, last, balance);
  }

  /** With the corrected FORCE entry, every entry that records a cash flow
      records the change of the balance it caused, and every entry that records
      a balance records the new balance. */
  lemma FlowsMatchBalance(b: Book, bar: Bar, risk: real, sym: Symbol, dfs: map<Symbol, seq<Bar>>)
    requires Opens(b, bar, risk) ==> bar.close != 0.0
    ensures var r := Open(b, bar, risk);
      Opens(b, bar, risk) ==>
        r.history[|r.history| - 1].usdFlow == r.balance - b.balance
        && r.history[|r.history| - 1].balance == r.balance
    ensures var r := ForceOneCorrected(b, sym, dfs);
      sym in b.positions && HasData(dfs, sym) ==>
        r.history[|r.history| - 1].usdFlow == r.balance - b.balance
        && r.history[|r.history| - 1].balance == r.balance
  {
    if Opens(b, bar, risk) {
      OpenFlowMatchesBalance(b, bar, risk);
    }
    if sym in b.positions && HasData(dfs, sym) {
      ForcedFlowMatchesBalance(b, sym, dfs);
    }
  }

  /** As written, liquidating a SHORT of qty 0.1 entered at 100 with usd_in 10
      at a last close of 100 records a FORCE_SHORT flow of 0 while the balance
      rises by 10; the corrected step records 10. */
  lemma ForcedShortFlowMismatch()
    ensures var pos := Position(Short, 10.0, 0.1, 100.0, 0, None);
      var b := Book(0.0, map["BTCUSDC" := pos], ["BTCUSDC"], []);
      var dfs := map["BTCUSDC" := [Bar("BTCUSDC", 3600, 100.0, 100.0, NoSignal)]];
      var r := ForceOne(b, "BTCUSDC", dfs);
      var c := ForceOneCorrected(b, "BTCUSDC", dfs);
      && r.balance == 10.0 && r.history[0].usdFlow == 0.0
      && c.balance == 10.0 && c.history[0].usdFlow == 10.0
  {
    var pos := Position(Short, 10.0, 0.1, 100.0, 0, None);
    var b := Book(0.0, map["BTCUSDC" := pos], ["BTCUSDC"], []);
    var dfs := map["BTCUSDC" := [Bar("BTCUSDC", 3600, 100.0, 100.0, NoSignal)]];
    assert HasData(dfs, "BTCUSDC");
    var last := dfs["BTCUSDC"][0];
    assert Payout(pos, last.close) == 10.0;
  }

  /** balance 100, risk 0.1, BUY at 10 opens a LONG of qty 1 and leaves 90; the
      SELL at 11 on the next bar closes it by the opposite-signal rule with
      profit 1, leaving 101. */
  lemma LongRoundTripScenario()
    ensures var b := Open(EmptyBook(100.0), Bar("BTCUSDC", 0, 10.0, 10.0, Buy), 0.1);
      && b.balance == 90.0
      && b.positions["BTCUSDC"] == Position(Long, 10.0, 1.0, 10.0, 0, None)
      && var r := Manage(b, Bar("BTCUSDC", 3600, 11.0, 11.0, Sell));
         && r.balance == 101.0 && r.positions == map[]
         && r.history[1] == Closed(3600, "BTCUSDC", Long, 11.0, 1.0, Some(OppositeSignal))
  {
    var buy := Bar("BTCUSDC", 0, 10.0, 10.0, Buy);
    var pos := Position(Long, 10.0, 1.0, 10.0, 0, None);
    assert Opens(EmptyBook(100.0), buy, 0.1);
    assert 10.0 / 10.0 == 1.0;
    var b := Open(EmptyBook(100.0), buy, 0.1);
    assert b == Book(90.0, map["BTCUSDC" := pos], ["BTCUSDC"], [Opened(0, "BTCUSDC", Long, 10.0, 1.0, -10.0, 90.0)]);
    var sell := Bar("BTCUSDC", 3600, 11.0, 11.0, Sell);
    assert OppositeSignalExit(pos, Sell);
    assert Manage(b, sell) == CloseAt(b, "BTCUSDC", 11.0, 3600, Some(OppositeSignal));
    assert b.positions - {"BTCUSDC"} == map[];
  }

  /** A SHORT of qty 0.1 entered at 100 with usd_in 10, still open 48 hours later
      at 120, is closed by the time exit with profit −2 and the balance gains 8. */
  lemma ShortTimeExitScenario(balance: real)
    ensures var pos := Position(Short, 10.0, 0.1, 100.0, 0, None);
      var b := Book(balance, map["ETHUSDC" := pos], ["ETHUSDC"], [Opened(0, "ETHUSDC", Short, 100.0, 0.1, -10.0, balance)]);
      var r := Manage(b, Bar("ETHUSDC", 48 * 3600, 120.0, 120.0, NoSignal));
      && r.balance == balance + 8.0
      && r.history[1] == Closed(48 * 3600, "ETHUSDC", Short, 120.0, -2.0, Some(TimeExit))
  {
  }
}
