/** The three-green-candles strategy of backtest_bona.py and its replays, which
    close a held position on every signal bar (and, in the portfolio replay, at
    every timestamp the symbol trades) before looking for entries. */
module Bona {
  import opened Domain
  import opened Ledger
  import opened Portfolio
  import opened Timeline
  import opened Metrics

  const Btc: Symbol := "BTCUSDC"

  /** A column shifted down by `k` rows: the first `k` rows have no value. */
  function Shift(xs: seq<real>, k: nat): seq<Option<real>> {
    seq(|xs|, i requires 0 <= i < |xs| => if i < k then None else Some(xs[i - k]))
  }

  /** A comparison of two column cells; a missing value compares false. */
  function Less(a: Option<real>, b: Option<real>): bool {
    a.Some? && b.Some? && a.value < b.value
  }

  function OpenColumn(bars: seq<Bar>): seq<real> {
    seq(|bars|, i requires 0 <= i < |bars| => bars[i].open)
  }

  function CloseColumn(bars: seq<Bar>): seq<real> {
    seq(|bars|, i requires 0 <= i < |bars| => bars[i].close)
  }

  /** The candle closed above its open. */
  predicate Green(bar: Bar) {
    bar.open < bar.close
  }

  /** The buy mask: the candles one, two and three rows back all closed above
      their open; rows without three predecessors compare false. */
  function BuyMask(bars: seq<Bar>): (m: seq<bool>)
    ensures |m| == |bars|
    ensures forall i :: 0 <= i < |bars| ==>
      (m[i] <==> i >= 3 && Green(bars[i - 1]) && Green(bars[i - 2]) && Green(bars[i - 3]))
  {
    var o, c := OpenColumn(bars), CloseColumn(bars);
    var o1, c1 := Shift(o, 1), Shift(c, 1);
    var o2, c2 := Shift(o, 2), Shift(c, 2);
    var o3, c3 := Shift(o, 3), Shift(c, 3);
    seq(|bars|, i requires 0 <= i < |bars| =>
      Less(o1[i], c1[i]) && Less(o2[i], c2[i]) && Less(o3[i], c3[i]))
  }

  /** `search_entry_points`: the buy mask written into a fresh copy of the
      bars. A bar is a BUY exactly when the three candles before it are green;
      no bar is a SELL, and every other field is the input's. */
  function SearchEntryPoints(bars: seq<Bar>): (r: seq<Bar>)
    ensures |r| == |bars|
    ensures forall i :: 0 <= i < |bars| ==> r[i] == bars[i].(signal := r[i].signal)
    ensures forall i :: 0 <= i < |bars| ==>
      && r[i].signal != Sell
      && (r[i].signal == Buy <==> i >= 3 && Green(bars[i - 1]) && Green(bars[i - 2]) && Green(bars[i - 3]))
  {
    var buy := BuyMask(bars);
    seq(|bars|, i requires 0 <= i < |bars| => bars[i].(signal := if buy[i] then Buy else NoSignal))
  }

  /** `close_positions`: the position of the bar's symbol, if held, is closed at
      the bar's close whatever the signal, with no exit rule named. */
  function CloseOnBar(b: Book, bar: Bar): (r: Book)
    ensures bar.symbol !in r.positions
    ensures bar.symbol !in b.positions ==> r == b
    ensures forall s :: s != bar.symbol ==> SameAt(b, r, s)
  {
    if bar.symbol in b.positions then CloseAt(b, bar.symbol, bar.close, bar.time, None) else b
  }

  lemma CloseOnBarKeepsLedger(b: Book, bar: Bar)
    requires Valid(b)
    ensures Valid(CloseOnBar(b, bar)) && Capital(CloseOnBar(b, bar)) == Capital(b)
  {
    if bar.symbol in b.positions {
      CloseAtKeepsLedger(b, bar.symbol, bar.close, bar.time, None);
    }
  }

  /** `close_positions` on the account: walks a snapshot of the dictionary and
      settles the entry of the bar's symbol. */
  method ClosePositions(acct: Account, bar: Bar)
    requires acct.Valid()
    modifies acct
    ensures acct.State() == CloseOnBar(old(acct.State()), bar)
  {
    var snapshot := acct.order;
    var i := 0;
    while i < |snapshot|
      invariant 0 <= i <= |snapshot|
      invariant snapshot == old(acct.order) && NoDup(snapshot)
      invariant bar.symbol in snapshot[..i] ==> acct.State() == CloseOnBar(old(acct.State()), bar)
      invariant bar.symbol !in snapshot[..i] ==> acct.State() == old(acct.State())
    {
      var sym := snapshot[i];
      if sym == bar.symbol {
        acct.Settle(sym, bar.close, bar.time, None);
      }
      assert snapshot[..i + 1] == snapshot[..i] + [sym];
      i := i + 1;
    }
    assert snapshot[..i] == snapshot;
  }

  /** One bar of the single-instrument replay: a BUY or SELL bar first closes
      any held position of the symbol, then tries to open; other bars change
      nothing. */
  function BonaStep(b: Book, bar: Bar, risk: real): Book
    requires bar.signal != NoSignal ==> bar.close != 0.0
  {
    if bar.signal != NoSignal then Open(CloseOnBar(b, bar), bar, risk) else b
  }

  /** After a signal bar the symbol is held exactly when the balance left after
      the close affords the minimum trade, and then by a position opened on this
      bar; other symbols are untouched, and bars without a signal change nothing. */
  lemma BonaStepOutcome(b: Book, bar: Bar, risk: real)
    requires bar.signal != NoSignal ==> bar.close != 0.0
    ensures var r := BonaStep(b, bar, risk);
      && (bar.signal == NoSignal ==> r == b)
      && (bar.signal != NoSignal ==>
            && (bar.symbol in r.positions <==> risk * CloseOnBar(b, bar).balance >= MinTradeSize)
            && (bar.symbol in r.positions ==> FreshAt(r.positions[bar.symbol], bar)))
      && forall s :: s != bar.symbol ==> SameAt(b, r, s)
  {
  }

  lemma BonaStepKeepsLedger(b: Book, bar: Bar, risk: real)
    requires Valid(b) && (bar.signal != NoSignal ==> bar.close != 0.0)
    ensures Valid(BonaStep(b, bar, risk)) && Capital(BonaStep(b, bar, risk)) == Capital(b)
  {
    if bar.signal != NoSignal {
      CloseOnBarKeepsLedger(b, bar);
      OpenKeepsLedger(CloseOnBar(b, bar), bar, risk);
    }
  }

  /** The loop of `test_on_btc` and of each run of `test_on_all_pairs_independently`. */
  function BonaRun(b: Book, bars: seq<Bar>, risk: real): Book
    requires Priceable(bars)
  {
    if bars == [] then b
    else BonaStep(BonaRun(b, bars[..|bars| - 1], risk), bars[|bars| - 1], risk)
  }

  lemma {:induction false} BonaRunKeepsLedger(b: Book, bars: seq<Bar>, risk: real)
    requires Valid(b) && Priceable(bars)
    ensures Valid(BonaRun(b, bars, risk)) && Capital(BonaRun(b, bars, risk)) == Capital(b)
  {
    if bars != [] {
      BonaRunKeepsLedger(b, bars[..|bars| - 1], risk);
      BonaStepKeepsLedger(BonaRun(b, bars[..|bars| - 1], risk), bars[|bars| - 1], risk);
    }
  }

  /** A run over bars of one symbol never holds any other symbol. */
  lemma {:induction false} BonaRunStaysOnSymbol(b: Book, bars: seq<Bar>, risk: real, sym: Symbol)
    requires Priceable(bars) && forall i :: 0 <= i < |bars| ==> bars[i].symbol == sym
    requires forall s :: s in b.positions ==> s == sym
    ensures forall s :: s in BonaRun(b, bars, risk).positions ==> s == sym
  {
    if bars != [] {
      BonaRunStaysOnSymbol(b, bars[..|bars| - 1], risk, sym);
      BonaStepOutcome(BonaRun(b, bars[..|bars| - 1], risk), bars[|bars| - 1], risk);
    }
  }

  /** The replay loop on the account. */
  method ReplayBona(acct: Account, bars: seq<Bar>, risk: real)
    requires acct.Valid() && Priceable(bars)
    modifies acct
    ensures acct.State() == BonaRun(old(acct.State()), bars, risk)
  {
    for i := 0 to |bars|
      invariant acct.State() == BonaRun(old(acct.State()), bars[..i], risk)
      invariant acct.Valid()
    {
      var bar := bars[i];
      assert bars[..i + 1][..i] == bars[..i];
      BonaStepKeepsLedger(acct.State(), bar, risk);
      if bar.signal == Buy || bar.signal == Sell {
        CloseOnBarKeepsLedger(acct.State(), bar);
        ClosePositions(acct, bar);
        acct.OpenPosition(bar, risk);
      }
    }
    assert bars[..|bars|] == bars;
  }

  /** The bars of the single-instrument runs: each carries its symbol and every
      bar the rule marks has a usable close. */
  predicate Feed(sym: Symbol, raw: seq<Bar>) {
    && (forall i :: 0 <= i < |raw| ==> raw[i].symbol == sym)
    && Priceable(SearchEntryPoints(raw))
  }

  /** A single-instrument run: signals, the replay from the initial balance,
      and the final liquidation when there are bars. */
  function PairRun(start: Book, initial: real, sym: Symbol, raw: seq<Bar>, risk: real): Book
    requires Feed(sym, raw)
  {
    var bars := SearchEntryPoints(raw);
    var r := BonaRun(start.(balance := initial), bars, risk);
    if raw == [] then r else CloseAll(r, map[sym := bars])
  }

  /** A run that starts without positions ends without positions when it has
      bars, and its capital is the initial balance: the total return is the
      realized profit over the initial balance. */
  lemma PairRunSettles(initial: real, sym: Symbol, raw: seq<Bar>, risk: real)
    requires initial != 0.0 && Feed(sym, raw) && raw != []
    ensures var r := PairRun(EmptyBook(initial), initial, sym, raw, risk);
      && Valid(r) && r.positions == map[] && Capital(r) == initial
      && CalculateMetrics(initial, r.balance, r.history).totalReturn == Realized(r.history) / initial * 100.0
  {
    var bars := SearchEntryPoints(raw);
    var b := EmptyBook(initial);
    assert b.(balance := initial) == b;
    var mid := BonaRun(b, bars, risk);
    BonaRunKeepsLedger(b, bars, risk);
    BonaRunStaysOnSymbol(b, bars, risk, sym);
    CloseAllKeepsLedger(mid, map[sym := bars]);
    CloseAllRemovesExactly(mid, map[sym := bars]);
    SettledReturn(initial, CloseAll(mid, map[sym := bars]));
  }

  /** The metrics of one single-instrument run started from the initial balance
      with no positions and no history. */
  function PairReport(initial: real, sym: Symbol, raw: seq<Bar>, risk: real): Report
    requires initial != 0.0 && Feed(sym, raw)
  {
    var r := PairRun(EmptyBook(initial), initial, sym, raw, risk);
    CalculateMetrics(initial, r.balance, r.history)
  }

  /** The single-instrument run of a whole pair on the account. */
  method RunPair(acct: Account, initial: real, sym: Symbol, raw: seq<Bar>, risk: real)
    requires acct.Valid() && Feed(sym, raw)
    modifies acct
    ensures acct.State() == PairRun(old(acct.State()), initial, sym, raw, risk)
  {
    var bars := SearchEntryPoints(raw);
    acct.balance := initial;
    ReplayBona(acct, bars, risk);
    if |bars| > 0 {
      BonaRunKeepsLedger(old(acct.State()).(balance := initial), bars, risk);
      acct.CloseAllPositions(map[sym := bars]);
    }
  }

  /** `test_on_btc`: nothing happens without bars; otherwise the account ends as
      the run over the BTCUSDC bars leaves it, and the metrics describe it. */
  method TestOnBtc(acct: Account, initial: real, raw: seq<Bar>, risk: real) returns (m: Option<Report>)
    requires acct.Valid() && initial != 0.0 && Feed(Btc, raw)
    modifies acct
    ensures raw == [] ==> m == None && acct.State() == old(acct.State())
    ensures raw != [] ==> acct.State() == PairRun(old(acct.State()), initial, Btc, raw, risk)
                          && m == Some(CalculateMetrics(initial, acct.balance, acct.history))
  {
    if |raw| == 0 {
      return None;
    }
    RunPair(acct, initial, Btc, raw, risk);
    m := Some(CalculateMetrics(initial, acct.balance, acct.history));
  }

  /** One pass of the per-symbol loop of `test_on_all_pairs_independently`: a
      fresh account, the run of the pair, then the metrics of the result. */
  method TestPair(initial: real, sym: Symbol, bars: seq<Bar>, risk: real) returns (report: Report)
    requires initial != 0.0 && Feed(sym, bars)
    ensures report == PairReport(initial, sym, bars, risk)
  {
    var acct := new Account(initial);
    RunPair(acct, initial, sym, bars, risk);
    assert acct.State() == PairRun(EmptyBook(initial), initial, sym, bars, risk);
    report := CalculateMetrics(initial, acct.balance, acct.history);
  }

  /** The report of each symbol, as a function of the symbol. */
  function ReportOf(initial: real, raw: map<Symbol, seq<Bar>>, risk: real): Symbol --> Report {
    s requires initial != 0.0 && s in raw && Feed(s, raw[s]) => PairReport(initial, s, raw[s], risk)
  }

  /** The reports of the independent test, one per symbol in order. */
  function PairReports(initial: real, raw: map<Symbol, seq<Bar>>, symbols: seq<Symbol>, risk: real): (rs: seq<Report>)
    requires initial != 0.0
    requires forall s :: s in symbols ==> s in raw && Feed(s, raw[s])
    ensures |rs| == |symbols|
  {
    MapSeq(ReportOf(initial, raw, risk), symbols)
  }

  /** Report `k` is the metrics of symbol `k`'s own run from the initial
      balance, so it depends on that symbol's bars alone. */
  lemma PairReportsAt(initial: real, raw: map<Symbol, seq<Bar>>, symbols: seq<Symbol>, risk: real, k: nat)
    requires initial != 0.0
    requires forall s :: s in symbols ==> s in raw && Feed(s, raw[s])
    requires k < |symbols|
    ensures PairReports(initial, raw, symbols, risk)[k] == PairReport(initial, symbols[k], raw[symbols[k]], risk)
  {
    var f := ReportOf(initial, raw, risk);
    assert PairReports(initial, raw, symbols, risk)[k] == f(symbols[k]);
  }

  /** `test_on_all_pairs_independently`: every symbol is replayed from the
      initial balance with no positions and no history, so each report depends
      on that symbol's bars alone. */
  method TestOnAllPairsIndependently(initial: real, raw: map<Symbol, seq<Bar>>, symbols: seq<Symbol>, risk: real)
    returns (reports: seq<Report>)
    requires initial != 0.0
    requires forall s :: s in symbols ==> s in raw && Feed(s, raw[s])
    ensures reports == PairReports(initial, raw, symbols, risk)
  {
    reports := [];
    for k := 0 to |symbols|
      invariant reports == PairReports(initial, raw, symbols[..k], risk)
    {
      var report := TestPair(initial, symbols[k], raw[symbols[k]], risk);
      MapSeqSnoc(ReportOf(initial, raw, risk), symbols, k);
      assert report == ReportOf(initial, raw, risk)(symbols[k]);
      reports := reports + [report];
    }
    assert symbols[..|symbols|] == symbols;
  }

  /** The exit phase of `test_ananke` at timestamp `t`: every symbol of the
      snapshot `ks` with a bar at `t` is closed at that bar. */
  function ExitPhase(b: Book, ks: seq<Symbol>, dfs: map<Symbol, seq<Bar>>, t: int): (r: Book)
    requires Loaded(dfs)
    ensures forall s :: s !in ks || Quote(dfs, s, t).None? ==> SameAt(b, r, s)
    ensures forall s :: s in ks && Quote(dfs, s, t).Some? ==> s !in r.positions
    ensures forall s :: s in r.positions ==> s in b.positions
  {
    if ks == [] then b
    else
      var p := ExitPhase(b, ks[..|ks| - 1], dfs, t);
      var q := Quote(dfs, ks[|ks| - 1], t);
      assert forall s :: s in ks[..|ks| - 1] ==> s in ks;
      if q.Some? then (assert q.value.symbol == ks[|ks| - 1]; CloseOnBar(p, q.value)) else p
  }

  lemma {:induction false} ExitPhaseKeepsLedger(b: Book, ks: seq<Symbol>, dfs: map<Symbol, seq<Bar>>, t: int)
    requires Loaded(dfs) && Valid(b)
    ensures Valid(ExitPhase(b, ks, dfs, t)) && Capital(ExitPhase(b, ks, dfs, t)) == Capital(b)
  {
    if ks != [] {
      ExitPhaseKeepsLedger(b, ks[..|ks| - 1], dfs, t);
      var q := Quote(dfs, ks[|ks| - 1], t);
      if q.Some? {
        CloseOnBarKeepsLedger(ExitPhase(b, ks[..|ks| - 1], dfs, t), q.value);
      }
    }
  }

  /** One timestamp of `test_ananke`: exits over the dictionary's keys, then
      entries in the exchange's symbol order. */
  function PortfolioTick(b: Book, dfs: map<Symbol, seq<Bar>>, syms: seq<Symbol>, t: int, risk: real): Book
    requires Loaded(dfs)
  {
    EnterAll(ExitPhase(b, b.order, dfs, t), dfs, syms, t, risk)
  }

  /** After a timestamp every position is either one held before whose
      symbol has no bar at that time, untouched, or one opened at that
      timestamp from the symbol's bar: every held symbol with a bar was closed
      before entries were tried, and may have been reopened. Symbols without a
      bar at `t` are untouched. */
  lemma PortfolioTickPositions(b: Book, dfs: map<Symbol, seq<Bar>>, syms: seq<Symbol>, t: int, risk: real)
    requires Loaded(dfs) && Valid(b)
    ensures var r := PortfolioTick(b, dfs, syms, t, risk);
      && (forall s :: Quote(dfs, s, t).None? ==> SameAt(b, r, s))
      && forall s :: s in r.positions ==>
           || (Quote(dfs, s, t).None? && s in b.positions && r.positions[s] == b.positions[s])
           || (s in syms && Quote(dfs, s, t).Some? && FreshAt(r.positions[s], Quote(dfs, s, t).value))
  {
  }

  /** The converse: a symbol of the exchange's list with a signal bar at `t`
      that is not held after the timestamp was skipped by the minimum-trade
      check, whether or not it was held before, so the balance left cannot
      afford the minimum trade. */
  lemma PortfolioTickOpensSignals(b: Book, dfs: map<Symbol, seq<Bar>>, syms: seq<Symbol>, t: int, risk: real, s: Symbol)
    requires Loaded(dfs) && Valid(b) && risk >= 0.0
    requires s in syms && Quote(dfs, s, t).Some? && Quote(dfs, s, t).value.signal != NoSignal
    requires s !in PortfolioTick(b, dfs, syms, t, risk).positions
    ensures risk * PortfolioTick(b, dfs, syms, t, risk).balance < MinTradeSize
  {
    var x := ExitPhase(b, b.order, dfs, t);
    assert s !in x.positions by {
      if s !in b.order {
        assert s !in b.positions;
      }
    }
    EnterAllOpensSignals(x, dfs, syms, t, risk, s);
  }

  lemma PortfolioTickKeepsLedger(b: Book, dfs: map<Symbol, seq<Bar>>, syms: seq<Symbol>, t: int, risk: real)
    requires Loaded(dfs) && Valid(b)
    ensures Valid(PortfolioTick(b, dfs, syms, t, risk)) && Capital(PortfolioTick(b, dfs, syms, t, risk)) == Capital(b)
  {
    ExitPhaseKeepsLedger(b, b.order, dfs, t);
    EnterAllKeepsLedger(ExitPhase(b, b.order, dfs, t), dfs, syms, t, risk);
  }

  /** The main loop of `test_ananke` over the timeline. */
  function PortfolioRun(b: Book, dfs: map<Symbol, seq<Bar>>, syms: seq<Symbol>, timeline: seq<int>, risk: real): Book
    requires Loaded(dfs)
  {
    if timeline == [] then b
    else PortfolioTick(PortfolioRun(b, dfs, syms, timeline[..|timeline| - 1], risk), dfs, syms, timeline[|timeline| - 1], risk)
  }

  /** The portfolio replay keeps the ledger invariant, so at most one position
      per symbol at every timestamp, and the capital. */
  lemma {:induction false} PortfolioRunKeepsLedger(b: Book, dfs: map<Symbol, seq<Bar>>, syms: seq<Symbol>, timeline: seq<int>, risk: real)
    requires Loaded(dfs) && Valid(b)
    ensures Valid(PortfolioRun(b, dfs, syms, timeline, risk))
    ensures Capital(PortfolioRun(b, dfs, syms, timeline, risk)) == Capital(b)
  {
    if timeline != [] {
      var p := timeline[..|timeline| - 1];
      PortfolioRunKeepsLedger(b, dfs, syms, p, risk);
      PortfolioTickKeepsLedger(PortfolioRun(b, dfs, syms, p, risk), dfs, syms, timeline[|timeline| - 1], risk);
    }
  }

  /** Only symbols with bars are ever held. */
  lemma {:induction false} PortfolioRunHoldsData(b: Book, dfs: map<Symbol, seq<Bar>>, syms: seq<Symbol>, timeline: seq<int>, risk: real)
    requires Loaded(dfs) && forall s :: s in b.positions ==> HasData(dfs, s)
    ensures forall s :: s in PortfolioRun(b, dfs, syms, timeline, risk).positions ==> HasData(dfs, s)
  {
    if timeline != [] {
      PortfolioRunHoldsData(b, dfs, syms, timeline[..|timeline| - 1], risk);
    }
  }

  /** The portfolio run from an empty book ends, after the final liquidation,
      with no positions and its initial capital, so the total return is the
      realized profit over the initial balance. */
  lemma PortfolioSettles(initial: real, dfs: map<Symbol, seq<Bar>>, syms: seq<Symbol>, timeline: seq<int>, risk: real)
    requires initial != 0.0 && Loaded(dfs)
    ensures var r := CloseAll(PortfolioRun(EmptyBook(initial), dfs, syms, timeline, risk), dfs);
      && Valid(r) && r.positions == map[] && Capital(r) == initial
      && CalculateMetrics(initial, r.balance, r.history).totalReturn == Realized(r.history) / initial * 100.0
  {
    var mid := PortfolioRun(EmptyBook(initial), dfs, syms, timeline, risk);
    PortfolioRunKeepsLedger(EmptyBook(initial), dfs, syms, timeline, risk);
    PortfolioRunHoldsData(EmptyBook(initial), dfs, syms, timeline, risk);
    CloseAllKeepsLedger(mid, dfs);
    CloseAllRemovesExactly(mid, dfs);
    SettledReturn(initial, CloseAll(mid, dfs));
  }

  /** One timestamp of `test_ananke` on the account. */
  method PortfolioStep(acct: Account, dfs: map<Symbol, seq<Bar>>, syms: seq<Symbol>, t: int, risk: real)
    requires Loaded(dfs) && acct.Valid()
    modifies acct
    ensures acct.State() == PortfolioTick(old(acct.State()), dfs, syms, t, risk)
  {
    var snapshot := acct.order;
    for i := 0 to |snapshot|
      invariant acct.State() == ExitPhase(old(acct.State()), snapshot[..i], dfs, t)
      invariant acct.Valid()
    {
      var q := Quote(dfs, snapshot[i], t);
      assert snapshot[..i + 1][..i] == snapshot[..i];
      if q.Some? {
        CloseOnBarKeepsLedger(acct.State(), q.value);
        ClosePositions(acct, q.value);
      }
    }
    assert snapshot[..|snapshot|] == snapshot;
    EnterPhase(acct, dfs, syms, t, risk);
  }

  /** The main loop of `test_ananke`: one portfolio step per timestamp. */
  method ReplayPortfolio(acct: Account, dfs: map<Symbol, seq<Bar>>, syms: seq<Symbol>, timeline: seq<int>, risk: real)
    requires Loaded(dfs) && acct.Valid()
    modifies acct
    ensures acct.Valid()
    ensures acct.State() == PortfolioRun(old(acct.State()), dfs, syms, timeline, risk)
  {
    for k := 0 to |timeline|
      invariant acct.Valid()
      invariant acct.State() == PortfolioRun(old(acct.State()), dfs, syms, timeline[..k], risk)
    {
      assert timeline[..k + 1][..k] == timeline[..k];
      PortfolioTickKeepsLedger(acct.State(), dfs, syms, timeline[k], risk);
      PortfolioStep(acct, dfs, syms, timeline[k], risk);
    }
    assert timeline[..|timeline|] == timeline;
  }

  /** Every symbol's bars with the rule's signals. */
  function SignalAll(raw: map<Symbol, seq<Bar>>): (dfs: map<Symbol, seq<Bar>>)
    ensures dfs.Keys == raw.Keys
    ensures forall s :: s in raw ==> |dfs[s]| == |raw[s]| && forall i :: 0 <= i < |raw[s]| ==> dfs[s][i].time == raw[s][i].time
  {
    map s | s in raw :: SearchEntryPoints(raw[s])
  }

  /** The loading step of `test_ananke`: the signalled data and the unified
      timeline built from it, which holds exactly the loaded timestamps. */
  method SignalTimeline(raw: map<Symbol, seq<Bar>>, symbols: seq<Symbol>) returns (dfs: map<Symbol, seq<Bar>>, timeline: seq<int>)
    requires NoDup(symbols) && forall s :: s in raw <==> s in symbols
    ensures dfs == SignalAll(raw)
    ensures Increasing(timeline)
    ensures forall t :: t in timeline <==> exists s, i :: s in raw && 0 <= i < |raw[s]| && raw[s][i].time == t
  {
    dfs := SignalAll(raw);
    timeline := CreateUnifiedTimeline(dfs, symbols);
  }

  /** `test_ananke`: signals for every symbol, the unified timeline, the
      replay over it, the final liquidation over all symbols, and the metrics. */
  method TestAnanke(acct: Account, initial: real, raw: map<Symbol, seq<Bar>>, symbols: seq<Symbol>,
                    binanceSymbols: seq<Symbol>, risk: real)
    returns (timeline: seq<int>, m: Report)
    requires acct.Valid() && initial != 0.0
    requires NoDup(symbols) && forall s :: s in raw <==> s in symbols
    requires Loaded(SignalAll(raw))
    modifies acct
    ensures Increasing(timeline)
    ensures forall t :: t in timeline <==> exists s, i :: s in raw && 0 <= i < |raw[s]| && raw[s][i].time == t
    ensures acct.State() == CloseAll(PortfolioRun(old(acct.State()).(balance := initial), SignalAll(raw),
                                                   binanceSymbols, timeline, risk), SignalAll(raw))
    ensures m == CalculateMetrics(initial, acct.balance, acct.history)
  {
    var dfs;
    dfs, timeline := SignalTimeline(raw, symbols);
    acct.balance := initial;
    ReplayPortfolio(acct, dfs, binanceSymbols, timeline, risk);
    acct.CloseAllPositions(dfs);
    m := CalculateMetrics(initial, acct.balance, acct.history);
  }
}
