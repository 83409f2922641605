/** The MACD-crossover and RSI-band strategy of backtest_ananke.py and its
    replays, which open before they run the exit chain of `manage_positions`. */
module Ananke {
  import opened Domain
  import opened ExitPolicy
  import opened Ledger
  import opened Portfolio
  import opened Timeline
  import opened Metrics

  const Btc: Symbol := "BTCUSDC"
  const Oversold: real := 30.0
  const Overbought: real := 70.0

  /** The indicator columns of one symbol, as computed elsewhere: RSI(14), the
      MACD line and its signal line, missing while they warm up. */
  datatype Indicators = Indicators(rsi: seq<Option<real>>, macd: seq<Option<real>>, line: seq<Option<real>>)

  /** One indicator value per bar. */
  predicate Fits(bars: seq<Bar>, ind: Indicators) {
    |ind.rsi| == |bars| && |ind.macd| == |bars| && |ind.line| == |bars|
  }

  /** `macd_line > signal_line`, false where either value is missing. */
  predicate Above(ind: Indicators, i: nat)
    requires i < |ind.macd| && i < |ind.line|
  {
    ind.macd[i].Some? && ind.line[i].Some? && ind.macd[i].value > ind.line[i].value
  }

  /** The MACD line crosses above its signal line at bar `i`. */
  predicate CrossUp(ind: Indicators, i: nat)
    requires i < |ind.macd| && i < |ind.line|
  {
    i >= 1 && Above(ind, i) && !Above(ind, i - 1)
  }

  /** The MACD line crosses below its signal line at bar `i`. */
  predicate CrossDown(ind: Indicators, i: nat)
    requires i < |ind.macd| && i < |ind.line|
  {
    i >= 1 && !Above(ind, i) && Above(ind, i - 1)
  }

  /** All three indicators have a value at bar `i`, and there is a bar before it. */
  predicate Warm(ind: Indicators, i: nat)
    requires i < |ind.rsi| && i < |ind.macd| && i < |ind.line|
  {
    i >= 1 && ind.rsi[i].Some? && ind.macd[i].Some? && ind.line[i].Some?
  }

  /** The signal of bar `i`: BUY on an upward cross while RSI is below 30, SELL
      on a downward cross while RSI is above 70, otherwise the bar keeps the
      signal it had. */
  function SignalAt(bars: seq<Bar>, ind: Indicators, i: nat): Signal
    requires Fits(bars, ind) && i < |bars|
  {
    if !Warm(ind, i) then bars[i].signal
    else if ind.rsi[i].value < Oversold && CrossUp(ind, i) then Buy
    else if ind.rsi[i].value > Overbought && CrossDown(ind, i) then Sell
    else bars[i].signal
  }

  function Signalled(bars: seq<Bar>, ind: Indicators): (r: seq<Bar>)
    requires Fits(bars, ind)
    ensures |r| == |bars|
  {
    seq(|bars|, i requires 0 <= i < |bars| => bars[i].(signal := SignalAt(bars, ind, i)))
  }

  /** The crossings exclude each other and neither happens at the first bar. */
  lemma CrossingsExclusive(ind: Indicators, i: nat)
    requires i < |ind.macd| && i < |ind.line|
    ensures !(CrossUp(ind, i) && CrossDown(ind, i))
    ensures i == 0 ==> !CrossUp(ind, i) && !CrossDown(ind, i)
  {
  }

  /** On bars without a signal of their own a BUY is exactly a warmed-up upward
      cross with RSI below 30, a SELL exactly a warmed-up downward cross with
      RSI above 70; the two never meet. */
  lemma SignalRule(bars: seq<Bar>, ind: Indicators, i: nat)
    requires Fits(bars, ind) && i < |bars| && bars[i].signal == NoSignal
    ensures SignalAt(bars, ind, i) == Buy <==> Warm(ind, i) && ind.rsi[i].value < Oversold && CrossUp(ind, i)
    ensures SignalAt(bars, ind, i) == Sell <==> Warm(ind, i) && ind.rsi[i].value > Overbought && CrossDown(ind, i)
    ensures SignalAt(bars, ind, i) == NoSignal <==>
      !(Warm(ind, i) && ((ind.rsi[i].value < Oversold && CrossUp(ind, i)) || (ind.rsi[i].value > Overbought && CrossDown(ind, i))))
  {
  }

  /** `search_entry_point`: the crossing arrays filled by an index loop, then the
      signal loop that skips bars whose indicators are not warm. */
  method SearchEntryPoint(bars: seq<Bar>, ind: Indicators) returns (r: seq<Bar>)
    requires Fits(bars, ind)
    ensures r == Signalled(bars, ind)
  {
    var n := |bars|;
    var above := seq(n, i requires 0 <= i < n => Above(ind, i));
    var crossUp := new bool[n](_ => false);
    var crossDown := new bool[n](_ => false);
    var i := 1;
    while i < n
      invariant 1 <= i && (i <= n || n == 0)
      invariant forall j :: 0 <= j < n ==> crossUp[j] == (j < i && CrossUp(ind, j))
      invariant forall j :: 0 <= j < n ==> crossDown[j] == (j < i && CrossDown(ind, j))
    {
      crossUp[i] := above[i] && !above[i - 1];
      crossDown[i] := !above[i] && above[i - 1];
      i := i + 1;
    }
    r := bars;
    for i := 0 to n
      invariant |r| == n
      invariant forall j :: 0 <= j < i ==> r[j] == bars[j].(signal := SignalAt(bars, ind, j))
      invariant forall j :: i <= j < n ==> r[j] == bars[j]
    {
      if ind.rsi[i].None? || ind.macd[i].None? || ind.line[i].None? || i < 1 {
        continue;
      }
      if ind.rsi[i].value < Oversold && crossUp[i] {
        r := r[i := r[i].(signal := Buy)];
      } else if ind.rsi[i].value > Overbought && crossDown[i] {
        r := r[i := r[i].(signal := Sell)];
      } else if r[i].signal == NoSignal {
        r := r[i := r[i].(signal := NoSignal)];
      }
    }
  }

  /** One bar of the single-instrument replay: a BUY or SELL bar first tries to
      open, then runs the exit chain; other bars change nothing. */
  function AnankeStep(b: Book, bar: Bar, risk: real): (r: Book)
    requires Valid(b) && (bar.signal != NoSignal ==> bar.close != 0.0)
    ensures Valid(r) && Capital(r) == Capital(b)
  {
    if bar.signal != NoSignal then
      OpenKeepsLedger(b, bar, risk);
      var o := Open(b, bar, risk);
      ManageKeepsLedger(o, bar);
      Manage(o, bar)
    else b
  }

  /** A bar without a signal changes nothing, and a bar changes no other symbol. */
  lemma AnankeStepLocal(b: Book, bar: Bar, risk: real)
    requires Valid(b) && (bar.signal != NoSignal ==> bar.close != 0.0)
    ensures bar.signal == NoSignal ==> AnankeStep(b, bar, risk) == b
    ensures forall s :: s != bar.symbol ==> SameAt(b, AnankeStep(b, bar, risk), s)
  {
  }

  /** On a reversal bar the open does nothing, since the symbol is held, and
      the opposite-signal rule then closes the position. */
  lemma ReversalCloses(b: Book, bar: Bar, risk: real)
    requires Valid(b) && bar.signal != NoSignal && bar.close != 0.0
    requires bar.symbol in b.positions && bar.signal != EntrySignal(b.positions[bar.symbol].side)
    ensures AnankeStep(b, bar, risk) == CloseAt(b, bar.symbol, bar.close, bar.time, Some(OppositeSignal))
    ensures bar.symbol !in AnankeStep(b, bar, risk).positions
  {
    ExitPriority(b.positions[bar.symbol], bar.close, bar.time, bar.signal);
  }

  /** A fresh entry at a positive price survives its own bar, with its extreme
      set to the entry price. */
  lemma FreshEntrySurvives(b: Book, bar: Bar, risk: real)
    requires Valid(b) && bar.signal != NoSignal && bar.close > 0.0
    requires bar.symbol !in b.positions && risk * b.balance >= MinTradeSize
    ensures var r := AnankeStep(b, bar, risk);
      && bar.symbol in r.positions
      && r.positions[bar.symbol] == Position(SideFor(bar.signal), risk * b.balance, risk * b.balance / bar.close,
                                             bar.close, bar.time, Some(bar.close))
  {
    var o := Open(b, bar, risk);
    var pos := o.positions[bar.symbol];
    assert pos == Position(SideFor(bar.signal), risk * b.balance, risk * b.balance / bar.close, bar.close, bar.time, None);
    NoExitOnEntryBar(pos, bar.close, bar.time, bar.signal);
    OpenKeepsLedger(b, bar, risk);
    ManageKeeps(o, bar);
    assert AnankeStep(b, bar, risk) == Manage(o, bar);
  }

  /** A held position on the signal's side survives the bar exactly when no
      exit rule holds for it. */
  lemma SameSideSurvivesUnlessExit(b: Book, bar: Bar, risk: real)
    requires Valid(b) && bar.signal != NoSignal && bar.close != 0.0
    requires bar.symbol in b.positions && bar.signal == EntrySignal(b.positions[bar.symbol].side)
    ensures bar.symbol in AnankeStep(b, bar, risk).positions
            <==> ExitDecision(b.positions[bar.symbol], bar.close, bar.time, bar.signal).reason.None?
  {
  }

  /** The loop of `test_on_btc` and of each run of `test_on_all_pairs_independently`. */
  function AnankeRun(b: Book, bars: seq<Bar>, risk: real): (r: Book)
    requires Valid(b) && Priceable(bars)
    ensures Valid(r) && Capital(r) == Capital(b)
  {
    if bars == [] then b
    else AnankeStep(AnankeRun(b, bars[..|bars| - 1], risk), bars[|bars| - 1], risk)
  }

  /** Positions are only looked at on bars with a signal: bars without one
      leave the book as it is. */
  lemma {:induction false} QuietBarsChangeNothing(b: Book, bars: seq<Bar>, risk: real)
    requires Valid(b) && forall i :: 0 <= i < |bars| ==> bars[i].signal == NoSignal
    ensures AnankeRun(b, bars, risk) == b
  {
    if bars != [] {
      QuietBarsChangeNothing(b, bars[..|bars| - 1], risk);
    }
  }

  /** A run over bars of one symbol never holds any other symbol. */
  lemma {:induction false} AnankeRunStaysOnSymbol(b: Book, bars: seq<Bar>, risk: real, sym: Symbol)
    requires Valid(b) && Priceable(bars) && forall i :: 0 <= i < |bars| ==> bars[i].symbol == sym
    requires forall s :: s in b.positions ==> s == sym
    ensures forall s :: s in AnankeRun(b, bars, risk).positions ==> s == sym
  {
    if bars != [] {
      AnankeRunStaysOnSymbol(b, bars[..|bars| - 1], risk, sym);
      AnankeStepLocal(AnankeRun(b, bars[..|bars| - 1], risk), bars[|bars| - 1], risk);
    }
  }

  /** The replay loop on the account: open, then manage, on every signal bar. */
  method ReplayAnanke(acct: Account, bars: seq<Bar>, risk: real)
    requires acct.Valid() && Priceable(bars)
    modifies acct
    ensures acct.State() == AnankeRun(old(acct.State()), bars, risk)
  {
    for i := 0 to |bars|
      invariant acct.Valid()
      invariant acct.State() == AnankeRun(old(acct.State()), bars[..i], risk)
    {
      var bar := bars[i];
      assert bars[..i + 1][..i] == bars[..i];
      if bar.signal == Buy || bar.signal == Sell {
        OpenKeepsLedger(acct.State(), bar, risk);
        acct.OpenPosition(bar, risk);
        ManageKeepsLedger(acct.State(), bar);
        acct.ManagePositions(bar);
      }
    }
    assert bars[..|bars|] == bars;
  }

  /** The loaded bars with the blank signal column the rule starts from. */
  function Blank(raw: seq<Bar>): seq<Bar> {
    seq(|raw|, i requires 0 <= i < |raw| => raw[i].(signal := NoSignal))
  }

  /** The rule's signals over freshly loaded bars. */
  function Marked(raw: seq<Bar>, ind: Indicators): (r: seq<Bar>)
    requires Fits(raw, ind)
    ensures |r| == |raw|
    ensures forall i :: 0 <= i < |raw| ==> r[i] == raw[i].(signal := r[i].signal)
  {
    Signalled(Blank(raw), ind)
  }

  /** The bars of a single-instrument run: each carries its symbol, the
      indicators line up with them, and every bar the rule marks has a usable
      close. */
  predicate Feed(sym: Symbol, raw: seq<Bar>, ind: Indicators) {
    && (forall i :: 0 <= i < |raw| ==> raw[i].symbol == sym)
    && Fits(raw, ind)
    && Priceable(Marked(raw, ind))
  }

  /** A single-instrument run: signals, the replay from the initial balance, and
      the final liquidation when there are bars. */
  function PairRun(start: Book, initial: real, sym: Symbol, raw: seq<Bar>, ind: Indicators, risk: real): Book
    requires Valid(start) && Feed(sym, raw, ind)
  {
    var bars := Marked(raw, ind);
    var r := AnankeRun(start.(balance := initial), bars, risk);
    if raw == [] then r else CloseAll(r, map[sym := bars])
  }

  /** A run that starts without positions ends without positions when it has
      bars, with its capital equal to the initial balance. */
  lemma PairRunSettles(initial: real, sym: Symbol, raw: seq<Bar>, ind: Indicators, risk: real)
    requires initial != 0.0 && Feed(sym, raw, ind) && raw != []
    ensures var r := PairRun(EmptyBook(initial), initial, sym, raw, ind, risk);
      && Valid(r) && r.positions == map[] && Capital(r) == initial
      && CalculateMetrics(initial, r.balance, r.history).totalReturn == Realized(r.history) / initial * 100.0
  {
    var bars := Marked(raw, ind);
    var b := EmptyBook(initial);
    assert b.(balance := initial) == b;
    var mid := AnankeRun(b, bars, risk);
    AnankeRunStaysOnSymbol(b, bars, risk, sym);
    CloseAllKeepsLedger(mid, map[sym := bars]);
    CloseAllRemovesExactly(mid, map[sym := bars]);
    SettledReturn(initial, CloseAll(mid, map[sym := bars]));
  }

  function PairReport(initial: real, sym: Symbol, raw: seq<Bar>, ind: Indicators, risk: real): Report
    requires initial != 0.0 && Feed(sym, raw, ind)
  {
    var r := PairRun(EmptyBook(initial), initial, sym, raw, ind, risk);
    CalculateMetrics(initial, r.balance, r.history)
  }

  /** The single-instrument run of a whole pair on the account. */
  method RunPair(acct: Account, initial: real, sym: Symbol, raw: seq<Bar>, ind: Indicators, risk: real)
    requires acct.Valid() && Feed(sym, raw, ind)
    modifies acct
    ensures acct.State() == PairRun(old(acct.State()), initial, sym, raw, ind, risk)
  {
    var bars := SearchEntryPoint(Blank(raw), ind);
    assert bars == Marked(raw, ind);
    acct.balance := initial;
    ReplayAnanke(acct, bars, risk);
    if |bars| > 0 {
      acct.CloseAllPositions(map[sym := bars]);
    }
  }

  /** `test_on_btc`: nothing happens without bars; otherwise the account ends as
      the run over the BTCUSDC bars leaves it, and the metrics describe it. */
  method TestOnBtc(acct: Account, initial: real, raw: seq<Bar>, ind: Indicators, risk: real) returns (m: Option<Report>)
    requires acct.Valid() && initial != 0.0 && Feed(Btc, raw, ind)
    modifies acct
    ensures raw == [] ==> m == None && acct.State() == old(acct.State())
    ensures raw != [] ==> acct.State() == PairRun(old(acct.State()), initial, Btc, raw, ind, risk)
                          && m == Some(CalculateMetrics(initial, acct.balance, acct.history))
  {
    if |raw| == 0 {
      return None;
    }
    RunPair(acct, initial, Btc, raw, ind, risk);
    m := Some(CalculateMetrics(initial, acct.balance, acct.history));
  }

  /** One symbol of `test_on_all_pairs_independently`: a fresh account from
      the initial balance, the pair's run, and its metrics. */
  method TestPair(initial: real, sym: Symbol, raw: seq<Bar>, ind: Indicators, risk: real) returns (report: Report)
    requires initial != 0.0 && Feed(sym, raw, ind)
    ensures report == PairReport(initial, sym, raw, ind, risk)
  {
    var acct := new Account(initial);
    RunPair(acct, initial, sym, raw, ind, risk);
    assert acct.State() == PairRun(EmptyBook(initial), initial, sym, raw, ind, risk);
    report := CalculateMetrics(initial, acct.balance, acct.history);
  }

  /** The report of each symbol, as a function of the symbol. */
  function ReportOf(initial: real, raw: map<Symbol, seq<Bar>>, ind: map<Symbol, Indicators>, risk: real): Symbol --> Report {
    s requires initial != 0.0 && s in raw && s in ind && Feed(s, raw[s], ind[s]) => PairReport(initial, s, raw[s], ind[s], risk)
  }

  /** The reports of the independent test, one per symbol in order. */
  function PairReports(initial: real, raw: map<Symbol, seq<Bar>>, ind: map<Symbol, Indicators>,
                       symbols: seq<Symbol>, risk: real): (rs: seq<Report>)
    requires initial != 0.0
    requires forall s :: s in symbols ==> s in raw && s in ind && Feed(s, raw[s], ind[s])
    ensures |rs| == |symbols|
  {
    MapSeq(ReportOf(initial, raw, ind, risk), symbols)
  }

  /** Report `k` is the metrics of symbol `k`'s own run from the initial
      balance, so it depends on that symbol's bars and indicators alone. */
  lemma PairReportsAt(initial: real, raw: map<Symbol, seq<Bar>>, ind: map<Symbol, Indicators>,
                      symbols: seq<Symbol>, risk: real, k: nat)
    requires initial != 0.0
    requires forall s :: s in symbols ==> s in raw && s in ind && Feed(s, raw[s], ind[s])
    requires k < |symbols|
    ensures PairReports(initial, raw, ind, symbols, risk)[k]
            == PairReport(initial, symbols[k], raw[symbols[k]], ind[symbols[k]], risk)
  {
    var f := ReportOf(initial, raw, ind, risk);
    assert PairReports(initial, raw, ind, symbols, risk)[k] == f(symbols[k]);
  }

  /** `test_on_all_pairs_independently`: every symbol is replayed from the
      initial balance with no positions and no history, so each report depends
      on that symbol's bars and indicators alone. */
  method TestOnAllPairsIndependently(initial: real, raw: map<Symbol, seq<Bar>>, ind: map<Symbol, Indicators>,
                                     symbols: seq<Symbol>, risk: real)
    returns (reports: seq<Report>)
    requires initial != 0.0
    requires forall s :: s in symbols ==> s in raw && s in ind && Feed(s, raw[s], ind[s])
    ensures reports == PairReports(initial, raw, ind, symbols, risk)
  {
    reports := [];
    for k := 0 to |symbols|
      invariant reports == PairReports(initial, raw, ind, symbols[..k], risk)
    {
      var report := TestPair(initial, symbols[k], raw[symbols[k]], ind[symbols[k]], risk);
      MapSeqSnoc(ReportOf(initial, raw, ind, risk), symbols, k);
      assert report == ReportOf(initial, raw, ind, risk)(symbols[k]);
      reports := reports + [report];
    }
    assert symbols[..|symbols|] == symbols;
  }

  /** The exit phase of `test_ananke` at timestamp `t`: `manage_positions` for
      every symbol of the snapshot `ks` with a bar at `t`. */
  function ManagePhase(b: Book, ks: seq<Symbol>, dfs: map<Symbol, seq<Bar>>, t: int): (r: Book)
    requires Loaded(dfs) && Valid(b)
    ensures Valid(r) && Capital(r) == Capital(b)
    ensures forall s :: s !in ks || Quote(dfs, s, t).None? ==> SameAt(b, r, s)
    ensures forall s :: s in r.positions ==> s in b.positions
  {
    if ks == [] then b
    else
      var p := ManagePhase(b, ks[..|ks| - 1], dfs, t);
      var q := Quote(dfs, ks[|ks| - 1], t);
      assert forall s :: s in ks[..|ks| - 1] ==> s in ks;
      if q.Some? then
        assert q.value.symbol == ks[|ks| - 1];
        ManageKeepsLedger(p, q.value);
        Manage(p, q.value)
      else p
  }

  /** The exit phase over one more key of the snapshot. */
  lemma ManagePhaseStep(b: Book, ks: seq<Symbol>, dfs: map<Symbol, seq<Bar>>, t: int, i: int)
    requires Loaded(dfs) && Valid(b) && 0 <= i < |ks|
    ensures var p := ManagePhase(b, ks[..i], dfs, t);
      var q := Quote(dfs, ks[i], t);
      ManagePhase(b, ks[..i + 1], dfs, t) == if q.Some? then Manage(p, q.value) else p
  {
    assert ks[..i + 1][..i] == ks[..i];
  }

  /** `manage_positions` decides a symbol's fate from its own position only. */
  lemma ManageLocal(b: Book, c: Book, bar: Bar)
    requires Priced(b) && Priced(c) && SameAt(b, c, bar.symbol)
    ensures SameAt(Manage(b, bar), Manage(c, bar), bar.symbol)
  {
  }

  /** Within the exit phase each symbol with a bar at `t` fares as if it were
      managed alone. */
  lemma {:induction false} ManagePhaseAt(b: Book, ks: seq<Symbol>, dfs: map<Symbol, seq<Bar>>, t: int, s: Symbol)
    requires Loaded(dfs) && Valid(b) && NoDup(ks) && s in ks && Quote(dfs, s, t).Some?
    ensures SameAt(ManagePhase(b, ks, dfs, t), Manage(b, Quote(dfs, s, t).value), s)
  {
    var p, k := ks[..|ks| - 1], ks[|ks| - 1];
    var q := Quote(dfs, s, t).value;
    if k == s {
      assert s !in p by {
        forall i | 0 <= i < |p| ensures p[i] != s { assert ks[i] == p[i]; }
      }
      ManageLocal(ManagePhase(b, p, dfs, t), b, q);
    } else {
      assert NoDup(p) by {
        forall i, j | 0 <= i < j < |p| ensures p[i] != p[j] { assert ks[i] == p[i] && ks[j] == p[j]; }
      }
      assert s in p by {
        var i :| 0 <= i < |ks| && ks[i] == s;
        assert i < |p| && p[i] == s;
      }
      ManagePhaseAt(b, p, dfs, t, s);
    }
  }

  /** One timestamp of `test_ananke`: entries in the exchange's symbol order,
      then `manage_positions` over the keys held after the entries. */
  function PortfolioTick(b: Book, dfs: map<Symbol, seq<Bar>>, syms: seq<Symbol>, t: int, risk: real): (r: Book)
    requires Loaded(dfs) && Valid(b)
    ensures Valid(r) && Capital(r) == Capital(b)
  {
    EnterAllKeepsLedger(b, dfs, syms, t, risk);
    var e := EnterAll(b, dfs, syms, t, risk);
    ManagePhase(e, e.order, dfs, t)
  }

  /** Symbols without a bar at `t` are untouched at `t`. */
  lemma PortfolioTickLocal(b: Book, dfs: map<Symbol, seq<Bar>>, syms: seq<Symbol>, t: int, risk: real, s: Symbol)
    requires Loaded(dfs) && Valid(b) && Quote(dfs, s, t).None?
    ensures SameAt(b, PortfolioTick(b, dfs, syms, t, risk), s)
  {
  }

  /** A position opened at timestamp `t` at a positive price is not closed by
      the exit phase of that same timestamp: its signal matches its side, its
      gain is zero, its extreme is its entry price and it has been held for no
      time. Only its extreme is set. */
  lemma NoCloseOnEntryTick(b: Book, dfs: map<Symbol, seq<Bar>>, syms: seq<Symbol>, t: int, risk: real, s: Symbol)
    requires Loaded(dfs) && Valid(b)
    requires var e := EnterAll(b, dfs, syms, t, risk);
      s !in b.positions && s in e.positions && Quote(dfs, s, t).value.close > 0.0
    ensures var e := EnterAll(b, dfs, syms, t, risk);
      var r := PortfolioTick(b, dfs, syms, t, risk);
      s in r.positions && r.positions[s] == e.positions[s].(extreme := Some(e.positions[s].entryPrice))
  {
    EnterAllKeepsLedger(b, dfs, syms, t, risk);
    var e := EnterAll(b, dfs, syms, t, risk);
    var q := Quote(dfs, s, t).value;
    ManagePhaseAt(e, e.order, dfs, t, s);
    NoExitOnEntryBar(e.positions[s], q.close, t, q.signal);
    ManageKeeps(e, q);
  }

  /** The main loop of `test_ananke` over the timeline; it keeps the ledger
      invariant, so at most one position per symbol, and the capital. */
  function PortfolioRun(b: Book, dfs: map<Symbol, seq<Bar>>, syms: seq<Symbol>, timeline: seq<int>, risk: real): (r: Book)
    requires Loaded(dfs) && Valid(b)
    ensures Valid(r) && Capital(r) == Capital(b)
  {
    if timeline == [] then b
    else PortfolioTick(PortfolioRun(b, dfs, syms, timeline[..|timeline| - 1], risk), dfs, syms, timeline[|timeline| - 1], risk)
  }

  /** Only symbols with bars are ever held. */
  lemma {:induction false} PortfolioRunHoldsData(b: Book, dfs: map<Symbol, seq<Bar>>, syms: seq<Symbol>, timeline: seq<int>, risk: real)
    requires Loaded(dfs) && Valid(b) && forall s :: s in b.positions ==> HasData(dfs, s)
    ensures forall s :: s in PortfolioRun(b, dfs, syms, timeline, risk).positions ==> HasData(dfs, s)
  {
    if timeline != [] {
      PortfolioRunHoldsData(b, dfs, syms, timeline[..|timeline| - 1], risk);
    }
  }

  /** The portfolio run from an empty book ends, after the final liquidation,
      with no positions and its initial capital. */
  lemma PortfolioSettles(initial: real, dfs: map<Symbol, seq<Bar>>, syms: seq<Symbol>, timeline: seq<int>, risk: real)
    requires initial != 0.0 && Loaded(dfs)
    ensures var r := CloseAll(PortfolioRun(EmptyBook(initial), dfs, syms, timeline, risk), dfs);
      && Valid(r) && r.positions == map[] && Capital(r) == initial
      && CalculateMetrics(initial, r.balance, r.history).totalReturn == Realized(r.history) / initial * 100.0
  {
    var mid := PortfolioRun(EmptyBook(initial), dfs, syms, timeline, risk);
    PortfolioRunHoldsData(EmptyBook(initial), dfs, syms, timeline, risk);
    CloseAllKeepsLedger(mid, dfs);
    CloseAllRemovesExactly(mid, dfs);
    SettledReturn(initial, CloseAll(mid, dfs));
  }

  /** The exit phase on the account: `manage_positions` for each key held. */
  method ManageHeld(acct: Account, dfs: map<Symbol, seq<Bar>>, t: int)
    requires Loaded(dfs) && acct.Valid()
    modifies acct
    ensures acct.State() == ManagePhase(old(acct.State()), old(acct.order), dfs, t)
  {
    var snapshot := acct.order;
    for i := 0 to |snapshot|
      invariant acct.Valid()
      invariant acct.State() == ManagePhase(old(acct.State()), snapshot[..i], dfs, t)
    {
      var q := Quote(dfs, snapshot[i], t);
      ManagePhaseStep(old(acct.State()), snapshot, dfs, t, i);
      if q.Some? {
        acct.ManagePositions(q.value);
      }
    }
    assert snapshot[..|snapshot|] == snapshot;
  }

  /** One timestamp of `test_ananke` on the account. */
  method PortfolioStep(acct: Account, dfs: map<Symbol, seq<Bar>>, syms: seq<Symbol>, t: int, risk: real)
    requires Loaded(dfs) && acct.Valid()
    modifies acct
    ensures acct.State() == PortfolioTick(old(acct.State()), dfs, syms, t, risk)
  {
    EnterAllKeepsLedger(acct.State(), dfs, syms, t, risk);
    EnterPhase(acct, dfs, syms, t, risk);
    ManageHeld(acct, dfs, t);
  }

  /** The main loop of `test_ananke` on the account. */
  method ReplayPortfolio(acct: Account, dfs: map<Symbol, seq<Bar>>, syms: seq<Symbol>, timeline: seq<int>, risk: real)
    requires Loaded(dfs) && acct.Valid()
    modifies acct
    ensures acct.State() == PortfolioRun(old(acct.State()), dfs, syms, timeline, risk)
  {
    for k := 0 to |timeline|
      invariant acct.Valid()
      invariant acct.State() == PortfolioRun(old(acct.State()), dfs, syms, timeline[..k], risk)
    {
      assert timeline[..k + 1][..k] == timeline[..k];
      PortfolioStep(acct, dfs, syms, timeline[k], risk);
    }
    assert timeline[..|timeline|] == timeline;
  }

  /** Every symbol's bars with the rule's signals. */
  function SignalAll(raw: map<Symbol, seq<Bar>>, ind: map<Symbol, Indicators>): (dfs: map<Symbol, seq<Bar>>)
    requires forall s :: s in raw ==> s in ind && Fits(raw[s], ind[s])
    ensures dfs.Keys == raw.Keys
    ensures forall s :: s in raw ==> |dfs[s]| == |raw[s]| && forall i :: 0 <= i < |raw[s]| ==> dfs[s][i].time == raw[s][i].time
  {
    map s | s in raw :: Marked(raw[s], ind[s])
  }

  /** The loading loop of `test_ananke`: the rule run over every symbol. */
  method SignalSymbols(raw: map<Symbol, seq<Bar>>, ind: map<Symbol, Indicators>, symbols: seq<Symbol>)
    returns (dfs: map<Symbol, seq<Bar>>)
    requires forall s :: s in raw <==> s in symbols
    requires forall s :: s in raw ==> s in ind && Fits(raw[s], ind[s])
    ensures dfs == SignalAll(raw, ind)
  {
    dfs := map[];
    for k := 0 to |symbols|
      invariant forall s :: s in dfs <==> s in symbols[..k]
      invariant forall s :: s in dfs ==> dfs[s] == Marked(raw[s], ind[s])
    {
      var sym := symbols[k];
      var bars := SearchEntryPoint(Blank(raw[sym]), ind[sym]);
      dfs := dfs[sym := bars];
    }
    assert symbols[..|symbols|] == symbols;
  }

  /** `test_ananke`: signals for every symbol, the unified timeline, the replay
      over it, the final liquidation over all symbols, and the metrics. */
  method TestAnanke(acct: Account, initial: real, raw: map<Symbol, seq<Bar>>, ind: map<Symbol, Indicators>,
                    symbols: seq<Symbol>, binanceSymbols: seq<Symbol>, risk: real)
    returns (timeline: seq<int>, m: Report)
    requires acct.Valid() && initial != 0.0
    requires NoDup(symbols) && forall s :: s in raw <==> s in symbols
    requires forall s :: s in raw ==> s in ind && Fits(raw[s], ind[s])
    requires Loaded(SignalAll(raw, ind))
    modifies acct
    ensures Increasing(timeline)
    ensures forall t :: t in timeline <==> exists s, i :: s in raw && 0 <= i < |raw[s]| && raw[s][i].time == t
    ensures Valid(old(acct.State()).(balance := initial))
    ensures acct.State() == CloseAll(PortfolioRun(old(acct.State()).(balance := initial), SignalAll(raw, ind),
                                                   binanceSymbols, timeline, risk), SignalAll(raw, ind))
    ensures m == CalculateMetrics(initial, acct.balance, acct.history)
  {
    var dfs := SignalSymbols(raw, ind, symbols);
    timeline := CreateUnifiedTimeline(dfs, symbols);
    acct.balance := initial;
    ReplayPortfolio(acct, dfs, binanceSymbols, timeline, risk);
    acct.CloseAllPositions(dfs);
    m := CalculateMetrics(initial, acct.balance, acct.history);
  }
}
