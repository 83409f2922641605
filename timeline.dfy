/** The merged timeline of `create_unified_timeline`, bar lookup by timestamp,
    and the entry phase that both portfolio replays run at every timestamp. */
module Timeline {
  import opened Domain
  import opened Ledger
  import opened Portfolio

  predicate Increasing(r: seq<int>) {
    forall i, j :: 0 <= i < j < |r| ==> r[i] < r[j]
  }

  /** The timestamps (the index) of one symbol's bars. */
  function Times(bars: seq<Bar>): set<int> {
    if bars == [] then {} else Times(bars[..|bars| - 1]) + {bars[|bars| - 1].time}
  }

  /** The union of the timestamps of the symbols `keys`. */
  function Stamps(dfs: map<Symbol, seq<Bar>>, keys: seq<Symbol>): set<int>
    requires forall k :: k in keys ==> k in dfs
  {
    if keys == [] then {} else Stamps(dfs, keys[..|keys| - 1]) + Times(dfs[keys[|keys| - 1]])
  }

  /** The number of bars of the symbols `keys`. */
  function BarCount(dfs: map<Symbol, seq<Bar>>, keys: seq<Symbol>): nat
    requires forall k :: k in keys ==> k in dfs
  {
    if keys == [] then 0 else BarCount(dfs, keys[..|keys| - 1]) + |dfs[keys[|keys| - 1]]|
  }

  lemma {:induction false} TimesBound(bars: seq<Bar>)
    ensures |Times(bars)| <= |bars|
    ensures forall t :: t in Times(bars) <==> exists i :: 0 <= i < |bars| && bars[i].time == t
  {
    if bars != [] {
      var p := bars[..|bars| - 1];
      TimesBound(p);
      assert forall i :: 0 <= i < |p| ==> p[i] == bars[i];
    }
  }

  lemma {:induction false} StampsBound(dfs: map<Symbol, seq<Bar>>, keys: seq<Symbol>)
    requires forall k :: k in keys ==> k in dfs
    ensures |Stamps(dfs, keys)| <= BarCount(dfs, keys)
    ensures forall t :: t in Stamps(dfs, keys) <==>
      exists k, i :: k in keys && 0 <= i < |dfs[k]| && dfs[k][i].time == t
  {
    if keys != [] {
      var p, k := keys[..|keys| - 1], keys[|keys| - 1];
      StampsBound(dfs, p);
      TimesBound(dfs[k]);
      assert keys == p + [k];
      forall t | t in Stamps(dfs, keys)
        ensures exists k', i :: k' in keys && 0 <= i < |dfs[k']| && dfs[k'][i].time == t
      {
        if t !in Stamps(dfs, p) {
          var i :| 0 <= i < |dfs[k]| && dfs[k][i].time == t;
        }
      }
    }
  }

  lemma {:induction false} Inhabited(s: set<int>)
    requires s != {}
    ensures exists x :: x in s
  {
    if forall x :: x !in s {
      assert false;
    }
  }

  /** The smallest member of a non-empty set of timestamps. */
  method Least(s: set<int>) returns (m: int)
    requires s != {}
    ensures m in s && forall x :: x in s ==> m <= x
  {
    Inhabited(s);
    m :| m in s;
    var scan := s - {m};
    while scan != {}
      invariant scan <= s && m in s
      invariant forall x :: x in s && x !in scan ==> m <= x
      decreases |scan|
    {
      Inhabited(scan);
      var x :| x in scan;
      if x < m {
        m := x;
      }
      scan := scan - {x};
    }
  }

  /** The first half of `create_unified_timeline`: the union of the indices. */
  method CollectStamps(dfs: map<Symbol, seq<Bar>>, keys: seq<Symbol>) returns (all: set<int>)
    requires forall k :: k in keys ==> k in dfs
    ensures all == Stamps(dfs, keys)
  {
    all := {};
    for k := 0 to |keys|
      invariant all == Stamps(dfs, keys[..k])
    {
      var bars := dfs[keys[k]];
      for j := 0 to |bars|
        invariant all == Stamps(dfs, keys[..k]) + Times(bars[..j])
      {
        all := all + {bars[j].time};
        assert bars[..j + 1][..j] == bars[..j];
      }
      assert bars[..|bars|] == bars;
      assert keys[..k + 1][..k] == keys[..k];
    }
    assert keys[..|keys|] == keys;
  }

  /** The second half of `create_unified_timeline`: `sorted` of the union. */
  method SortStamps(all: set<int>) returns (r: seq<int>)
    ensures Increasing(r)
    ensures forall t :: t in r <==> t in all
    ensures |r| == |all|
  {
    r := [];
    var rest := all;
    while rest != {}
      invariant rest <= all
      invariant forall t :: t in all <==> t in rest || t in r
      invariant Increasing(r)
      invariant forall i, t :: 0 <= i < |r| && t in rest ==> r[i] < t
      invariant |r| + |rest| == |all|
      decreases |rest|
    {
      var m := Least(rest);
      r := r + [m];
      rest := rest - {m};
    }
  }

  /** `create_unified_timeline`: the timestamps of all symbols, each once, in
      increasing order. `keys` is the dictionary's iteration order, so each key
      once, and `BarCount(dfs, keys)` is the number of loaded bars. */
  method CreateUnifiedTimeline(dfs: map<Symbol, seq<Bar>>, keys: seq<Symbol>) returns (r: seq<int>)
    requires NoDup(keys) && forall s :: s in dfs <==> s in keys
    ensures Increasing(r)
    ensures forall t :: t in r <==> exists s, i :: s in dfs && 0 <= i < |dfs[s]| && dfs[s][i].time == t
    ensures |r| == |Stamps(dfs, keys)| <= BarCount(dfs, keys)
  {
    var all := CollectStamps(dfs, keys);
    StampsBound(dfs, keys);
    r := SortStamps(all);
  }

  /** `df.loc[[t]]` read through `iloc[0]`: the first bar stamped `t`, if any. */
  function FirstAt(bars: seq<Bar>, t: int): (r: Option<Bar>)
    ensures r.None? <==> forall i :: 0 <= i < |bars| ==> bars[i].time != t
    ensures r.Some? ==> exists i :: 0 <= i < |bars| && bars[i] == r.value && r.value.time == t
                          && forall j :: 0 <= j < i ==> bars[j].time != t
  {
    if bars == [] then None
    else if bars[0].time == t then Some(bars[0])
    else
      var r := FirstAt(bars[1..], t);
      assert forall i :: 1 <= i < |bars| ==> bars[i] == bars[1..][i - 1];
      r
  }

  /** The bar of `s` at timestamp `t`: `s in dfs and t in dfs[s].index`. */
  function Quote(dfs: map<Symbol, seq<Bar>>, s: Symbol, t: int): (r: Option<Bar>)
    ensures r.Some? ==> s in dfs && r.value in dfs[s] && r.value.time == t
    ensures r.None? <==> s !in dfs || forall i :: 0 <= i < |dfs[s]| ==> dfs[s][i].time != t
  {
    if s in dfs then FirstAt(dfs[s], t) else None
  }

  /** Loaded, signalled bar data: each bar carries the symbol it is filed under,
      and a bar with a signal has a close that can be divided by. */
  predicate Loaded(dfs: map<Symbol, seq<Bar>>) {
    forall s, bar :: s in dfs && bar in dfs[s] ==>
      bar.symbol == s && (bar.signal != NoSignal ==> bar.close != 0.0)
  }

  /** Every bar that carries a signal has a close that can be divided by. */
  predicate Priceable(bars: seq<Bar>) {
    forall i :: 0 <= i < |bars| ==> bars[i].signal != NoSignal ==> bars[i].close != 0.0
  }

  /** The position a signal bar opens: the signal's side at the bar's close and time. */
  predicate FreshAt(pos: Position, bar: Bar) {
    bar.signal != NoSignal && pos.side == SideFor(bar.signal) && pos.entryPrice == bar.close
    && pos.entryTime == bar.time && pos.extreme == None
  }

  /** The entry phase at timestamp `t`: in the order `syms` (the exchange's
      symbol list), every symbol with a bar at `t` carrying a signal and not
      yet held goes through `open_position`. */
  function EnterAll(b: Book, dfs: map<Symbol, seq<Bar>>, syms: seq<Symbol>, t: int, risk: real): (r: Book)
    requires Loaded(dfs)
    ensures forall s :: s in b.positions ==> s in r.positions && r.positions[s] == b.positions[s]
    ensures forall s :: s in r.positions && s !in b.positions ==>
      s in syms && Quote(dfs, s, t).Some? && FreshAt(r.positions[s], Quote(dfs, s, t).value)
    ensures forall s :: s !in syms || Quote(dfs, s, t).None? ==> SameAt(b, r, s)
  {
    if syms == [] then b
    else
      EnterOne(EnterAll(b, dfs, syms[..|syms| - 1], t, risk), dfs, syms[|syms| - 1], t, risk)
  }

  /** One step of the entry phase: `s` is opened at `t` when it has a bar there
      carrying a signal and is not held. */
  function EnterOne(p: Book, dfs: map<Symbol, seq<Bar>>, s: Symbol, t: int, risk: real): Book
    requires Loaded(dfs)
  {
    var q := Quote(dfs, s, t);
    if q.Some? && q.value.signal != NoSignal && s !in p.positions then Open(p, q.value, risk) else p
  }

  lemma {:induction false} EnterAllKeepsLedger(b: Book, dfs: map<Symbol, seq<Bar>>, syms: seq<Symbol>, t: int, risk: real)
    requires Loaded(dfs) && Valid(b)
    ensures Valid(EnterAll(b, dfs, syms, t, risk)) && Capital(EnterAll(b, dfs, syms, t, risk)) == Capital(b)
  {
    if syms != [] {
      var p := EnterAll(b, dfs, syms[..|syms| - 1], t, risk);
      EnterAllKeepsLedger(b, dfs, syms[..|syms| - 1], t, risk);
      var q := Quote(dfs, syms[|syms| - 1], t);
      if q.Some? {
        OpenKeepsLedger(p, q.value, risk);
      }
    }
  }

  /** The entry phase only spends: each `open_position` that opens takes at
      least the minimum trade off the balance. */
  lemma {:induction false} EnterAllSpends(b: Book, dfs: map<Symbol, seq<Bar>>, syms: seq<Symbol>, t: int, risk: real)
    requires Loaded(dfs)
    ensures EnterAll(b, dfs, syms, t, risk).balance <= b.balance
  {
    if syms != [] {
      EnterAllSpends(b, dfs, syms[..|syms| - 1], t, risk);
    }
  }

  lemma RiskMonotone(risk: real, x: real, y: real)
    requires risk >= 0.0 && x <= y
    ensures risk * x <= risk * y
  {
  }

  /** A symbol not held after one entry step was not held before it, the step
      did not raise the balance, and if the step was for that symbol with a
      signal bar, the balance could not afford the minimum trade. */
  lemma EnterOneSkips(p: Book, dfs: map<Symbol, seq<Bar>>, last: Symbol, t: int, risk: real, s: Symbol)
    requires Loaded(dfs) && risk >= 0.0
    requires s !in EnterOne(p, dfs, last, t, risk).positions
    ensures s !in p.positions
    ensures risk * EnterOne(p, dfs, last, t, risk).balance <= risk * p.balance
    ensures s == last && Quote(dfs, s, t).Some? && Quote(dfs, s, t).value.signal != NoSignal ==>
      risk * p.balance < MinTradeSize
  {
    var q := Quote(dfs, last, t);
    var r := EnterOne(p, dfs, last, t, risk);
    if q.Some? && q.value.signal != NoSignal && last !in p.positions && Opens(p, q.value, risk) {
      RiskMonotone(risk, r.balance, p.balance);
    }
  }

  /** The converse of the entry contract: a symbol of the list with a signal
      bar at `t` that was not held and is still not held afterwards was
      skipped by the minimum-trade check, so the balance left cannot afford
      the minimum trade. */
  lemma {:induction false} EnterAllOpensSignals(b: Book, dfs: map<Symbol, seq<Bar>>, syms: seq<Symbol>, t: int, risk: real, s: Symbol)
    requires Loaded(dfs) && risk >= 0.0
    requires s in syms && Quote(dfs, s, t).Some? && Quote(dfs, s, t).value.signal != NoSignal
    requires s !in b.positions && s !in EnterAll(b, dfs, syms, t, risk).positions
    ensures risk * EnterAll(b, dfs, syms, t, risk).balance < MinTradeSize
  {
    var pre := syms[..|syms| - 1];
    var last := syms[|syms| - 1];
    var p := EnterAll(b, dfs, pre, t, risk);
    EnterOneSkips(p, dfs, last, t, risk, s);
    if s != last {
      assert s in pre;
      EnterAllOpensSignals(b, dfs, pre, t, risk, s);
    }
  }

  /** The entry phase on the account: the loop over the exchange's symbols. */
  method EnterPhase(acct: Account, dfs: map<Symbol, seq<Bar>>, syms: seq<Symbol>, t: int, risk: real)
    requires Loaded(dfs)
    modifies acct
    ensures acct.State() == EnterAll(old(acct.State()), dfs, syms, t, risk)
  {
    for j := 0 to |syms|
      invariant acct.State() == EnterAll(old(acct.State()), dfs, syms[..j], t, risk)
    {
      var s := syms[j];
      var q := Quote(dfs, s, t);
      if q.Some? && q.value.signal != NoSignal && s !in acct.positions {
        acct.OpenPosition(q.value, risk);
      }
      assert syms[..j + 1][..j] == syms[..j];
    }
    assert syms[..|syms|] == syms;
  }
}
