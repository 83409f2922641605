/** Values shared by every part of the backtesting engine: signals, bars,
    positions, trade-log entries and the ledger state that the replays thread
    from bar to bar (running balance, open positions, trade history). */
module Domain {

  datatype Option<T> = None | Some(value: T)

  type Symbol = string

  /** The verdict of a signal rule for one bar; `NoSignal` is the empty string. */
  datatype Signal = Buy | Sell | NoSignal

  datatype Side = Long | Short

  /** The side a BUY or a SELL opens. */
  function SideFor(s: Signal): Side
    requires s != NoSignal
  {
    if s == Buy then Long else Short
  }

  /** The signal that opens a position of this side. */
  function EntrySignal(side: Side): (s: Signal)
    ensures s != NoSignal && SideFor(s) == side
  {
    match side
    case Long => Buy
    case Short => Sell
  }

  /** One kline of one symbol: open time in seconds, open and close price, signal. */
  datatype Bar = Bar(symbol: Symbol, time: int, open: real, close: real, signal: Signal)

  /** An open position. `extreme` is `highest_price` for a LONG and `lowest_price`
      for a SHORT: absent until the trailing stop first looks at the position. */
  datatype Position = Position(side: Side, usdIn: real, qty: real, entryPrice: real,
                               entryTime: int, extreme: Option<real>)

  datatype ExitReason = OppositeSignal | TakeProfit | TrailingStop | TimeExit

  /** One trade-history record. `Opened` is OPEN_LONG/OPEN_SHORT, `Closed` is
      CLOSE_LONG/CLOSE_SHORT (with the exit rule's name when a rule closed it),
      `Forced` is FORCE_LONG/FORCE_SHORT from the final liquidation. */
  datatype Entry =
    | Opened(time: int, symbol: Symbol, side: Side, price: real, qty: real,
             usdFlow: real, balance: real)
    | Closed(time: int, symbol: Symbol, side: Side, price: real, profit: real,
             reason: Option<ExitReason>)
    | Forced(time: int, symbol: Symbol, side: Side, price: real, qty: real,
             usdFlow: real, profit: real, balance: real)

  /** The ledger: a running balance, the positions dictionary (a map plus the
      dictionary's insertion order, which fixes the order of iteration) and the
      append-only trade history. */
  datatype Book = Book(balance: real, positions: map<Symbol, Position>,
                       order: seq<Symbol>, history: seq<Entry>)

  predicate NoDup<T(==)>(s: seq<T>) {
    forall i, j :: 0 <= i < j < |s| ==> s[i] != s[j]
  }

  /** The dictionary order after `del positions[s]`. */
  function Without(o: seq<Symbol>, s: Symbol): seq<Symbol> {
    if o == [] then []
    else Without(o[..|o| - 1], s) + (if o[|o| - 1] == s then [] else [o[|o| - 1]])
  }

  /** Sum of the profits the history has realized (entries without profit add 0). */
  function Realized(h: seq<Entry>): real {
    if h == [] then 0.0
    else Realized(h[..|h| - 1]) + (if h[|h| - 1].Opened? then 0.0 else h[|h| - 1].profit)
  }

  function UsdIn(m: map<Symbol, Position>, s: Symbol): real {
    if s in m then m[s].usdIn else 0.0
  }

  /** Capital committed to the open positions listed in `o`. */
  function Escrow(o: seq<Symbol>, m: map<Symbol, Position>): real {
    if o == [] then 0.0 else Escrow(o[..|o| - 1], m) + UsdIn(m, o[|o| - 1])
  }

  /** Free balance plus escrowed capital minus realized profit: the capital the
      book started from. Every ledger operation keeps it fixed. */
  function Capital(b: Book): real {
    b.balance + Escrow(b.order, b.positions) - Realized(b.history)
  }

  /** Opening entries minus closing entries of symbol `s` in the history. */
  function Net(h: seq<Entry>, s: Symbol): int {
    if h == [] then 0
    else Net(h[..|h| - 1], s) + (if h[|h| - 1].symbol != s then 0
                                 else if h[|h| - 1].Opened? then 1 else -1)
  }

  predicate Priced(b: Book) {
    forall s :: s in b.positions ==> b.positions[s].entryPrice != 0.0
  }

  /** The ledger invariant: the dictionary order lists each held symbol once,
      entry prices are usable divisors, and the history agrees with the book:
      every symbol has been opened exactly once more than closed if it is held,
      and as often as closed otherwise, so at most one position per symbol. */
  ghost predicate Valid(b: Book) {
    && NoDup(b.order)
    && (forall s :: s in b.order <==> s in b.positions)
    && Priced(b)
    && (forall s :: Net(b.history, s) == if s in b.positions then 1 else 0)
  }

  /** Symbol `s` is held in `b` and in `r` alike, with the same position. */
  predicate SameAt(b: Book, r: Book, s: Symbol) {
    && (s in b.positions <==> s in r.positions)
    && (s in b.positions ==> b.positions[s] == r.positions[s])
  }

  function EmptyBook(balance: real): (r: Book)
    ensures Valid(r) && Capital(r) == balance
  {
    Book(balance, map[], [], [])
  }

  lemma {:induction false} WithoutMembers(o: seq<Symbol>, s: Symbol)
    ensures forall x :: x in Without(o, s) <==> x in o && x != s
  {
    if o != [] {
      WithoutMembers(o[..|o| - 1], s);
      assert o == o[..|o| - 1] + [o[|o| - 1]];
    }
  }

  lemma {:induction false} WithoutAbsent(o: seq<Symbol>, s: Symbol)
    requires s !in o
    ensures Without(o, s) == o
  {
    if o != [] {
      WithoutAbsent(o[..|o| - 1], s);
      assert o == o[..|o| - 1] + [o[|o| - 1]];
    }
  }

  lemma {:induction false} WithoutNoDup(o: seq<Symbol>, s: Symbol)
    requires NoDup(o)
    ensures NoDup(Without(o, s))
  {
    if o != [] {
      var p, x := o[..|o| - 1], o[|o| - 1];
      WithoutNoDup(p, s);
      WithoutMembers(p, s);
      assert x !in p by {
        forall i | 0 <= i < |p| ensures p[i] != x { assert o[i] == p[i]; }
      }
      if x != s {
        var w := Without(p, s);
        assert Without(o, s) == w + [x];
        forall i, j | 0 <= i < j < |w + [x]| ensures (w + [x])[i] != (w + [x])[j] {
          if j == |w| { assert (w + [x])[i] == w[i] && w[i] in w; }
        }
      }
    }
  }

  lemma {:induction false} EscrowFrame(o: seq<Symbol>, m1: map<Symbol, Position>, m2: map<Symbol, Position>)
    requires forall x :: x in o ==> UsdIn(m1, x) == UsdIn(m2, x)
    ensures Escrow(o, m1) == Escrow(o, m2)
  {
    if o != [] {
      EscrowFrame(o[..|o| - 1], m1, m2);
    }
  }

  lemma {:induction false} EscrowAppend(o: seq<Symbol>, s: Symbol, m: map<Symbol, Position>)
    ensures Escrow(o + [s], m) == Escrow(o, m) + UsdIn(m, s)
  {
    assert (o + [s])[..|o|] == o;
  }

  lemma {:induction false} EscrowWithout(o: seq<Symbol>, s: Symbol, m: map<Symbol, Position>)
    requires NoDup(o) && s in o
    ensures Escrow(o, m) == Escrow(Without(o, s), m) + UsdIn(m, s)
  {
    var p, x := o[..|o| - 1], o[|o| - 1];
    assert o == p + [x];
    if x == s {
      assert s !in p by {
        forall i | 0 <= i < |p| ensures p[i] != s { assert o[i] == p[i]; }
      }
      WithoutAbsent(p, s);
      assert Without(o, s) == Without(p, s) + [] == p;
      assert Escrow(o, m) == Escrow(p, m) + UsdIn(m, s);
    } else {
      EscrowWithout(p, s, m);
      EscrowAppend(Without(p, s), x, m);
    }
  }

  lemma NoDupAppend(o: seq<Symbol>, s: Symbol)
    requires NoDup(o) && s !in o
    ensures NoDup(o + [s])
  {
    var o' := o + [s];
    forall i, j | 0 <= i < j < |o'| ensures o'[i] != o'[j] {
      if j == |o| { assert o'[i] == o[i] && o[i] in o; }
    }
  }

  /** `[f(x) for x in xs]`. */
  function MapSeq<A, B>(f: A --> B, xs: seq<A>): (ys: seq<B>)
    requires forall i :: 0 <= i < |xs| ==> f.requires(xs[i])
    ensures |ys| == |xs| && forall i :: 0 <= i < |xs| ==> ys[i] == f(xs[i])
  {
    seq(|xs|, i requires 0 <= i < |xs| => f(xs[i]))
  }

  /** Mapping one more element appends its image. */
  lemma MapSeqSnoc<A, B>(f: A --> B, xs: seq<A>, k: nat)
    requires forall i :: 0 <= i < |xs| ==> f.requires(xs[i])
    requires k < |xs|
    ensures MapSeq(f, xs[..k + 1]) == MapSeq(f, xs[..k]) + [f(xs[k])]
  {
    assert forall i :: 0 <= i < k ==> xs[..k + 1][i] == xs[..k][i];
  }

  lemma {:induction false} RealizedAppend(h: seq<Entry>, e: Entry)
    ensures Realized(h + [e]) == Realized(h) + (if e.Opened? then 0.0 else e.profit)
    ensures forall s :: Net(h + [e], s) == Net(h, s) + (if e.symbol != s then 0 else if e.Opened? then 1 else -1)
  {
    assert (h + [e])[..|h|] == h;
  }
}
