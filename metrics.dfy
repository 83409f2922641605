/** `calculate_metrics`: counts, sums and extremes over the closing entries of
    a trade history, and the running-peak drawdown of its equity curve. */
module Metrics {
  import opened Domain

  /** A float as pandas computes it: finite, an infinity, or not a number. */
  datatype Ext = Finite(v: real) | PosInf | NegInf | NaN

  /** The metrics dictionary. `longTrades` and `shortTrades` are absent when the
      history has no closing entry. */
  datatype Report = Report(finalBalance: real, totalReturn: real, winRate: real,
                           profitFactor: Ext, maxDrawdown: Ext, numTrades: nat,
                           grossProfit: real, grossLoss: real, avgWin: real, avgLoss: real,
                           largestWin: real, largestLoss: real,
                           longTrades: Option<nat>, shortTrades: Option<nat>)

  /** The metrics before any trade is looked at. */
  function Defaults(initial: real, balance: real): Report
    requires initial != 0.0
  {
    Report(balance, (balance - initial) / initial * 100.0, 0.0, Finite(0.0), Finite(0.0), 0,
           0.0, 0.0, 0.0, 0.0, 0.0, 0.0, None, None)
  }

  /** The `profit` column with the entries that lack one dropped. */
  function Profits(h: seq<Entry>): seq<real> {
    if h == [] then []
    else Profits(h[..|h| - 1]) + (if h[|h| - 1].Opened? then [] else [h[|h| - 1].profit])
  }

  function Wins(ps: seq<real>): seq<real> {
    if ps == [] then [] else Wins(ps[..|ps| - 1]) + (if ps[|ps| - 1] > 0.0 then [ps[|ps| - 1]] else [])
  }

  function Losses(ps: seq<real>): seq<real> {
    if ps == [] then [] else Losses(ps[..|ps| - 1]) + (if ps[|ps| - 1] <= 0.0 then [ps[|ps| - 1]] else [])
  }

  function Sum(xs: seq<real>): real {
    if xs == [] then 0.0 else Sum(xs[..|xs| - 1]) + xs[|xs| - 1]
  }

  function Mean(xs: seq<real>): real
    requires xs != []
  {
    Sum(xs) / |xs| as real
  }

  /** `max()` of a non-empty column. */
  function Largest(xs: seq<real>): (r: real)
    requires xs != []
    ensures r in xs && forall i :: 0 <= i < |xs| ==> xs[i] <= r
  {
    if |xs| == 1 then xs[0]
    else
      var m := Largest(xs[..|xs| - 1]);
      assert forall i :: 0 <= i < |xs| - 1 ==> xs[..|xs| - 1][i] == xs[i];
      if xs[|xs| - 1] > m then xs[|xs| - 1] else m
  }

  /** `min()` of a non-empty column. */
  function Smallest(xs: seq<real>): (r: real)
    requires xs != []
    ensures r in xs && forall i :: 0 <= i < |xs| ==> r <= xs[i]
  {
    if |xs| == 1 then xs[0]
    else
      var m := Smallest(xs[..|xs| - 1]);
      assert forall i :: 0 <= i < |xs| - 1 ==> xs[..|xs| - 1][i] == xs[i];
      if xs[|xs| - 1] < m then xs[|xs| - 1] else m
  }

  function Abs(x: real): real { if x < 0.0 then -x else x }

  /** The entries whose side names this direction (OPEN_, CLOSE_ and FORCE_ alike). */
  function CountSide(h: seq<Entry>, side: Side): nat {
    if h == [] then 0 else CountSide(h[..|h| - 1], side) + (if h[|h| - 1].side == side then 1 else 0)
  }

  /** The `cumulative` column: the initial balance plus the running sum of the
      profits, an entry without profit adding nothing. */
  function Equity(initial: real, h: seq<Entry>): (eq: seq<real>)
    ensures |eq| == |h|
  {
    seq(|h|, k requires 0 <= k < |h| => initial + Realized(h[..k + 1]))
  }

  /** The `peak` column: the running maximum of the equity curve. */
  function Peak(eq: seq<real>, k: nat): real
    requires k < |eq|
  {
    if k == 0 then eq[0] else if eq[k] > Peak(eq, k - 1) then eq[k] else Peak(eq, k - 1)
  }

  /** Float division as pandas performs it on columns: a zero divisor gives an
      infinity of the dividend's sign, or NaN for 0/0. */
  function Ratio(num: real, den: real): Ext {
    if den != 0.0 then Finite(num / den)
    else if num == 0.0 then NaN
    else if num < 0.0 then NegInf
    else PosInf
  }

  /** The `drawdown` column. */
  function Drawdowns(eq: seq<real>): (dd: seq<Ext>)
    ensures |dd| == |eq|
  {
    seq(|eq|, k requires 0 <= k < |eq| => Ratio(eq[k] - Peak(eq, k), Peak(eq, k)))
  }

  function Below(x: Ext, y: Ext): bool {
    match (x, y)
    case (NegInf, _) => y != NegInf
    case (Finite(a), Finite(b)) => a < b
    case (Finite(_), PosInf) => true
    case (_, _) => false
  }

  /** `min()` of a column, skipping NaN; NaN when every value is NaN. */
  function MinExt(xs: seq<Ext>): Ext {
    if xs == [] then NaN
    else
      var m := MinExt(xs[..|xs| - 1]);
      var x := xs[|xs| - 1];
      if m == NaN then x else if x != NaN && Below(x, m) then x else m
  }

  function Scale(x: Ext, c: real): Ext {
    if x.Finite? then Finite(x.v * c) else x
  }

  /** Share of winning trades, in percent. */
  function WinRate(ps: seq<real>): (r: real)
    requires ps != []
    ensures 0.0 <= r <= 100.0
    ensures r == 100.0 <==> forall i :: 0 <= i < |ps| ==> ps[i] > 0.0
    ensures r == 0.0 <==> forall i :: 0 <= i < |ps| ==> ps[i] <= 0.0
  {
    WinCount(ps);
    Fraction(|Wins(ps)|, |ps|);
    |Wins(ps)| as real / |ps| as real * 100.0
  }

  /** Gross profit over gross loss, infinite when nothing was lost. */
  function ProfitFactor(gp: real, gl: real): (r: Ext)
    requires gp >= 0.0 && gl >= 0.0
    ensures r == PosInf <==> gl == 0.0
    ensures r.Finite? ==> r.v >= 0.0 && r.v * gl == gp
  {
    if gl > 0.0 then Finite(gp / gl) else PosInf
  }

  /** `calculate_metrics`. The division for the total return happens before any
      guard, so a zero initial balance is excluded. */
  function CalculateMetrics(initial: real, balance: real, h: seq<Entry>): (m: Report)
    requires initial != 0.0
    ensures m.finalBalance == balance && m.totalReturn == (balance - initial) / initial * 100.0
    ensures Profits(h) == [] ==> m == Defaults(initial, balance)
    ensures Profits(h) != [] ==>
      && m.numTrades == |Profits(h)|
      && 0.0 <= m.winRate <= 100.0
      && (m.winRate == 100.0 <==> forall i :: 0 <= i < |Profits(h)| ==> Profits(h)[i] > 0.0)
      && m.grossProfit == Sum(Wins(Profits(h))) && m.grossLoss == -Sum(Losses(Profits(h)))
      && m.grossProfit >= 0.0 && m.grossLoss >= 0.0
      && m.grossProfit - m.grossLoss == Realized(h)
      && (m.profitFactor == PosInf <==> m.grossLoss == 0.0)
      && m.longTrades.Some? && m.shortTrades.Some?
      && m.longTrades.value + m.shortTrades.value == |h|
  {
    var base := Defaults(initial, balance);
    var ps := Profits(h);
    if ps == [] then base
    else
      var wins := Wins(ps);
      var losses := Losses(ps);
      PartitionSums(ps);
      ProfitsSum(h);
      SidesCount(h);
      var gp := Sum(wins);
      var gl := Abs(Sum(losses));
      assert gl == -Sum(losses);
      var pf := ProfitFactor(gp, gl);
      base.(numTrades := |ps|,
            winRate := WinRate(ps),
            grossProfit := gp,
            grossLoss := gl,
            profitFactor := pf,
            avgWin := if wins == [] then 0.0 else Mean(wins),
            avgLoss := if losses == [] then 0.0 else Mean(losses),
            largestWin := if wins == [] then 0.0 else Largest(wins),
            largestLoss := if losses == [] then 0.0 else Smallest(losses),
            maxDrawdown := Scale(MinExt(Drawdowns(Equity(initial, h))), 100.0),
            longTrades := Some(CountSide(h, Long)),
            shortTrades := Some(CountSide(h, Short)))
  }

  /** The losers sum to zero exactly when no trade lost money. */
  lemma {:induction false} LossesSumZero(ps: seq<real>)
    ensures Sum(Losses(ps)) == 0.0 <==> forall i :: 0 <= i < |ps| ==> ps[i] >= 0.0
  {
    if ps != [] {
      var p, x := ps[..|ps| - 1], ps[|ps| - 1];
      LossesSumZero(p);
      PartitionSums(p);
      assert forall i :: 0 <= i < |p| ==> ps[i] == p[i];
      if x <= 0.0 {
        assert Losses(ps) == Losses(p) + [x];
        SumAppend(Losses(p), x);
      } else {
        assert Losses(ps) == Losses(p);
      }
    }
  }

  /** With closed trades, the profit factor is infinite exactly when none of
      them lost money, and otherwise it is the gross profit over the gross loss. */
  lemma ProfitFactorMeaning(initial: real, balance: real, h: seq<Entry>)
    requires initial != 0.0 && Profits(h) != []
    ensures var m := CalculateMetrics(initial, balance, h);
      && (m.profitFactor == PosInf <==> forall i :: 0 <= i < |Profits(h)| ==> Profits(h)[i] >= 0.0)
      && (m.profitFactor.Finite? ==> m.grossLoss > 0.0 && m.profitFactor.v == m.grossProfit / m.grossLoss)
  {
    LossesSumZero(Profits(h));
  }

  /** The averages lie between the extremes, on their side of zero, and every
      closed trade lies between the largest loss and the largest win. */
  lemma AveragesAndExtremes(initial: real, balance: real, h: seq<Entry>)
    requires initial != 0.0
    ensures var m := CalculateMetrics(initial, balance, h);
      var ps := Profits(h);
      && m.largestLoss <= m.avgLoss <= 0.0 <= m.avgWin <= m.largestWin
      && forall i :: 0 <= i < |ps| ==>
           if ps[i] > 0.0 then ps[i] <= m.largestWin else m.largestLoss <= ps[i]
  {
    var ps := Profits(h);
    if ps != [] {
      var wins, losses := Wins(ps), Losses(ps);
      PartitionSigns(ps);
      PartitionMembers(ps);
      if wins != [] {
        MeanBetween(wins);
        assert Smallest(wins) in wins;
      }
      if losses != [] {
        MeanBetween(losses);
        assert Largest(losses) in losses;
      }
      forall i | 0 <= i < |ps|
        ensures if ps[i] > 0.0 then wins != [] && ps[i] <= Largest(wins)
                else losses != [] && Smallest(losses) <= ps[i]
      {
        if ps[i] > 0.0 {
          var j :| 0 <= j < |wins| && wins[j] == ps[i];
        } else {
          var j :| 0 <= j < |losses| && losses[j] == ps[i];
        }
      }
    }
  }

  lemma ScaleSign(q: real, y: real)
    requires y > 0.0
    ensures q < 1.0 ==> q * y < y
    ensures q > 1.0 ==> q * y > y
    ensures q < 0.0 ==> q * y < 0.0
    ensures q > 0.0 ==> q * y > 0.0
  {
  }

  lemma Fraction(k: nat, n: nat)
    requires 0 <= k <= n && n > 0
    ensures 0.0 <= k as real / n as real * 100.0 <= 100.0
    ensures k as real / n as real * 100.0 == 100.0 <==> k == n
    ensures k as real / n as real * 100.0 == 0.0 <==> k == 0
  {
    var x, y := k as real, n as real;
    var q := x / y;
    assert q * y == x;
    ScaleSign(q, y);
    assert 0.0 <= q <= 1.0;
    assert q == 1.0 <==> k == n;
    assert q == 0.0 <==> k == 0;
  }

  lemma DivBetween(s: real, n: real, lo: real, hi: real)
    requires n > 0.0 && n * lo <= s <= n * hi
    ensures lo <= s / n <= hi
  {
    assert s / n * n == s;
  }

  /** The sum lies between |xs| times the bounds. */
  lemma {:induction false} SumBetween(xs: seq<real>, lo: real, hi: real)
    requires forall i :: 0 <= i < |xs| ==> lo <= xs[i] <= hi
    ensures |xs| as real * lo <= Sum(xs) <= |xs| as real * hi
  {
    if xs != [] {
      SumBetween(xs[..|xs| - 1], lo, hi);
    }
  }

  /** The mean lies between the extremes. */
  lemma MeanBetween(xs: seq<real>)
    requires xs != []
    ensures Smallest(xs) <= Mean(xs) <= Largest(xs)
  {
    SumBetween(xs, Smallest(xs), Largest(xs));
    DivBetween(Sum(xs), |xs| as real, Smallest(xs), Largest(xs));
  }

  lemma {:induction false} SumAppend(xs: seq<real>, x: real)
    ensures Sum(xs + [x]) == Sum(xs) + x
  {
    assert (xs + [x])[..|xs|] == xs;
  }

  /** Winners and losers split the closed trades: counts and sums add up. */
  lemma {:induction false} PartitionSums(ps: seq<real>)
    ensures |Wins(ps)| + |Losses(ps)| == |ps|
    ensures Sum(Wins(ps)) + Sum(Losses(ps)) == Sum(ps)
    ensures Sum(Wins(ps)) >= 0.0 && Sum(Losses(ps)) <= 0.0
  {
    if ps != [] {
      var p, x := ps[..|ps| - 1], ps[|ps| - 1];
      PartitionSums(p);
      SumAppend(p, x);
      assert ps == p + [x];
      if x > 0.0 {
        assert Wins(ps) == Wins(p) + [x] && Losses(ps) == Losses(p);
        SumAppend(Wins(p), x);
      } else {
        assert Wins(ps) == Wins(p) && Losses(ps) == Losses(p) + [x];
        SumAppend(Losses(p), x);
      }
    }
  }

  /** The winners are positive and the losers are not. */
  lemma {:induction false} PartitionSigns(ps: seq<real>)
    ensures forall i :: 0 <= i < |Wins(ps)| ==> Wins(ps)[i] > 0.0
    ensures forall i :: 0 <= i < |Losses(ps)| ==> Losses(ps)[i] <= 0.0
  {
    if ps != [] {
      PartitionSigns(ps[..|ps| - 1]);
    }
  }

  /** Every closed trade is a winner or a loser, by its sign. */
  lemma {:induction false} PartitionMembers(ps: seq<real>)
    ensures forall i :: 0 <= i < |ps| ==> if ps[i] > 0.0 then ps[i] in Wins(ps) else ps[i] in Losses(ps)
  {
    if ps != [] {
      var p := ps[..|ps| - 1];
      PartitionMembers(p);
      assert forall i :: 0 <= i < |p| ==> ps[i] == p[i];
    }
  }

  /** All trades win exactly when every trade is a winner, none when none is. */
  lemma {:induction false} WinCount(ps: seq<real>)
    ensures |Wins(ps)| <= |ps|
    ensures |Wins(ps)| == |ps| <==> forall i :: 0 <= i < |ps| ==> ps[i] > 0.0
    ensures |Wins(ps)| == 0 <==> forall i :: 0 <= i < |ps| ==> ps[i] <= 0.0
  {
    if ps != [] {
      var p := ps[..|ps| - 1];
      WinCount(p);
      assert forall i :: 0 <= i < |p| ==> ps[i] == p[i];
    }
  }

  /** Summing the profit column gives the profit the ledger has realized. */
  lemma {:induction false} ProfitsSum(h: seq<Entry>)
    ensures Sum(Profits(h)) == Realized(h)
  {
    if h != [] {
      var p, e := h[..|h| - 1], h[|h| - 1];
      ProfitsSum(p);
      if e.Opened? {
        assert Profits(h) == Profits(p);
      } else {
        assert Profits(h) == Profits(p) + [e.profit];
        SumAppend(Profits(p), e.profit);
      }
    }
  }

  lemma {:induction false} SidesCount(h: seq<Entry>)
    ensures CountSide(h, Long) + CountSide(h, Short) == |h|
  {
    if h != [] {
      SidesCount(h[..|h| - 1]);
    }
  }

  /** The running peak never falls and bounds the equity seen so far. */
  lemma {:induction false} PeakBounds(eq: seq<real>, k: nat)
    requires k < |eq|
    ensures eq[0] <= Peak(eq, k) && eq[k] <= Peak(eq, k)
    ensures exists j :: 0 <= j <= k && Peak(eq, k) == eq[j]
    ensures forall j :: 0 <= j <= k ==> eq[j] <= Peak(eq, k)
  {
    if k > 0 {
      PeakBounds(eq, k - 1);
    }
  }

  /** When the curve starts above zero every drawdown is a finite value in
      (-inf, 0], and in [-1, 0] while the equity stays non-negative. */
  lemma {:induction false} DrawdownsBounded(eq: seq<real>, k: nat)
    requires k < |eq| && eq[0] > 0.0
    ensures Drawdowns(eq)[k].Finite? && Drawdowns(eq)[k].v <= 0.0
    ensures eq[k] >= 0.0 ==> Drawdowns(eq)[k].v >= -1.0
  {
    var p := Peak(eq, k);
    PeakBounds(eq, k);
    if eq[k] >= 0.0 {
      DivBetween(eq[k] - p, p, -1.0, 0.0);
    } else {
      DivBetween(eq[k] - p, p, (eq[k] - p) / p, 0.0);
    }
  }

  lemma {:induction false} MinExtFinite(xs: seq<Ext>)
    requires xs != [] && forall i :: 0 <= i < |xs| ==> xs[i].Finite? && xs[i].v <= 0.0
    ensures exists i :: 0 <= i < |xs| && MinExt(xs) == xs[i]
  {
    var p := xs[..|xs| - 1];
    if p == [] {
      assert MinExt(xs) == xs[0];
    } else {
      MinExtFinite(p);
      var i :| 0 <= i < |p| && MinExt(p) == p[i];
      assert xs[i] == p[i];
      if MinExt(xs) == xs[|xs| - 1] {
        assert 0 <= |xs| - 1 < |xs|;
      } else {
        assert MinExt(xs) == xs[i];
      }
    }
  }

  /** The maximum drawdown is a finite percentage at most 0 whenever the equity
      curve starts above zero, and at least -100 while the equity never goes
      negative: the peak is the running maximum of the curve. */
  lemma MaxDrawdownBounds(initial: real, balance: real, h: seq<Entry>)
    requires initial != 0.0 && Profits(h) != [] && Equity(initial, h)[0] > 0.0
    ensures var eq := Equity(initial, h);
      var md := CalculateMetrics(initial, balance, h).maxDrawdown;
      && md.Finite? && md.v <= 0.0
      && ((forall k :: 0 <= k < |eq| ==> eq[k] >= 0.0) ==> md.v >= -100.0)
  {
    var eq := Equity(initial, h);
    var dd := Drawdowns(eq);
    forall k | 0 <= k < |dd| ensures dd[k].Finite? && dd[k].v <= 0.0 {
      DrawdownsBounded(eq, k);
    }
    MinExtFinite(dd);
    var i :| 0 <= i < |dd| && MinExt(dd) == dd[i];
    DrawdownsBounded(eq, i);
  }

  /** A history that opens before it closes starts its equity curve at the
      initial balance. */
  lemma EquityStart(initial: real, h: seq<Entry>)
    requires h != [] && h[0].Opened?
    ensures Equity(initial, h)[0] == initial
  {
    assert h[..1][..0] == [] && h[..1][0] == h[0];
    assert Realized(h[..1]) == 0.0;
  }

  /** For a run whose positions are all closed and whose capital is the initial
      balance, the total return is the realized profit relative to the initial
      balance, and gross profit minus gross loss is the balance gained. */
  lemma SettledReturn(initial: real, b: Book)
    requires initial != 0.0 && Valid(b) && b.positions == map[] && Capital(b) == initial
    ensures var m := CalculateMetrics(initial, b.balance, b.history);
      && m.totalReturn == Realized(b.history) / initial * 100.0
      && (Profits(b.history) != [] ==> m.grossProfit - m.grossLoss == b.balance - initial)
  {
    if b.order != [] {
      assert false;
    }
  }
}
