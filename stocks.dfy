/**
 * The per-ticker technical signal analyzer. A ticker's price history is the
 * sequence of its daily closes, oldest first, after the download has been
 * normalised to one column and its missing values dropped.
 */
module Stocks {
  import opened Wrappers

  /** An alert signal; every signal has level "Alert". The percentage is the one its detail text reports. */
  datatype Signal = Drawdown(pct: real) | BelowMA(pct: real) | Cross | GapDown(pct: real)

  datatype Status = OK | ALERT

  /** One entry of the universe result: a full analysis, or a ticker with an error message. */
  datatype Analysis =
    | Report(ticker: string, price: real, signals: seq<Signal>, status: Status)
    | Failed(ticker: string, error: string)

  /** What the price download hands over: nothing, an exception, or the closes. */
  datatype Download = NoData | Raises(message: string) | Closes(closes: seq<real>)

  /** How an analysis ends: with a returned entry or with an exception. */
  datatype Outcome = Returned(analysis: Analysis) | Raised(message: string)

  /** The exception message of a positional lookup into an empty series. */
  const OutOfBoundsMessage: string := "single positional indexer is out-of-bounds"

  predicate Positive(s: seq<real>)
  {
    forall i :: 0 <= i < |s| ==> s[i] > 0.0
  }

  predicate PositiveData(d: Download)
  {
    d.Closes? ==> Positive(d.closes)
  }

  // ---------------------------------------------------------------------------
  // Series helpers
  // ---------------------------------------------------------------------------

  function Sum(s: seq<real>): (r: real)
    ensures Positive(s) && |s| > 0 ==> r > 0.0
  {
    if |s| == 0 then 0.0 else Sum(s[..|s| - 1]) + s[|s| - 1]
  }

  /** The rolling mean of width `window` at position end - 1: the mean of closes[end - window..end]. */
  function Sma(closes: seq<real>, window: nat, end: nat): (m: real)
    requires 0 < window <= end <= |closes|
    ensures Positive(closes) ==> m > 0.0
  {
    assert Positive(closes) ==> Positive(closes[end - window..end]);
    Sum(closes[end - window..end]) / window as real
  }

  /** How many positions of a length-`n` series have a defined rolling mean of width `window`. */
  function DefinedCount(n: nat, window: nat): nat
  {
    if n >= window then n - window + 1 else 0
  }

  /** The largest element, found left to right. */
  function MaxOf(s: seq<real>): real
    requires |s| > 0
  {
    if |s| == 1 then s[0]
    else
      var m0 := MaxOf(s[..|s| - 1]);
      if s[|s| - 1] > m0 then s[|s| - 1] else m0
  }

  /** MaxOf is an upper bound of the sequence and one of its elements. */
  lemma {:induction false} MaxOfIsMax(s: seq<real>)
    requires |s| > 0
    ensures forall i :: 0 <= i < |s| ==> s[i] <= MaxOf(s)
    ensures exists i :: 0 <= i < |s| && s[i] == MaxOf(s)
  {
    if |s| == 1 {
      assert s[0] == MaxOf(s);
    } else {
      var init := s[..|s| - 1];
      MaxOfIsMax(init);
      assert forall i :: 0 <= i < |init| ==> init[i] == s[i];
      var j :| 0 <= j < |init| && init[j] == MaxOf(init);
      if s[|s| - 1] > MaxOf(init) {
        assert s[|s| - 1] == MaxOf(s);
      } else {
        assert s[j] == MaxOf(s);
      }
    }
  }

  /** The last `n` elements, or all of them when there are fewer. */
  function Tail(s: seq<real>, n: nat): (t: seq<real>)
    ensures |t| == if |s| < n then |s| else n
    ensures t == s[|s| - |t|..]
  {
    if |s| < n then s else s[|s| - n..]
  }

  function Latest(closes: seq<real>): real
    requires |closes| > 0
  {
    closes[|closes| - 1]
  }

  // ---------------------------------------------------------------------------
  // The four signals
  // ---------------------------------------------------------------------------

  /** The percentage by which `x` differs from `base`, the formula all three percentage checks share. */
  function PctChange(x: real, base: real): real
    requires base > 0.0
  {
    (x - base) / base * 100.0
  }

  /** Percentage of the latest close below the highest of the last 20 closes. */
  function DrawdownPct(closes: seq<real>): real
    requires |closes| > 0 && Positive(closes)
  {
    LatestAtMostHigh(closes);
    PctChange(Latest(closes), MaxOf(Tail(closes, 20)))
  }

  /** Percentage of the latest close relative to the 50-close mean. */
  function BelowMaPct(closes: seq<real>): real
    requires |closes| >= 50 && Positive(closes)
  {
    PctChange(Latest(closes), Sma(closes, 50, |closes|))
  }

  /** Percentage change from the previous close to the latest. */
  function GapPct(closes: seq<real>): real
    requires |closes| >= 2 && Positive(closes)
  {
    PctChange(Latest(closes), closes[|closes| - 2])
  }

  /** Today the 20-close mean is below the 50-close mean, yesterday it was not. */
  predicate CrossFires(closes: seq<real>)
  {
    var n := |closes|;
    && DefinedCount(n, 20) > 1 && DefinedCount(n, 50) > 1
    && Sma(closes, 20, n) < Sma(closes, 50, n)
    && Sma(closes, 20, n - 1) >= Sma(closes, 50, n - 1)
  }

  /** The MA measure, defined once 50 closes give a 50-close mean. */
  function BelowMaMeasure(closes: seq<real>): Option<real>
    requires |closes| > 0 && Positive(closes)
  {
    if |closes| >= 50 then Some(BelowMaPct(closes)) else None
  }

  /** The Gap measure, defined once there is a previous close. */
  function GapMeasure(closes: seq<real>): Option<real>
    requires |closes| > 0 && Positive(closes)
  {
    if |closes| >= 2 then Some(GapPct(closes)) else None
  }

  /** `s`, with `x` appended when `c` holds. */
  function AppendIf(s: seq<Signal>, c: bool, x: Signal): (r: seq<Signal>)
    ensures forall y :: y in r <==> y in s || (c && y == x)
  {
    if c then s + [x] else s
  }

  /** Check 1: a drawdown of 5% or more. */
  function DrawdownCheck(s: seq<Signal>, drawdown: real): seq<Signal>
  {
    AppendIf(s, drawdown <= -5.0, Drawdown(drawdown))
  }

  /** Check 2: a defined MA measure of -3% or less. */
  function MaCheck(s: seq<Signal>, belowMa: Option<real>): seq<Signal>
  {
    AppendIf(s, belowMa.Some? && belowMa.value <= -3.0, BelowMA(belowMa.GetOr(0.0)))
  }

  /** Check 3: a bearish cross. */
  function CrossCheck(s: seq<Signal>, cross: bool): seq<Signal>
  {
    AppendIf(s, cross, Cross)
  }

  /** Check 4: a defined gap of -3% or less. */
  function GapCheck(s: seq<Signal>, gap: Option<real>): seq<Signal>
  {
    AppendIf(s, gap.Some? && gap.value <= -3.0, GapDown(gap.GetOr(0.0)))
  }

  /** The four checks, run in order on the measures they test; a measure that is not defined is skipped. */
  function Emit(drawdown: real, belowMa: Option<real>, cross: bool, gap: Option<real>): seq<Signal>
  {
    GapCheck(CrossCheck(MaCheck(DrawdownCheck([], drawdown), belowMa), cross), gap)
  }

  /** The signals of a non-empty history, in the order the checks run. */
  function Signals(closes: seq<real>): seq<Signal>
    requires |closes| > 0 && Positive(closes)
  {
    Emit(DrawdownPct(closes), BelowMaMeasure(closes), CrossFires(closes), GapMeasure(closes))
  }

  function Kind(s: Signal): nat
  {
    match s
    case Drawdown(_) => 0
    case BelowMA(_) => 1
    case Cross => 2
    case GapDown(_) => 3
  }

  /** Signal kinds strictly increase along the list. */
  predicate KindsIncrease(s: seq<Signal>)
  {
    forall i, j :: 0 <= i < j < |s| ==> Kind(s[i]) < Kind(s[j])
  }

  /** Appending a signal of a kind above every kind present keeps the kinds increasing. */
  lemma AppendIfKindsIncrease(s: seq<Signal>, c: bool, x: Signal)
    requires KindsIncrease(s)
    requires forall y :: y in s ==> Kind(y) < Kind(x)
    ensures KindsIncrease(AppendIf(s, c, x))
    ensures |AppendIf(s, c, x)| <= |s| + 1
  {
    if c {
      var r := s + [x];
      forall i, j | 0 <= i < j < |r| ensures Kind(r[i]) < Kind(r[j]) {
        if j == |s| {
          assert r[i] == s[i] && s[i] in s;
        } else {
          assert r[i] == s[i] && r[j] == s[j];
        }
      }
    }
  }

  /** The checks emit in the fixed order Drawdown, MA, Cross, Gap, each at most once. */
  lemma EmitOrdered(drawdown: real, belowMa: Option<real>, cross: bool, gap: Option<real>)
    ensures |Emit(drawdown, belowMa, cross, gap)| <= 4
    ensures KindsIncrease(Emit(drawdown, belowMa, cross, gap))
  {
    var s0 := DrawdownCheck([], drawdown);
    var s1 := MaCheck(s0, belowMa);
    var s2 := CrossCheck(s1, cross);
    AppendIfKindsIncrease([], drawdown <= -5.0, Drawdown(drawdown));
    AppendIfKindsIncrease(s0, belowMa.Some? && belowMa.value <= -3.0, BelowMA(belowMa.GetOr(0.0)));
    AppendIfKindsIncrease(s1, cross, Cross);
    AppendIfKindsIncrease(s2, gap.Some? && gap.value <= -3.0, GapDown(gap.GetOr(0.0)));
  }

  /** Each check emits exactly when its measure is defined and past its bar, and reports that measure. */
  lemma EmitExact(drawdown: real, belowMa: Option<real>, cross: bool, gap: Option<real>)
    ensures var s := Emit(drawdown, belowMa, cross, gap);
      && (Drawdown(drawdown) in s <==> drawdown <= -5.0)
      && (forall x :: x in s && x.Drawdown? ==> x.pct == drawdown)
      && (belowMa.Some? ==> (BelowMA(belowMa.value) in s <==> belowMa.value <= -3.0))
      && (forall x :: x in s && x.BelowMA? ==> belowMa.Some? && x.pct == belowMa.value)
      && (Cross in s <==> cross)
      && (gap.Some? ==> (GapDown(gap.value) in s <==> gap.value <= -3.0))
      && (forall x :: x in s && x.GapDown? ==> gap.Some? && x.pct == gap.value)
  {
  }

  /** Signals come in the fixed order Drawdown, MA, Cross, Gap, each at most once. */
  lemma SignalsOrdered(closes: seq<real>)
    requires |closes| > 0 && Positive(closes)
    ensures |Signals(closes)| <= 4
    ensures KindsIncrease(Signals(closes))
  {
    EmitOrdered(DrawdownPct(closes), BelowMaMeasure(closes), CrossFires(closes), GapMeasure(closes));
  }

  /**
   * Each signal is present exactly when its condition holds and carries the
   * computed percentage. The MA check needs 50 closes; the Cross check needs
   * 51 (two defined 50-close means); the Gap check needs 2.
   */
  lemma SignalsExact(closes: seq<real>)
    requires |closes| > 0 && Positive(closes)
    ensures var s := Signals(closes); var n := |closes|;
      && (Drawdown(DrawdownPct(closes)) in s <==> DrawdownPct(closes) <= -5.0)
      && (forall x :: x in s && x.Drawdown? ==> x.pct == DrawdownPct(closes))
      && (n >= 50 ==> (BelowMA(BelowMaPct(closes)) in s <==> BelowMaPct(closes) <= -3.0))
      && (forall x :: x in s && x.BelowMA? ==> n >= 50 && x.pct == BelowMaPct(closes))
      && (Cross in s <==> CrossFires(closes))
      && (n >= 2 ==> (GapDown(GapPct(closes)) in s <==> GapPct(closes) <= -3.0))
      && (forall x :: x in s && x.GapDown? ==> n >= 2 && x.pct == GapPct(closes))
  {
    EmitExact(DrawdownPct(closes), BelowMaMeasure(closes), CrossFires(closes), GapMeasure(closes));
  }

  /** The Cross check needs two defined 50-close means, so at least 51 closes. */
  lemma CrossNeedsFiftyOne(closes: seq<real>)
    ensures CrossFires(closes) <==>
      var n := |closes|;
      n >= 51 && Sma(closes, 20, n) < Sma(closes, 50, n) && Sma(closes, 20, n - 1) >= Sma(closes, 50, n - 1)
  {
  }

  /** The latest close is inside the 20-close window, so the drawdown is never positive. */
  lemma DrawdownNonPositive(closes: seq<real>)
    requires |closes| > 0 && Positive(closes)
    ensures DrawdownPct(closes) <= 0.0
  {
    LatestAtMostHigh(closes);
    PctNonPositive(Latest(closes), MaxOf(Tail(closes, 20)));
  }

  /** A value at most its base is a non-positive percentage change. */
  lemma PctNonPositive(x: real, base: real)
    requires base > 0.0 && x <= base
    ensures PctChange(x, base) <= 0.0
  {
    assert (x - base) / base <= 0.0;
  }

  lemma LatestAtMostHigh(closes: seq<real>)
    requires |closes| > 0 && Positive(closes)
    ensures 0.0 < Latest(closes) <= MaxOf(Tail(closes, 20))
  {
    var window := Tail(closes, 20);
    assert window[|window| - 1] == closes[|closes| - 1];
  }

  /** A percentage change is at most `bar` exactly when the value is at most `factor` = 1 + bar/100 times the base. */
  lemma PctAtMost(x: real, base: real, bar: real, factor: real)
    requires base > 0.0 && factor == 1.0 + bar / 100.0
    ensures PctChange(x, base) <= bar <==> x <= factor * base
  {
    var q := (x - base) / base;
    assert x - base == q * base;
  }

  /** The Drawdown check fires exactly when the latest close is at most 95% of the 20-close high. */
  lemma DrawdownFiresAtNinetyFivePercent(closes: seq<real>)
    requires |closes| > 0 && Positive(closes)
    ensures DrawdownPct(closes) <= -5.0 <==> Latest(closes) <= 0.95 * MaxOf(Tail(closes, 20))
  {
    LatestAtMostHigh(closes);
    PctAtMost(Latest(closes), MaxOf(Tail(closes, 20)), -5.0, 0.95);
  }

  /** The MA check fires exactly when the latest close is at most 97% of the 50-close mean. */
  lemma MaFiresAtNinetySevenPercent(closes: seq<real>)
    requires |closes| >= 50 && Positive(closes)
    ensures BelowMaPct(closes) <= -3.0 <==> Latest(closes) <= 0.97 * Sma(closes, 50, |closes|)
  {
    PctAtMost(Latest(closes), Sma(closes, 50, |closes|), -3.0, 0.97);
  }

  /** The Gap check fires exactly when the latest close is at most 97% of the previous one. */
  lemma GapFiresAtNinetySevenPercent(closes: seq<real>)
    requires |closes| >= 2 && Positive(closes)
    ensures GapPct(closes) <= -3.0 <==> Latest(closes) <= 0.97 * closes[|closes| - 2]
  {
    PctAtMost(Latest(closes), closes[|closes| - 2], -3.0, 0.97);
  }

  /** A sum of `n` copies of `c`. */
  lemma {:induction false} SumOfConstant(s: seq<real>, c: real)
    requires forall i :: 0 <= i < |s| ==> s[i] == c
    ensures Sum(s) == |s| as real * c
  {
    if |s| > 0 {
      SumOfConstant(s[..|s| - 1], c);
    }
  }

  /** Over a window where every close is `c`, the rolling mean is `c`. */
  lemma SmaOfFlatWindow(closes: seq<real>, window: nat, end: nat, c: real)
    requires 0 < window <= end <= |closes|
    requires forall i :: end - window <= i < end ==> closes[i] == c
    ensures Sma(closes, window, end) == c
  {
    SumOfConstant(closes[end - window..end], c);
  }

  /** A single close raises no signal: it is its own 20-close high and has no predecessor. */
  lemma SingleCloseIsQuiet(price: real)
    requires price > 0.0
    ensures Signals([price]) == []
  {
    assert Tail([price], 20) == [price];
  }

  /** Twenty closes of 100 then a close of 94: a 6% drawdown, which is also a 6% gap down. */
  lemma FlatThenDrop()
    ensures var closes := seq(20, _ => 100.0) + [94.0];
      Positive(closes) && Signals(closes) == [Drawdown(-6.0), GapDown(-6.0)]
  {
    var closes := seq(20, _ => 100.0) + [94.0];
    var window := Tail(closes, 20);
    MaxOfIsMax(window);
    assert window[0] == 100.0;
    assert forall i :: 0 <= i < |window| ==> window[i] <= 100.0;
    assert MaxOf(window) == 100.0;
    assert DrawdownPct(closes) == -6.0;
    assert GapPct(closes) == -6.0;
  }

  // ---------------------------------------------------------------------------
  // One ticker, and the universe
  // ---------------------------------------------------------------------------

  /** The outcome of analysing one ticker given what its download returned. */
  function Analyze(ticker: string, data: Download): Outcome
    requires PositiveData(data)
  {
    match data
    case NoData => Returned(Failed(ticker, "No data"))
    case Raises(message) => Raised(message)
    case Closes(closes) =>
      if |closes| == 0 then Raised(OutOfBoundsMessage)
      else
        var signals := Signals(closes);
        Returned(Report(ticker, Latest(closes), signals, if |signals| == 0 then OK else ALERT))
  }

  /**
   * Only a missing download returns an error entry, and it says "No data"; a
   * full report names its ticker, reports the latest close, and is ALERT
   * exactly when a signal fired.
   */
  lemma AnalyzeReport(ticker: string, data: Download)
    requires PositiveData(data)
    ensures var o := Analyze(ticker, data);
      o.Returned? && o.analysis.Failed? <==> data.NoData?
    ensures data.NoData? ==> Analyze(ticker, data) == Returned(Failed(ticker, "No data"))
    ensures var o := Analyze(ticker, data);
      o.Returned? && o.analysis.Report? ==>
        && data.Closes? && |data.closes| > 0
        && o.analysis.ticker == ticker
        && o.analysis.price == Latest(data.closes)
        && o.analysis.signals == Signals(data.closes)
        && (o.analysis.status == ALERT <==> o.analysis.signals != [])
  {
  }

  /** The drawdown of the latest close from the 20-close high, computed as the check does. */
  method MeasureDrawdown(close: seq<real>) returns (drawdownPct: real)
    requires |close| > 0 && Positive(close)
    ensures drawdownPct == DrawdownPct(close)
    ensures drawdownPct <= 0.0
    ensures drawdownPct <= -5.0 <==> close[|close| - 1] <= 0.95 * MaxOf(Tail(close, 20))
  {
    DrawdownNonPositive(close);
    DrawdownFiresAtNinetyFivePercent(close);
    var latest := close[|close| - 1];
    var recentHigh := MaxOf(Tail(close, 20));
    LatestAtMostHigh(close);
    drawdownPct := PctChange(latest, recentHigh);
  }

  /** The distance of the latest close from the 50-close mean. */
  method MeasureBelowMa(close: seq<real>) returns (below50: real)
    requires |close| >= 50 && Positive(close)
    ensures below50 == BelowMaPct(close)
    ensures below50 <= -3.0 <==> close[|close| - 1] <= 0.97 * Sma(close, 50, |close|)
  {
    MaFiresAtNinetySevenPercent(close);
    var n := |close|;
    var sma50 := Sma(close, 50, n);
    below50 := PctChange(close[n - 1], sma50);
  }

  /** Whether the 20-close mean crossed below the 50-close mean at the latest close. */
  method MeasureCross(close: seq<real>) returns (cross: bool)
    requires |close| > 0 && Positive(close)
    ensures cross == CrossFires(close)
    ensures cross <==> var n := |close|;
      n >= 51 && Sma(close, 20, n) < Sma(close, 50, n) && Sma(close, 20, n - 1) >= Sma(close, 50, n - 1)
  {
    CrossNeedsFiftyOne(close);
    var n := |close|;
    cross := false;
    if DefinedCount(n, 20) > 1 && DefinedCount(n, 50) > 1 {
      var todayBear := Sma(close, 20, n) < Sma(close, 50, n);
      var yestBull := Sma(close, 20, n - 1) >= Sma(close, 50, n - 1);
      cross := todayBear && yestBull;
    }
  }

  /** The change from the previous close to the latest. */
  method MeasureGap(close: seq<real>) returns (gap: real)
    requires |close| >= 2 && Positive(close)
    ensures gap == GapPct(close)
    ensures gap <= -3.0 <==> close[|close| - 1] <= 0.97 * close[|close| - 2]
  {
    GapFiresAtNinetySevenPercent(close);
    var n := |close|;
    var prev := close[n - 2];
    gap := PctChange(close[n - 1], prev);
  }

  /** Check 1: appends a Drawdown signal when the drawdown is 5% or more. */
  method RunDrawdownCheck(close: seq<real>, signals: seq<Signal>) returns (r: seq<Signal>)
    requires |close| > 0 && Positive(close)
    ensures r == DrawdownCheck(signals, DrawdownPct(close))
  {
    var drawdownPct := MeasureDrawdown(close);
    r := signals;
    if drawdownPct <= -5.0 {
      r := r + [Drawdown(drawdownPct)];
    }
  }

  /** Check 2: skipped while the 50-close mean is undefined; appends when the close is 3% or more below it. */
  method RunMaCheck(close: seq<real>, signals: seq<Signal>) returns (r: seq<Signal>)
    requires |close| > 0 && Positive(close)
    ensures r == MaCheck(signals, BelowMaMeasure(close))
  {
    r := signals;
    if |close| >= 50 {
      var below50 := MeasureBelowMa(close);
      if below50 <= -3.0 {
        r := r + [BelowMA(below50)];
      }
    }
  }

  /** Check 3: appends Cross on a bearish cross of the 20- and 50-close means. */
  method RunCrossCheck(close: seq<real>, signals: seq<Signal>) returns (r: seq<Signal>)
    requires |close| > 0 && Positive(close)
    ensures r == CrossCheck(signals, CrossFires(close))
  {
    var cross := MeasureCross(close);
    r := signals;
    if cross {
      r := r + [Cross];
    }
  }

  /** Check 4: skipped without a previous close; appends on a fall of 3% or more from it. */
  method RunGapCheck(close: seq<real>, signals: seq<Signal>) returns (r: seq<Signal>)
    requires |close| > 0 && Positive(close)
    ensures r == GapCheck(signals, GapMeasure(close))
  {
    r := signals;
    if |close| >= 2 {
      var gap := MeasureGap(close);
      if gap <= -3.0 {
        r := r + [GapDown(gap)];
      }
    }
  }

  /** Analyses one ticker: the download's outcome, then the four checks in order on its closes. */
  method AnalyzeTicker(ticker: string, data: Download) returns (o: Outcome)
    requires PositiveData(data)
    ensures o == Analyze(ticker, data)
  {
    if data.NoData? {
      return Returned(Failed(ticker, "No data"));
    }
    if data.Raises? {
      return Raised(data.message);
    }
    var close := data.closes;
    var n := |close|;
    if n == 0 {
      return Raised(OutOfBoundsMessage);
    }
    var latest := close[n - 1];
    var signals := RunDrawdownCheck(close, []);
    signals := RunMaCheck(close, signals);
    signals := RunCrossCheck(close, signals);
    signals := RunGapCheck(close, signals);
    var status := if |signals| == 0 then OK else ALERT;
    o := Returned(Report(ticker, latest, signals, status));
  }

  /** The universe entry of a ticker: its analysis, or its exception turned into an error entry. */
  function Entry(ticker: string, o: Outcome): Analysis
  {
    match o
    case Returned(a) => a
    case Raised(message) => Failed(ticker, message)
  }

  /** Every entry carries the ticker it was computed for. */
  lemma EntryCarriesTicker(ticker: string, data: Download)
    requires PositiveData(data)
    ensures Entry(ticker, Analyze(ticker, data)).ticker == ticker
  {
  }

  /**
   * One entry per ticker, in input order; each entry depends only on its own
   * ticker's download, so a failing ticker affects no other entry.
   */
  method AnalyzeUniverse(tickers: seq<string>, download: string -> Download) returns (out: seq<Analysis>)
    requires forall i :: 0 <= i < |tickers| ==> PositiveData(download(tickers[i]))
    ensures |out| == |tickers|
    ensures forall i :: 0 <= i < |tickers| ==>
      out[i] == Entry(tickers[i], Analyze(tickers[i], download(tickers[i])))
  {
    out := [];
    for i := 0 to |tickers|
      invariant |out| == i
      invariant forall j :: 0 <= j < i ==> out[j] == Entry(tickers[j], Analyze(tickers[j], download(tickers[j])))
    {
      var t := tickers[i];
      var o := AnalyzeTicker(t, download(t));
      match o
      case Returned(a) =>
        out := out + [a];
      case Raised(message) =>
        out := out + [Failed(t, message)];
    }
  }
}
