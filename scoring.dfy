/**
 * The Crash Risk Index (CRI) scoring engine: banded per-indicator scores,
 * their weighted sum, the velocity and confluence boosts, and the state
 * classifier. Numbers are exact reals.
 */
module Scoring {
  import opened Wrappers

  /** One row of a band table: the half-open interval [lo, hi) and its score. */
  datatype Band = Band(lo: real, hi: real, score: real)

  datatype State = GREEN | YELLOW | ORANGE | RED

  /** Inclusive lower bounds of the YELLOW, ORANGE and RED states. */
  datatype Thresholds = Thresholds(yellow: real, orange: real, red: real)

  /**
   * The configuration document. `velocityBoost` lists the (threshold, amount)
   * entries of the velocity table in the order the document gives them.
   */
  datatype Config = Config(
    bands: map<string, seq<Band>>,
    weights: map<string, real>,
    velocityBoost: seq<(real, real)>,
    hardTriggers: seq<string>,
    confluenceBoost: real,
    thresholds: Thresholds)

  datatype Details = Details(velBoost: real, confBoost: real, triggers: seq<string>)

  datatype ScoreResult = ScoreResult(scores: map<string, real>, cri: real, state: State, details: Details)

  /**
   * Keys of the score mapping, in insertion order. Five of them differ from the
   * input and band-table keys they score: unemp, cpi, gdp, curve and margin read
   * unemp_yoy, cpi_yoy, gdp_qoq_annualized, curve_bps and margin_z.
   */
  const ScoreKeys: seq<string> := ["shiller", "buffett", "unemp", "cpi", "gdp", "curve", "vix", "margin"]

  /** The four trigger names, in the order they are tested. */
  const AllTriggers: seq<string> := ["curve_inverted", "vix_gt_30", "shiller_gt_35", "buffett_gt_180"]

  function Max(a: real, b: real): real { if a >= b then a else b }

  // ---------------------------------------------------------------------------
  // Band scorer
  // ---------------------------------------------------------------------------

  predicate InBand(b: Band, v: real) { b.lo <= v < b.hi }

  /** Index of the first band containing `v`, or |bands| when none does. */
  function FirstMatch(bands: seq<Band>, v: real): (i: nat)
    ensures i <= |bands|
    ensures i < |bands| ==> InBand(bands[i], v)
    ensures forall j :: 0 <= j < i ==> !InBand(bands[j], v)
  {
    if |bands| == 0 then 0
    else if InBand(bands[0], v) then 0
    else 1 + FirstMatch(bands[1..], v)
  }

  /** The score of the first matching band, falling back to the last band's score. */
  function BandScoreOf(bands: seq<Band>, v: real): real
    requires |bands| > 0
  {
    var i := FirstMatch(bands, v);
    if i < |bands| then bands[i].score else bands[|bands| - 1].score
  }

  /** Linear search with early return, as the source's loop does. */
  method BandScore(bands: seq<Band>, v: real) returns (s: real)
    requires |bands| > 0
    ensures s == BandScoreOf(bands, v)
  {
    var i := 0;
    while i < |bands|
      invariant 0 <= i <= |bands|
      invariant forall j :: 0 <= j < i ==> !InBand(bands[j], v)
    {
      if bands[i].lo <= v < bands[i].hi {
        return bands[i].score;
      }
      i := i + 1;
    }
    return bands[|bands| - 1].score;
  }

  /** The first band in list order that contains `v` decides the score. */
  lemma BandScoreFirstMatch(bands: seq<Band>, v: real, i: nat)
    requires i < |bands| && InBand(bands[i], v)
    requires forall j :: 0 <= j < i ==> !InBand(bands[j], v)
    ensures BandScoreOf(bands, v) == bands[i].score
  {
  }

  /** A value no band contains gets the last band's score. */
  lemma BandScoreFallback(bands: seq<Band>, v: real)
    requires |bands| > 0
    requires forall j :: 0 <= j < |bands| ==> !InBand(bands[j], v)
    ensures BandScoreOf(bands, v) == bands[|bands| - 1].score
  {
  }

  /** A value equal to a band's upper bound is never matched by that band. */
  lemma UpperBoundExcluded(bands: seq<Band>, k: nat)
    requires k < |bands|
    ensures FirstMatch(bands, bands[k].hi) != k
  {
  }

  /** Non-empty bands laid end to end: each band's upper bound is the next one's lower bound. */
  ghost predicate Contiguous(bands: seq<Band>)
  {
    && (forall k :: 0 <= k < |bands| ==> bands[k].lo < bands[k].hi)
    && (forall k :: 0 <= k < |bands| - 1 ==> bands[k].hi == bands[k + 1].lo)
  }

  lemma {:induction false} ContiguousAscending(bands: seq<Band>, j: nat, k: nat)
    requires Contiguous(bands) && j <= k < |bands|
    ensures bands[j].lo <= bands[k].lo && bands[j].hi <= bands[k].hi
    decreases k - j
  {
    if j < k {
      ContiguousAscending(bands, j + 1, k);
    }
  }

  /** In a contiguous table a shared boundary is scored by the band it opens. */
  lemma BoundaryGoesToUpperBand(bands: seq<Band>, k: nat)
    requires Contiguous(bands) && k + 1 < |bands|
    ensures BandScoreOf(bands, bands[k].hi) == bands[k + 1].score
  {
    var v := bands[k].hi;
    forall j | 0 <= j < k + 1 ensures !InBand(bands[j], v) {
      ContiguousAscending(bands, j, k);
    }
    BandScoreFirstMatch(bands, v, k + 1);
  }

  /**
   * A value below the first lower bound of a contiguous table is scored by the
   * LAST band, not the first: the fallback does not distinguish the two ends.
   */
  lemma BelowFirstBandTakesLast(bands: seq<Band>, v: real)
    requires Contiguous(bands) && |bands| > 0 && v < bands[0].lo
    ensures BandScoreOf(bands, v) == bands[|bands| - 1].score
  {
    forall j | 0 <= j < |bands| ensures !InBand(bands[j], v) {
      ContiguousAscending(bands, 0, j);
    }
    BandScoreFallback(bands, v);
  }

  /** A value at or above the last upper bound of a contiguous table takes the last score. */
  lemma AboveLastBandTakesLast(bands: seq<Band>, v: real)
    requires Contiguous(bands) && |bands| > 0 && v >= bands[|bands| - 1].hi
    ensures BandScoreOf(bands, v) == bands[|bands| - 1].score
  {
    forall j | 0 <= j < |bands| ensures !InBand(bands[j], v) {
      ContiguousAscending(bands, j, |bands| - 1);
    }
    BandScoreFallback(bands, v);
  }

  // ---------------------------------------------------------------------------
  // State classifier
  // ---------------------------------------------------------------------------

  /** Tests RED first, then ORANGE, then YELLOW. */
  function Classify(cri: real, th: Thresholds): State
  {
    if cri >= th.red then RED
    else if cri >= th.orange then ORANGE
    else if cri >= th.yellow then YELLOW
    else GREEN
  }

  function Rank(s: State): nat
  {
    match s
    case GREEN => 0
    case YELLOW => 1
    case ORANGE => 2
    case RED => 3
  }

  predicate Ordered(th: Thresholds) { th.yellow <= th.orange <= th.red }

  /** Whether `cri` clears the bar of state `s` (every value clears GREEN's). */
  predicate Clears(cri: real, th: Thresholds, s: State)
  {
    match s
    case GREEN => true
    case YELLOW => cri >= th.yellow
    case ORANGE => cri >= th.orange
    case RED => cri >= th.red
  }

  /** Each state is decided by its own bar and by failing every higher one. */
  lemma ClassifyOrder(cri: real, th: Thresholds)
    ensures Classify(cri, th) == RED <==> cri >= th.red
    ensures Classify(cri, th) == ORANGE <==> cri < th.red && cri >= th.orange
    ensures Classify(cri, th) == YELLOW <==> cri < th.red && cri < th.orange && cri >= th.yellow
    ensures Classify(cri, th) == GREEN <==> cri < th.red && cri < th.orange && cri < th.yellow
  {
  }

  /** With ordered thresholds the state reached is the highest whose bar `cri` clears. */
  lemma ClassifyReachesIffClears(cri: real, th: Thresholds, s: State)
    requires Ordered(th)
    ensures Rank(Classify(cri, th)) >= Rank(s) <==> Clears(cri, th, s)
  {
  }

  /** With ordered thresholds the state never drops as the CRI rises. */
  lemma ClassifyMonotone(a: real, b: real, th: Thresholds)
    requires Ordered(th) && a <= b
    ensures Rank(Classify(a, th)) <= Rank(Classify(b, th))
  {
    ClassifyReachesIffClears(a, th, Classify(a, th));
    ClassifyReachesIffClears(b, th, Classify(a, th));
  }

  // ---------------------------------------------------------------------------
  // Composite aggregator
  // ---------------------------------------------------------------------------

  predicate HasKeys(m: map<string, real>, keys: seq<string>)
  {
    forall k :: k in keys ==> k in m
  }

  /** Left-to-right sum of scores[k] * w[k] over the first `n` of `keys`, starting from 0. */
  function WeightedSum(scores: map<string, real>, w: map<string, real>, keys: seq<string>, n: nat): real
    requires n <= |keys| && HasKeys(scores, keys) && HasKeys(w, keys)
  {
    if n == 0 then 0.0
    else
      var k := keys[n - 1];
      WeightedSum(scores, w, keys, n - 1) + scores[k] * w[k]
  }

  /** The raw CRI: the weighted sum over the eight score keys. */
  function RawCri(scores: map<string, real>, w: map<string, real>): real
    requires HasKeys(scores, ScoreKeys) && HasKeys(w, ScoreKeys)
  {
    WeightedSum(scores, w, ScoreKeys, |ScoreKeys|)
  }

  /** The raw CRI is exactly the eight-term weighted sum. */
  lemma RawCriExpanded(scores: map<string, real>, w: map<string, real>)
    requires HasKeys(scores, ScoreKeys) && HasKeys(w, ScoreKeys)
    ensures RawCri(scores, w) ==
      scores["shiller"] * w["shiller"] + scores["buffett"] * w["buffett"]
      + scores["unemp"] * w["unemp"] + scores["cpi"] * w["cpi"]
      + scores["gdp"] * w["gdp"] + scores["curve"] * w["curve"]
      + scores["vix"] * w["vix"] + scores["margin"] * w["margin"]
  {
    FirstFourTerms(scores, w);
    LastFourTerms(scores, w);
  }

  lemma LastFourTerms(scores: map<string, real>, w: map<string, real>)
    requires HasKeys(scores, ScoreKeys) && HasKeys(w, ScoreKeys)
    ensures WeightedSum(scores, w, ScoreKeys, 8) == WeightedSum(scores, w, ScoreKeys, 4)
      + scores["gdp"] * w["gdp"] + scores["curve"] * w["curve"]
      + scores["vix"] * w["vix"] + scores["margin"] * w["margin"]
  {
    var ks := ScoreKeys;
    assert WeightedSum(scores, w, ks, 5) == WeightedSum(scores, w, ks, 4) + scores["gdp"] * w["gdp"];
    assert WeightedSum(scores, w, ks, 6) == WeightedSum(scores, w, ks, 5) + scores["curve"] * w["curve"];
    assert WeightedSum(scores, w, ks, 7) == WeightedSum(scores, w, ks, 6) + scores["vix"] * w["vix"];
  }

  lemma FirstFourTerms(scores: map<string, real>, w: map<string, real>)
    requires HasKeys(scores, ScoreKeys) && HasKeys(w, ScoreKeys)
    ensures WeightedSum(scores, w, ScoreKeys, 4) ==
      scores["shiller"] * w["shiller"] + scores["buffett"] * w["buffett"]
      + scores["unemp"] * w["unemp"] + scores["cpi"] * w["cpi"]
  {
    var ks := ScoreKeys;
    assert WeightedSum(scores, w, ks, 1) == scores["shiller"] * w["shiller"];
    assert WeightedSum(scores, w, ks, 2) == WeightedSum(scores, w, ks, 1) + scores["buffett"] * w["buffett"];
    assert WeightedSum(scores, w, ks, 3) == WeightedSum(scores, w, ks, 2) + scores["unemp"] * w["unemp"];
  }

  /** Weights under keys outside `keys` have no effect on the sum. */
  lemma {:induction false} WeightedSumIgnoresOtherWeights(
    scores: map<string, real>, w1: map<string, real>, w2: map<string, real>, keys: seq<string>, n: nat)
    requires n <= |keys| && HasKeys(scores, keys) && HasKeys(w1, keys) && HasKeys(w2, keys)
    requires forall k :: k in keys ==> w1[k] == w2[k]
    ensures WeightedSum(scores, w1, keys, n) == WeightedSum(scores, w2, keys, n)
  {
    if n > 0 {
      WeightedSumIgnoresOtherWeights(scores, w1, w2, keys, n - 1);
    }
  }

  function ScaleWeights(w: map<string, real>, c: real): (r: map<string, real>)
    ensures r.Keys == w.Keys
    ensures forall k :: k in r ==> r[k] == c * w[k]
  {
    map k | k in w :: c * w[k]
  }

  /** No normalisation: scaling every weight by `c` scales the sum by `c`. */
  lemma {:induction false} WeightedSumScales(
    scores: map<string, real>, w: map<string, real>, keys: seq<string>, n: nat, c: real)
    requires n <= |keys| && HasKeys(scores, keys) && HasKeys(w, keys)
    ensures WeightedSum(scores, ScaleWeights(w, c), keys, n) == c * WeightedSum(scores, w, keys, n)
  {
    if n > 0 {
      var k := keys[n - 1];
      WeightedSumScales(scores, w, keys, n - 1, c);
      calc {
        WeightedSum(scores, ScaleWeights(w, c), keys, n);
        WeightedSum(scores, ScaleWeights(w, c), keys, n - 1) + scores[k] * (c * w[k]);
        c * WeightedSum(scores, w, keys, n - 1) + c * (scores[k] * w[k]);
      }
    }
  }

  // ---------------------------------------------------------------------------
  // Per-indicator scores
  // ---------------------------------------------------------------------------

  /** A non-empty band table for each of the eight inputs. */
  predicate ValidBands(bands: map<string, seq<Band>>)
  {
    && "shiller" in bands && |bands["shiller"]| > 0
    && "buffett" in bands && |bands["buffett"]| > 0
    && "unemp_yoy" in bands && |bands["unemp_yoy"]| > 0
    && "cpi_yoy" in bands && |bands["cpi_yoy"]| > 0
    && "gdp_qoq_annualized" in bands && |bands["gdp_qoq_annualized"]| > 0
    && "curve_bps" in bands && |bands["curve_bps"]| > 0
    && "vix" in bands && |bands["vix"]| > 0
    && "margin_z" in bands && |bands["margin_z"]| > 0
  }

  predicate ValidConfig(cfg: Config)
  {
    ValidBands(cfg.bands) && HasKeys(cfg.weights, ScoreKeys)
  }

  /** A value for each of the eight inputs. */
  predicate InputsComplete(inputs: map<string, real>)
  {
    && "shiller" in inputs && "buffett" in inputs && "unemp_yoy" in inputs && "cpi_yoy" in inputs
    && "gdp_qoq_annualized" in inputs && "curve_bps" in inputs && "vix" in inputs && "margin_z" in inputs
  }

  /** The eight banded scores, each read from the input with the matching key. */
  function ScoresOf(bands: map<string, seq<Band>>, inputs: map<string, real>): (s: map<string, real>)
    requires ValidBands(bands) && InputsComplete(inputs)
    ensures HasKeys(s, ScoreKeys)
  {
    map[
      "shiller" := BandScoreOf(bands["shiller"], inputs["shiller"]),
      "buffett" := BandScoreOf(bands["buffett"], inputs["buffett"]),
      "unemp" := BandScoreOf(bands["unemp_yoy"], inputs["unemp_yoy"]),
      "cpi" := BandScoreOf(bands["cpi_yoy"], inputs["cpi_yoy"]),
      "gdp" := BandScoreOf(bands["gdp_qoq_annualized"], inputs["gdp_qoq_annualized"]),
      "curve" := BandScoreOf(bands["curve_bps"], inputs["curve_bps"]),
      "vix" := BandScoreOf(bands["vix"], inputs["vix"]),
      "margin" := BandScoreOf(bands["margin_z"], inputs["margin_z"])
    ]
  }

  /**
   * Each score reads the input, and the band table, of its own indicator: five
   * score keys are shorter than the input keys they read.
   */
  lemma ScoresReadOwnInput(bands: map<string, seq<Band>>, inputs: map<string, real>)
    requires ValidBands(bands) && InputsComplete(inputs)
    ensures var s := ScoresOf(bands, inputs);
      && s["shiller"] == BandScoreOf(bands["shiller"], inputs["shiller"])
      && s["buffett"] == BandScoreOf(bands["buffett"], inputs["buffett"])
      && s["unemp"] == BandScoreOf(bands["unemp_yoy"], inputs["unemp_yoy"])
      && s["cpi"] == BandScoreOf(bands["cpi_yoy"], inputs["cpi_yoy"])
      && s["gdp"] == BandScoreOf(bands["gdp_qoq_annualized"], inputs["gdp_qoq_annualized"])
      && s["curve"] == BandScoreOf(bands["curve_bps"], inputs["curve_bps"])
      && s["vix"] == BandScoreOf(bands["vix"], inputs["vix"])
      && s["margin"] == BandScoreOf(bands["margin_z"], inputs["margin_z"])
  {
  }

  /** A score changes only with its own input: inputs that agree on one indicator give it the same score. */
  lemma ScoreDependsOnOwnInputOnly(bands: map<string, seq<Band>>, in1: map<string, real>, in2: map<string, real>)
    requires ValidBands(bands) && InputsComplete(in1) && InputsComplete(in2)
    requires in1["unemp_yoy"] == in2["unemp_yoy"]
    ensures ScoresOf(bands, in1)["unemp"] == ScoresOf(bands, in2)["unemp"]
  {
    ScoresReadOwnInput(bands, in1);
    ScoresReadOwnInput(bands, in2);
  }

  // ---------------------------------------------------------------------------
  // Velocity booster
  // ---------------------------------------------------------------------------

  /**
   * The running maximum, from 0, of the amounts whose threshold `delta` meets,
   * over the table entries in order.
   */
  function BoostOver(delta: real, table: seq<(real, real)>): (b: real)
    ensures b >= 0.0
    ensures forall i :: 0 <= i < |table| && delta >= table[i].0 ==> b >= table[i].1
    ensures b == 0.0 || exists i :: 0 <= i < |table| && delta >= table[i].0 && b == table[i].1
  {
    if |table| == 0 then 0.0
    else
      var prefix := table[..|table| - 1];
      var last := table[|table| - 1];
      var b0 := BoostOver(delta, prefix);
      assert forall i :: 0 <= i < |prefix| ==> prefix[i] == table[i];
      if delta >= last.0 then Max(b0, last.1) else b0
  }

  /** The velocity boost: 0 without at least seven past values. */
  function VelocityBoost(raw: real, history: Option<seq<real>>, table: seq<(real, real)>): (b: real)
    ensures b >= 0.0
    ensures history.None? || |history.value| < 7 ==> b == 0.0
  {
    match history
    case None => 0.0
    case Some(h) =>
      if |h| >= 7 then BoostOver(raw - h[|h| - 7], table) else 0.0
  }

  /** A larger week-over-week change never yields a smaller boost. */
  lemma {:induction false} BoostOverMonotone(d1: real, d2: real, table: seq<(real, real)>)
    requires d1 <= d2
    ensures BoostOver(d1, table) <= BoostOver(d2, table)
  {
    if |table| > 0 {
      BoostOverMonotone(d1, d2, table[..|table| - 1]);
    }
  }

  /**
   * When the table's amounts rise with its thresholds and are non-negative, a
   * change that meets the highest threshold gets that threshold's amount.
   */
  lemma BoostOverTopThreshold(delta: real, table: seq<(real, real)>, top: nat)
    requires top < |table| && delta >= table[top].0
    requires forall i :: 0 <= i < |table| ==> table[i].0 <= table[top].0
    requires forall i, j :: 0 <= i < |table| && 0 <= j < |table| && table[i].0 <= table[j].0 ==>
      table[i].1 <= table[j].1
    requires forall i :: 0 <= i < |table| ==> table[i].1 >= 0.0
    ensures BoostOver(delta, table) == table[top].1
  {
    var b := BoostOver(delta, table);
    assert b >= table[top].1;
    if b != 0.0 {
      var i :| 0 <= i < |table| && delta >= table[i].0 && b == table[i].1;
      assert table[i].1 <= table[top].1;
    }
  }

  // ---------------------------------------------------------------------------
  // Confluence booster
  // ---------------------------------------------------------------------------

  predicate TriggerInputsPresent(inputs: map<string, real>)
  {
    "curve_bps" in inputs && "vix" in inputs && "shiller" in inputs && "buffett" in inputs
  }

  /** The rule behind each trigger name, evaluated on the raw inputs. */
  predicate Fired(inputs: map<string, real>, name: string)
    requires TriggerInputsPresent(inputs)
  {
    if name == "curve_inverted" then inputs["curve_bps"] < 0.0
    else if name == "vix_gt_30" then inputs["vix"] > 30.0
    else if name == "shiller_gt_35" then inputs["shiller"] > 35.0
    else if name == "buffett_gt_180" then inputs["buffett"] > 180.0
    else false
  }

  /** The elements of `names` that fired, in the order of `names`. */
  function FiredAmong(inputs: map<string, real>, names: seq<string>): seq<string>
    requires TriggerInputsPresent(inputs)
  {
    if |names| == 0 then []
    else (if Fired(inputs, names[0]) then [names[0]] else []) + FiredAmong(inputs, names[1..])
  }

  /** The fired triggers, appended one test at a time. */
  function Triggers(inputs: map<string, real>): seq<string>
    requires TriggerInputsPresent(inputs)
  {
    (if inputs["curve_bps"] < 0.0 then ["curve_inverted"] else [])
    + (if inputs["vix"] > 30.0 then ["vix_gt_30"] else [])
    + (if inputs["shiller"] > 35.0 then ["shiller_gt_35"] else [])
    + (if inputs["buffett"] > 180.0 then ["buffett_gt_180"] else [])
  }

  predicate Distinct(names: seq<string>)
  {
    forall i, j :: 0 <= i < j < |names| ==> names[i] != names[j]
  }

  /** Filtering keeps exactly the fired names, in order, and keeps them distinct. */
  lemma {:induction false} FiredAmongExact(inputs: map<string, real>, names: seq<string>)
    requires TriggerInputsPresent(inputs)
    ensures |FiredAmong(inputs, names)| <= |names|
    ensures forall name :: name in FiredAmong(inputs, names) <==> name in names && Fired(inputs, name)
    ensures Distinct(names) ==> Distinct(FiredAmong(inputs, names))
  {
    if |names| > 0 {
      var rest := names[1..];
      FiredAmongExact(inputs, rest);
      forall name ensures name in names <==> name == names[0] || name in rest {
        assert names == [names[0]] + rest;
      }
      if Distinct(names) {
        assert names[0] !in rest;
        var f := FiredAmong(inputs, names);
        var head := if Fired(inputs, names[0]) then [names[0]] else [];
        assert f == head + FiredAmong(inputs, rest);
        forall i, j | 0 <= i < j < |f| ensures f[i] != f[j] {
          if i < |head| {
            assert f[j] in FiredAmong(inputs, rest);
          } else {
            assert f[i] == FiredAmong(inputs, rest)[i - |head|];
            assert f[j] == FiredAmong(inputs, rest)[j - |head|];
          }
        }
      }
    }
  }

  /** The trigger list is the fired rules taken in the fixed order of AllTriggers. */
  lemma TriggersInOrder(inputs: map<string, real>)
    requires TriggerInputsPresent(inputs)
    ensures Triggers(inputs) == FiredAmong(inputs, AllTriggers)
  {
    var a := AllTriggers;
    var p0 := if Fired(inputs, a[0]) then [a[0]] else [];
    var p1 := if Fired(inputs, a[1]) then [a[1]] else [];
    var p2 := if Fired(inputs, a[2]) then [a[2]] else [];
    var p3 := if Fired(inputs, a[3]) then [a[3]] else [];
    assert a[3..][1..] == [];
    assert FiredAmong(inputs, a[3..]) == p3;
    assert a[2..][1..] == a[3..];
    assert FiredAmong(inputs, a[2..]) == p2 + p3;
    assert a[1..][1..] == a[2..];
    assert FiredAmong(inputs, a[1..]) == p1 + p2 + p3;
  }

  /**
   * The trigger list holds exactly the fired rules, each once, at most four;
   * it depends on the inputs alone.
   */
  lemma TriggersExact(inputs: map<string, real>)
    requires TriggerInputsPresent(inputs)
    ensures forall name :: name in Triggers(inputs) <==> name in AllTriggers && Fired(inputs, name)
    ensures |Triggers(inputs)| <= 4
    ensures Distinct(Triggers(inputs))
  {
    TriggersInOrder(inputs);
    FiredAmongExact(inputs, AllTriggers);
  }

  /** How many entries of `hard` (duplicates counted separately) are in `fired`. */
  function CountPresent(hard: seq<string>, fired: seq<string>): (c: nat)
    ensures c <= |hard|
  {
    if |hard| == 0 then 0
    else CountPresent(hard[..|hard| - 1], fired) + (if hard[|hard| - 1] in fired then 1 else 0)
  }

  /** Counting distributes over concatenation of the hard-trigger list. */
  lemma {:induction false} CountPresentAppend(a: seq<string>, b: seq<string>, fired: seq<string>)
    ensures CountPresent(a + b, fired) == CountPresent(a, fired) + CountPresent(b, fired)
  {
    if |b| == 0 {
      assert a + b == a;
    } else {
      CountPresentAppend(a, b[..|b| - 1], fired);
      assert (a + b)[..|a + b| - 1] == a + b[..|b| - 1];
    }
  }

  /** Every entry counts when all of them fired. */
  lemma {:induction false} CountPresentAll(hard: seq<string>, fired: seq<string>)
    requires forall i :: 0 <= i < |hard| ==> hard[i] in fired
    ensures CountPresent(hard, fired) == |hard|
  {
    if |hard| > 0 {
      CountPresentAll(hard[..|hard| - 1], fired);
    }
  }

  /** Firing more triggers never lowers the count. */
  lemma {:induction false} CountPresentMonotone(hard: seq<string>, f1: seq<string>, f2: seq<string>)
    requires forall t :: t in f1 ==> t in f2
    ensures CountPresent(hard, f1) <= CountPresent(hard, f2)
  {
    if |hard| > 0 {
      CountPresentMonotone(hard[..|hard| - 1], f1, f2);
    }
  }

  /** The flat confluence boost, applied when at least three hard triggers fired. */
  function ConfluenceBoost(cfg: Config, fired: seq<string>): real
  {
    if CountPresent(cfg.hardTriggers, fired) >= 3 then cfg.confluenceBoost else 0.0
  }

  /** The boost is all or nothing, and firing more triggers never withdraws it. */
  lemma ConfluenceBoostBinary(cfg: Config, f1: seq<string>, f2: seq<string>)
    requires forall t :: t in f1 ==> t in f2
    ensures ConfluenceBoost(cfg, f1) == 0.0 || ConfluenceBoost(cfg, f1) == cfg.confluenceBoost
    ensures ConfluenceBoost(cfg, f1) == cfg.confluenceBoost ==> ConfluenceBoost(cfg, f2) == cfg.confluenceBoost
  {
    CountPresentMonotone(cfg.hardTriggers, f1, f2);
  }

  /** All four rules fire and all four are hard triggers: the boost is applied. */
  lemma AllFourTriggersEscalate(cfg: Config)
    requires cfg.hardTriggers == AllTriggers
    ensures ConfluenceBoost(cfg, Triggers(map["curve_bps" := -10.0, "vix" := 35.0, "shiller" := 40.0, "buffett" := 190.0]))
      == cfg.confluenceBoost
  {
    var inputs := map["curve_bps" := -10.0, "vix" := 35.0, "shiller" := 40.0, "buffett" := 190.0];
    assert Triggers(inputs) == AllTriggers;
    CountPresentAll(AllTriggers, AllTriggers);
  }

  /** A hard trigger listed three times counts three times. */
  lemma RepeatedHardTriggerCountsEachTime(cfg: Config)
    requires cfg.hardTriggers == ["curve_inverted", "curve_inverted", "curve_inverted"]
    ensures ConfluenceBoost(cfg, ["curve_inverted"]) == cfg.confluenceBoost
  {
    CountPresentAll(cfg.hardTriggers, ["curve_inverted"]);
  }

  // ---------------------------------------------------------------------------
  // Rounding to two decimals
  // ---------------------------------------------------------------------------

  /** Round to the nearest hundredth, ties to the even hundredth. */
  function Round2(x: real): (r: real)
    ensures -1.0 / 200.0 <= r - x <= 1.0 / 200.0
    ensures (r * 100.0).Floor as real == r * 100.0
  {
    var y := x * 100.0;
    var f := y.Floor;
    var frac := y - f as real;
    var n := if frac < 0.5 then f
             else if frac > 0.5 then f + 1
             else if f % 2 == 0 then f else f + 1;
    var r := n as real / 100.0;
    assert r * 100.0 == n as real;
    assert (r * 100.0).Floor == n;
    r
  }

  /** A value that already has two decimals is left unchanged. */
  lemma Round2Exact(k: int)
    ensures Round2(k as real / 100.0) == k as real / 100.0
  {
    var y := (k as real / 100.0) * 100.0;
    assert y == k as real;
    assert y.Floor == k;
  }

  // ---------------------------------------------------------------------------
  // The scoring pipeline
  // ---------------------------------------------------------------------------

  /** Raw sum, plus velocity boost, plus confluence boost, before rounding. */
  function Total(cfg: Config, inputs: map<string, real>, history: Option<seq<real>>): real
    requires ValidConfig(cfg) && InputsComplete(inputs)
  {
    var raw := RawCri(ScoresOf(cfg.bands, inputs), cfg.weights);
    raw + VelocityBoost(raw, history, cfg.velocityBoost) + ConfluenceBoost(cfg, Triggers(inputs))
  }

  /** The result of one scoring run. */
  function ScoreOf(cfg: Config, inputs: map<string, real>, history: Option<seq<real>>): ScoreResult
    requires ValidConfig(cfg) && InputsComplete(inputs)
  {
    var scores := ScoresOf(cfg.bands, inputs);
    var raw := RawCri(scores, cfg.weights);
    var triggers := Triggers(inputs);
    var details := Details(VelocityBoost(raw, history, cfg.velocityBoost), ConfluenceBoost(cfg, triggers), triggers);
    var total := Total(cfg, inputs, history);
    ScoreResult(scores, Round2(total), Classify(total, cfg.thresholds), details)
  }

  /**
   * The state is classified on the unrounded total; only the reported CRI is
   * rounded, and it lies within half a hundredth of that total. The velocity
   * boost is measured on the raw sum, before either boost.
   */
  lemma ScoreOfPipeline(cfg: Config, inputs: map<string, real>, history: Option<seq<real>>)
    requires ValidConfig(cfg) && InputsComplete(inputs)
    ensures var r := ScoreOf(cfg, inputs, history);
      var raw := RawCri(r.scores, cfg.weights);
      && r.details.velBoost == VelocityBoost(raw, history, cfg.velocityBoost)
      && r.state == Classify(raw + r.details.velBoost + r.details.confBoost, cfg.thresholds)
      && -1.0 / 200.0 <= r.cri - (raw + r.details.velBoost + r.details.confBoost) <= 1.0 / 200.0
  {
  }

  /** With a non-negative confluence amount, the boosts can only raise the state. */
  lemma BoostsNeverLowerState(cfg: Config, inputs: map<string, real>, history: Option<seq<real>>)
    requires ValidConfig(cfg) && InputsComplete(inputs)
    requires Ordered(cfg.thresholds) && cfg.confluenceBoost >= 0.0
    ensures Rank(ScoreOf(cfg, inputs, history).state)
      >= Rank(Classify(RawCri(ScoresOf(cfg.bands, inputs), cfg.weights), cfg.thresholds))
  {
    var raw := RawCri(ScoresOf(cfg.bands, inputs), cfg.weights);
    assert ConfluenceBoost(cfg, Triggers(inputs)) >= 0.0;
    ClassifyMonotone(raw, Total(cfg, inputs, history), cfg.thresholds);
  }

  /**
   * Because the state uses the unrounded total, a reported CRI equal to the RED
   * threshold can come with the state ORANGE.
   */
  lemma RoundedCriAtRedCanBeOrange()
    ensures Round2(2.999) == 3.0
    ensures Classify(2.999, Thresholds(1.0, 2.0, 3.0)) == ORANGE
  {
    var y := 2.999 * 100.0;
    assert y == 299.9;
    assert y.Floor == 299;
  }

  /** The eight band lookups of one run, collected into the score mapping. */
  method ScoreIndicators(b: map<string, seq<Band>>, inputs: map<string, real>) returns (scores: map<string, real>)
    requires ValidBands(b) && InputsComplete(inputs)
    ensures scores == ScoresOf(b, inputs)
  {
    var shiller := BandScore(b["shiller"], inputs["shiller"]);
    var buffett := BandScore(b["buffett"], inputs["buffett"]);
    var unemp := BandScore(b["unemp_yoy"], inputs["unemp_yoy"]);
    var cpi := BandScore(b["cpi_yoy"], inputs["cpi_yoy"]);
    var gdp := BandScore(b["gdp_qoq_annualized"], inputs["gdp_qoq_annualized"]);
    var curve := BandScore(b["curve_bps"], inputs["curve_bps"]);
    var vix := BandScore(b["vix"], inputs["vix"]);
    var margin := BandScore(b["margin_z"], inputs["margin_z"]);
    scores := map[
      "shiller" := shiller, "buffett" := buffett, "unemp" := unemp, "cpi" := cpi,
      "gdp" := gdp, "curve" := curve, "vix" := vix, "margin" := margin];
  }

  /** The running maximum, from 0, over the velocity table entries `delta7` meets. */
  method VelocityMax(delta7: real, table: seq<(real, real)>) returns (velBoost: real)
    ensures velBoost == BoostOver(delta7, table)
  {
    velBoost := 0.0;
    var i := 0;
    while i < |table|
      invariant 0 <= i <= |table|
      invariant velBoost == BoostOver(delta7, table[..i])
    {
      var (k, v) := table[i];
      assert table[..i + 1][..i] == table[..i];
      if delta7 >= k {
        velBoost := Max(velBoost, v);
      }
      i := i + 1;
    }
    assert table[..i] == table;
  }

  /** Appends each trigger whose rule holds, in the fixed test order. */
  method FireTriggers(inputs: map<string, real>) returns (triggers: seq<string>)
    requires TriggerInputsPresent(inputs)
    ensures triggers == Triggers(inputs)
  {
    triggers := [];
    if inputs["curve_bps"] < 0.0 { triggers := triggers + ["curve_inverted"]; }
    if inputs["vix"] > 30.0 { triggers := triggers + ["vix_gt_30"]; }
    if inputs["shiller"] > 35.0 { triggers := triggers + ["shiller_gt_35"]; }
    if inputs["buffett"] > 180.0 { triggers := triggers + ["buffett_gt_180"]; }
  }

  /** The velocity block: no boost without seven past values, else the running maximum over the table. */
  method VelocityStep(raw: real, history: Option<seq<real>>, table: seq<(real, real)>) returns (velBoost: real)
    ensures velBoost == VelocityBoost(raw, history, table)
  {
    velBoost := 0.0;
    if history.Some? && |history.value| >= 7 {
      var h := history.value;
      var delta7 := raw - h[|h| - 7];
      velBoost := VelocityMax(delta7, table);
    }
  }

  /** One scoring run, building the result step by step. */
  method ComputeScores(cfg: Config, inputs: map<string, real>, history: Option<seq<real>>)
    returns (res: ScoreResult)
    requires ValidConfig(cfg) && InputsComplete(inputs)
    ensures res == ScoreOf(cfg, inputs, history)
  {
    var scores := ScoreIndicators(cfg.bands, inputs);
    var cri := RawCri(scores, cfg.weights);

    var velBoost := VelocityStep(cri, history, cfg.velocityBoost);
    cri := cri + velBoost;

    var conf := 0.0;
    var triggers := FireTriggers(inputs);
    if CountPresent(cfg.hardTriggers, triggers) >= 3 {
      conf := cfg.confluenceBoost;
    }
    cri := cri + conf;

    assert conf == ConfluenceBoost(cfg, Triggers(inputs));
    assert cri == Total(cfg, inputs, history);
    var state := Classify(cri, cfg.thresholds);
    res := ScoreResult(scores, Round2(cri), state, Details(velBoost, conf, triggers));
  }
}
