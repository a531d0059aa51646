/**
 * One run of the scheduled job: load the CRI history, score today's inputs
 * against the past CRI values, append the new row and save the most recent
 * 365 rows. Reading and writing the history file, fetching the inputs, the
 * clock and the notification are outside the model: the stored history, the
 * inputs and the timestamp come in as parameters, the saved history goes out.
 */
module Run {
  import opened Wrappers
  import opened Scoring

  /** How many rows the history file keeps. */
  const HistoryCap: nat := 365

  /** One history row, as written by a run. */
  datatype Row = Row(
    ts: string,
    inputs: map<string, real>,
    scores: map<string, real>,
    cri: real,
    state: State,
    details: Details)

  /** The history a run starts from: the stored rows, or none when there is no history file yet. */
  function LoadedHistory(stored: Option<seq<Row>>): (hist: seq<Row>)
    ensures stored.None? ==> hist == []
    ensures stored.Some? ==> hist == stored.value
  {
    stored.GetOr([])
  }

  /** What is written back: the last `HistoryCap` rows, or all of them when there are fewer. */
  function SavedHistory(hist: seq<Row>): (saved: seq<Row>)
    ensures |saved| == if |hist| <= HistoryCap then |hist| else HistoryCap
    ensures saved == hist[|hist| - |saved|..]
  {
    if |hist| <= HistoryCap then hist else hist[|hist| - HistoryCap..]
  }

  /** The CRI of every row, in row order. */
  function CriValues(hist: seq<Row>): (cris: seq<real>)
    ensures |cris| == |hist|
    ensures forall i :: 0 <= i < |hist| ==> cris[i] == hist[i].cri
  {
    seq(|hist|, i requires 0 <= i < |hist| => hist[i].cri)
  }

  /** The past CRI values handed to the scorer: none for an empty history. */
  function PrevCri(hist: seq<Row>): (prev: Option<seq<real>>)
    ensures prev.None? <==> |hist| == 0
    ensures prev.Some? ==> prev.value == CriValues(hist)
  {
    if |hist| > 0 then Some(CriValues(hist)) else None
  }

  /** A history that fits is saved unchanged. */
  lemma ShortHistorySavedUnchanged(hist: seq<Row>)
    requires |hist| <= HistoryCap
    ensures SavedHistory(hist) == hist
  {
  }

  /** A longer history loses its oldest rows first: of 400 rows, the first 35 go. */
  lemma OldestRowsDroppedFirst(hist: seq<Row>)
    requires |hist| == 400
    ensures SavedHistory(hist) == hist[35..]
  {
  }

  /** Saving what was saved changes nothing. */
  lemma SavedHistoryIdempotent(hist: seq<Row>)
    ensures SavedHistory(SavedHistory(hist)) == SavedHistory(hist)
  {
  }

  /** The row a run appends is the last saved row, so it is never the one dropped. */
  lemma NewRowIsKept(hist: seq<Row>, row: Row)
    ensures |SavedHistory(hist + [row])| > 0
    ensures SavedHistory(hist + [row])[|SavedHistory(hist + [row])| - 1] == row
  {
    var h := hist + [row];
    var saved := SavedHistory(h);
    assert saved[|saved| - 1] == h[|h| - 1];
  }

  /**
   * Truncating at every save gives the same file as truncating once: a run on
   * the saved history saves what a run on the whole history would have saved.
   */
  lemma SaveEachRunAgrees(hist: seq<Row>, row: Row)
    ensures SavedHistory(SavedHistory(hist) + [row]) == SavedHistory(hist + [row])
  {
    var s := SavedHistory(hist);
    if |hist| > HistoryCap {
      var a := s + [row];
      var b := hist + [row];
      assert |a| == HistoryCap + 1;
      assert a[1..] == b[|b| - HistoryCap..];
    }
  }

  /**
   * The velocity boost looks back seven values, and the saved window keeps at
   * least seven rows whenever there were seven, so truncation never changes it.
   */
  lemma TruncationKeepsVelocityBoost(hist: seq<Row>, raw: real, table: seq<(real, real)>)
    ensures VelocityBoost(raw, PrevCri(SavedHistory(hist)), table) == VelocityBoost(raw, PrevCri(hist), table)
  {
    var s := SavedHistory(hist);
    if |hist| >= 7 {
      assert s[|s| - 7] == hist[|hist| - 7];
      assert CriValues(s)[|s| - 7] == CriValues(hist)[|hist| - 7];
    }
  }

  /**
   * One run: load the history, score the inputs against its CRI values, build
   * the row from the result, append it, and save the most recent rows.
   */
  method RunOnce(cfg: Config, stored: Option<seq<Row>>, inputs: map<string, real>, now: string)
    returns (saved: seq<Row>, row: Row)
    requires ValidConfig(cfg) && InputsComplete(inputs)
    ensures var res := ScoreOf(cfg, inputs, PrevCri(LoadedHistory(stored)));
      row == Row(now, inputs, res.scores, res.cri, res.state, res.details)
    ensures saved == SavedHistory(LoadedHistory(stored) + [row])
  {
    var hist: seq<Row> := [];
    if stored.Some? {
      hist := stored.value;
    }
    var prevCri := if |hist| > 0 then Some(CriValues(hist)) else None;
    var res := ComputeScores(cfg, inputs, prevCri);
    row := Row(now, inputs, res.scores, res.cri, res.state, res.details);
    hist := hist + [row];
    saved := SavedHistory(hist);
  }

  /** The next run sees this run's CRI as the latest past value. */
  lemma NextRunSeesThisCri(hist: seq<Row>, row: Row)
    ensures var prev := PrevCri(SavedHistory(hist + [row]));
      prev.Some? && prev.value[|prev.value| - 1] == row.cri
  {
    NewRowIsKept(hist, row);
  }
}
