/**
 * The in-memory part of `MetricsLogger` (fl-backend/client/metrics_logger.py): the
 * per-round records it keeps, the formatting of one modality's metrics, and the
 * summary the dashboard reads.
 *
 * The round metrics a trainer reports are nested dictionaries: modality, then
 * phase, then metric name. A formatted phase always carries its three metrics, so
 * it is modelled as a record.
 */
module MetricsLogger {

  /** One phase's metrics as reported: metric name to value. */
  type PhaseMetrics = map<string, real>
  /** One modality's metrics as reported: phase to its metrics. */
  type ModalityMetrics = map<string, PhaseMetrics>
  /** One round's metrics as reported: modality to its metrics. */
  type RoundMetrics = map<string, ModalityMetrics>

  /** A formatted phase: `{'loss': ..., 'accuracy': ..., 'dice_score': ...}`. */
  datatype PhaseSummary = PhaseSummary(loss: real, accuracy: real, diceScore: real)

  /** A formatted modality: phase to its summary. */
  type FormattedModality = map<string, PhaseSummary>

  /** The phases the formatter copies, in the order it visits them (metrics_logger.py:66). */
  const Phases: seq<string> := ["train", "val"]

  /** `d.get(key, 0)`. */
  function GetOrZero(d: PhaseMetrics, key: string): real {
    if key in d then d[key] else 0.0
  }

  /** `d.get(key, {})`. */
  function ModalityOf(m: RoundMetrics, key: string): ModalityMetrics {
    if key in m then m[key] else map[]
  }

  /** One phase with each missing metric read as 0 (metrics_logger.py:68-72). */
  function Summarise(p: PhaseMetrics): (s: PhaseSummary)
    ensures "loss" in p ==> s.loss == p["loss"]
    ensures "accuracy" in p ==> s.accuracy == p["accuracy"]
    ensures "dice_score" in p ==> s.diceScore == p["dice_score"]
    ensures "loss" !in p ==> s.loss == 0.0
    ensures "accuracy" !in p ==> s.accuracy == 0.0
    ensures "dice_score" !in p ==> s.diceScore == 0.0
  {
    PhaseSummary(GetOrZero(p, "loss"), GetOrZero(p, "accuracy"), GetOrZero(p, "dice_score"))
  }

  /**
   * What `_format_modality_metrics` returns: exactly the phases among `train` and
   * `val` that the input has, each summarised; nothing for an empty input.
   */
  function FormatModality(mm: ModalityMetrics): (f: FormattedModality)
    ensures f.Keys == mm.Keys * {"train", "val"}
    ensures forall phase :: phase in f ==> f[phase] == Summarise(mm[phase])
  {
    map phase | phase in mm && phase in {"train", "val"} :: Summarise(mm[phase])
  }

  /** An empty input and an input with neither phase both format to the empty dictionary. */
  lemma FormatWithoutPhases(mm: ModalityMetrics)
    requires "train" !in mm && "val" !in mm
    ensures FormatModality(mm) == map[]
    ensures FormatModality(map[]) == map[]
  {
    assert FormatModality(mm).Keys == {};
  }

  /**
   * `_format_modality_metrics` (metrics_logger.py:60-73): an early return for an
   * empty input, then a loop over the two phases.
   */
  method FormatModalityMetrics(mm: ModalityMetrics) returns (formatted: FormattedModality)
    ensures formatted == FormatModality(mm)
  {
    if mm == map[] {
      return map[];
    }
    formatted := map[];
    var i := 0;
    while i < |Phases|
      invariant 0 <= i <= |Phases|
      invariant formatted.Keys == mm.Keys * set j | 0 <= j < i :: Phases[j]
      invariant forall phase :: phase in formatted ==> formatted[phase] == Summarise(mm[phase])
    {
      var phase := Phases[i];
      if phase in mm {
        formatted := formatted[phase := Summarise(mm[phase])];
      }
      i := i + 1;
    }
    assert (set j | 0 <= j < |Phases| :: Phases[j]) == {"train", "val"} by {
      assert Phases[0] == "train" && Phases[1] == "val";
    }
  }

  /** One entry of `metrics_history`: the round, its timestamp, and both modalities formatted. */
  datatype RoundRecord = RoundRecord(round: int, timestamp: string, ct: FormattedModality, mri: FormattedModality)

  /**
   * The record `log_training_metrics` builds (metrics_logger.py:47-54): the `ct`
   * and `mri` entries are always present, formatted from `{}` when the round
   * reported nothing for that modality.
   */
  function MakeRecord(roundNum: int, timestamp: string, metrics: RoundMetrics): (r: RoundRecord)
    ensures r.round == roundNum && r.timestamp == timestamp
    ensures r.ct == FormatModality(ModalityOf(metrics, "ct"))
    ensures r.mri == FormatModality(ModalityOf(metrics, "mri"))
    ensures "ct" !in metrics ==> r.ct == map[]
    ensures "mri" !in metrics ==> r.mri == map[]
  {
    RoundRecord(roundNum, timestamp, FormatModality(ModalityOf(metrics, "ct")), FormatModality(ModalityOf(metrics, "mri")))
  }

  /** A modality's two dashboard figures. */
  datatype ModalityFigures = ModalityFigures(accuracy: real, diceScore: real)

  /** What `get_training_metrics` returns. */
  datatype TrainingSummary = TrainingSummary(ct: ModalityFigures, mri: ModalityFigures, round: int)

  /** The validation accuracy and dice score of a formatted modality, 0 when it has no `val` phase. */
  function ValFigures(f: FormattedModality): (v: ModalityFigures)
    ensures "val" in f ==> v == ModalityFigures(f["val"].accuracy, f["val"].diceScore)
    ensures "val" !in f ==> v == ModalityFigures(0.0, 0.0)
  {
    if "val" in f then ModalityFigures(f["val"].accuracy, f["val"].diceScore) else ModalityFigures(0.0, 0.0)
  }

  /**
   * `get_training_metrics` (metrics_logger.py:105-125): zeros and round 0 while the
   * history is empty, otherwise the last record's round and validation figures.
   */
  function Latest(history: seq<RoundRecord>): (s: TrainingSummary)
    ensures history == [] ==> s == TrainingSummary(ModalityFigures(0.0, 0.0), ModalityFigures(0.0, 0.0), 0)
    ensures history != [] ==>
      var last := history[|history| - 1];
      s == TrainingSummary(ValFigures(last.ct), ValFigures(last.mri), last.round)
  {
    if history == [] then TrainingSummary(ModalityFigures(0.0, 0.0), ModalityFigures(0.0, 0.0), 0)
    else
      var last := history[|history| - 1];
      TrainingSummary(ValFigures(last.ct), ValFigures(last.mri), last.round)
  }

  /**
   * Right after a round has been logged, the dashboard shows that round and the
   * validation accuracy and dice score the round reported for each modality, with
   * 0 for anything not reported; the earlier history no longer matters.
   */
  lemma LatestAfterLog(history: seq<RoundRecord>, roundNum: int, timestamp: string, metrics: RoundMetrics)
    ensures var s := Latest(history + [MakeRecord(roundNum, timestamp, metrics)]);
      && s.round == roundNum
      && s.ct == ReportedFigures(ModalityOf(metrics, "ct"))
      && s.mri == ReportedFigures(ModalityOf(metrics, "mri"))
  {
  }

  /** The validation figures as reported, each 0 when missing. */
  function ReportedFigures(mm: ModalityMetrics): (v: ModalityFigures)
    ensures "val" !in mm ==> v == ModalityFigures(0.0, 0.0)
    ensures "val" in mm ==> v == ModalityFigures(GetOrZero(mm["val"], "accuracy"), GetOrZero(mm["val"], "dice_score"))
  {
    if "val" in mm then ModalityFigures(GetOrZero(mm["val"], "accuracy"), GetOrZero(mm["val"], "dice_score"))
    else ModalityFigures(0.0, 0.0)
  }

  class MetricsLogger {
    const clientId: string
    var metricsHistory: seq<RoundRecord>

    /** `__init__` (metrics_logger.py:11-25), with the history read from the metrics file given as `loaded`. */
    constructor (clientId: string, loaded: seq<RoundRecord>)
      ensures this.clientId == clientId && metricsHistory == loaded
    {
      this.clientId := clientId;
      metricsHistory := loaded;
    }

    /**
     * `log_training_metrics` (metrics_logger.py:45-58): exactly one record is
     * appended, and the records before it are left as they were. The timestamp is
     * the caller's.
     */
    method LogTrainingMetrics(roundNum: int, metrics: RoundMetrics, timestamp: string)
      modifies this
      ensures metricsHistory == old(metricsHistory) + [MakeRecord(roundNum, timestamp, metrics)]
    {
      var ct := FormatModalityMetrics(ModalityOf(metrics, "ct"));
      var mri := FormatModalityMetrics(ModalityOf(metrics, "mri"));
      var record := RoundRecord(roundNum, timestamp, ct, mri);
      metricsHistory := metricsHistory + [record];
      // Saving the history and writing the round summary to the log are not part of this model.
    }

    /** `get_training_metrics`. */
    function GetTrainingMetrics(): (s: TrainingSummary)
      reads this
      ensures s == Latest(metricsHistory)
    {
      Latest(metricsHistory)
    }
  }
}
