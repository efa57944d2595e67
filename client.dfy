/**
 * The dashboard bookkeeping of `FederatedClient`
 * (MedAi-Assistant/fl-backend/client/client.py): upload counters, a bounded list
 * of the most recent analysis results, newest first, and the diagnosis lookup.
 */
module Client {
  import opened Wrappers
  import opened Diagnosis
  import Server

  /** How many recent analysis results the dashboard keeps (client.py:192). */
  const RecentCapacity: nat := 100

  /**
   * The list after one result is recorded (client.py:192-194): when it already
   * holds 100 or more entries the oldest, the last, is dropped; the new result is
   * put in front.
   */
  function PushRecent(recent: seq<AnalysisResult>, r: AnalysisResult): (next: seq<AnalysisResult>)
    ensures next != [] && next[0] == r
    ensures |recent| >= RecentCapacity ==> next[1..] == recent[..|recent| - 1]
    ensures |recent| < RecentCapacity ==> next[1..] == recent
  {
    [r] + (if |recent| >= RecentCapacity then recent[..|recent| - 1] else recent)
  }

  /** The list after recording the results `rs`, oldest first, into an empty list. */
  function Replay(rs: seq<AnalysisResult>): seq<AnalysisResult> {
    if rs == [] then [] else PushRecent(Replay(rs[..|rs| - 1]), rs[|rs| - 1])
  }

  /** How many of `n` recorded results the list still holds. */
  function Kept(n: nat): nat {
    if n <= RecentCapacity then n else RecentCapacity
  }

  /**
   * After any sequence of recorded results, starting from the empty list, the list
   * holds exactly the last `min(n, 100)` of them, newest first: it never exceeds
   * 100 entries, and its entry `i` is the result recorded `i` places before the
   * latest, so nothing in the window is lost or reordered.
   */
  lemma {:induction false} ReplayIsNewestFirstWindow(rs: seq<AnalysisResult>)
    ensures |Replay(rs)| == Kept(|rs|) <= RecentCapacity
    ensures forall i :: 0 <= i < |Replay(rs)| ==> Replay(rs)[i] == rs[|rs| - 1 - i]
  {
    if rs != [] {
      var k := |rs| - 1;
      var prev := rs[..k];
      ReplayIsNewestFirstWindow(prev);
      var next := Replay(rs);
      assert next == PushRecent(Replay(prev), rs[k]);
      forall i | 0 <= i < |next|
        ensures next[i] == rs[|rs| - 1 - i]
      {
        if i > 0 {
          assert next[i] == Replay(prev)[i - 1];
        }
      }
    }
  }

  /**
   * `_get_diagnosis` on the client (client.py:164-180): the same table as the
   * server's, but indexed directly, so an index without a label raises `KeyError`
   * just as an unknown modality does.
   */
  function GetDiagnosis(prediction: int, imageType: string): (r: Option<string>)
    ensures r.Some? <==> Labels(imageType).Some? && 0 <= prediction < 4
    ensures r.Some? ==> r.value == Labels(imageType).value[prediction] && r.value != "Unknown"
  {
    match Labels(imageType)
    case None => None
    case Some(table) => if prediction in table then Some(table[prediction]) else None
  }

  /**
   * The client and the server agree on every label the client can produce; where
   * the client raises for a known modality the server answers "Unknown", and for an
   * unknown modality both raise.
   */
  lemma ClientAndServerDiagnosesAgree(prediction: int, imageType: string)
    ensures GetDiagnosis(prediction, imageType).Some? ==>
      Server.GetDiagnosis(prediction, imageType) == Success(GetDiagnosis(prediction, imageType).value)
    ensures GetDiagnosis(prediction, imageType).None? && Labels(imageType).Some? ==>
      Server.GetDiagnosis(prediction, imageType) == Success("Unknown")
    ensures Labels(imageType).None? ==>
      GetDiagnosis(prediction, imageType).None? && Server.GetDiagnosis(prediction, imageType).Failure?
  {
  }

  /** The `metrics` dictionary the dashboard reads (client.py:35-40). */
  class DashboardMetrics {
    var uploadsThisWeek: int
    var analysesCompleted: int
    var accuracyRate: real
    var recentUploads: seq<AnalysisResult>

    ghost predicate Valid()
      reads this
    {
      |recentUploads| <= RecentCapacity
    }

    constructor ()
      ensures Valid()
      ensures uploadsThisWeek == 0 && analysesCompleted == 0 && accuracyRate == 0.0 && recentUploads == []
    {
      uploadsThisWeek := 0;
      analysesCompleted := 0;
      accuracyRate := 0.0;
      recentUploads := [];
    }
  }

  /** The part of `FederatedClient` that keeps the dashboard metrics. */
  class FederatedClient {
    const clientId: string
    const metrics: DashboardMetrics

    constructor (clientId: string)
      ensures this.clientId == clientId && fresh(metrics) && metrics.Valid()
      ensures metrics.uploadsThisWeek == 0 && metrics.analysesCompleted == 0
      ensures metrics.accuracyRate == 0.0 && metrics.recentUploads == []
    {
      this.clientId := clientId;
      metrics := new DashboardMetrics();
    }

    /**
     * `get_metrics` (client.py:182-184) hands out the live dictionary, not a copy:
     * later updates are visible through what it returned.
     */
    function GetMetrics(): (m: DashboardMetrics)
      reads this
      ensures m == metrics
    {
      metrics
    }

    /**
     * `_update_metrics` (client.py:186-194): one more upload and one more analysis,
     * and the result recorded in front of the recent list; the accuracy is left alone.
     */
    method UpdateMetrics(result: AnalysisResult)
      requires metrics.Valid()
      modifies metrics
      ensures metrics.Valid()
      ensures metrics.uploadsThisWeek == old(metrics.uploadsThisWeek) + 1
      ensures metrics.analysesCompleted == old(metrics.analysesCompleted) + 1
      ensures metrics.accuracyRate == old(metrics.accuracyRate)
      ensures metrics.recentUploads == PushRecent(old(metrics.recentUploads), result)
    {
      metrics.uploadsThisWeek := metrics.uploadsThisWeek + 1;
      metrics.analysesCompleted := metrics.analysesCompleted + 1;
      var recent := metrics.recentUploads;
      if |recent| >= RecentCapacity {
        recent := recent[..|recent| - 1];
      }
      metrics.recentUploads := [result] + recent;
    }
  }
}
