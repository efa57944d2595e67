/**
 * `FederatedOrchestrator` (MedAi-Assistant/fl-backend/server/orchestrator.py): the
 * registry of active clients, the choice of the clients that take part in a round,
 * and the orchestrator's own `round_in_progress` flag around the server.
 *
 * The metrics of earlier rounds come from a database call that is not part of this
 * model; each selection takes what that call returned as a parameter, `None` standing
 * for the call raising. The random draws are nondeterministic choices described only
 * by what they guarantee. A Python set is iterated in some fixed order; `ListOf`
 * fixes one such order, and every later loop over the set uses it.
 */
module Orchestrator {
  import opened Wrappers
  import opened SeqUtil
  import opened Aggregation
  import Server

  /** The constructor's defaults (orchestrator.py:13-16). */
  const DefaultMinClients: int := 3
  const DefaultSelectionFraction: real := 0.8
  const DefaultRounds: int := 100
  const DefaultTimeout: int := 300

  /** The metrics dictionary recorded for one client. */
  type ClientStats = map<string, real>

  datatype OrchestratorError =
    | NotEnoughActiveClients          // ValueError raised by select_clients
    | MetricsUnavailable              // the metrics lookup raised
    | ZeroTotalSamples                // ZeroDivisionError in the contribution term
    | InvalidSample                   // ValueError raised by random.sample or np.random.choice
    | RoundAlreadyInProgress          // 'Round already in progress'
    | NoActiveTrainingRound           // 'No active training round'
    | ServerFailed(cause: Server.ServerError)

  /** `d.get(key, default)`. */
  function Get(d: ClientStats, key: string, default: real): real {
    if key in d then d[key] else default
  }

  /** Python's `int(x)` on a float: the integer part, rounding toward zero. */
  function Truncate(x: real): (n: int)
    ensures x >= 0.0 ==> n as real <= x < n as real + 1.0
    ensures x < 0.0 ==> n as real - 1.0 < x <= n as real
  {
    if x >= 0.0 then x.Floor else -((-x).Floor)
  }

  /**
   * `max(min_clients, int(len(active_clients) * selection_fraction))`
   * (orchestrator.py:41-44): the larger of the two, with the product truncated.
   */
  function NumToSelect(active: nat, minClients: int, fraction: real): (n: int)
    ensures n >= minClients && n >= Truncate(active as real * fraction)
    ensures n == minClients || n == Truncate(active as real * fraction)
  {
    var scaled := Truncate(active as real * fraction);
    if minClients >= scaled then minClients else scaled
  }

  /**
   * Once the guard `|active| >= min_clients` has passed and the fraction lies in
   * [0, 1], the number to select is at least `min_clients` and at most the number
   * of active clients, so the draw cannot ask for more clients than there are.
   */
  lemma NumToSelectBounds(active: nat, minClients: int, fraction: real)
    requires active >= minClients && 0.0 <= fraction <= 1.0
    ensures minClients <= NumToSelect(active, minClients, fraction) <= active
    ensures NumToSelect(active, minClients, fraction) >= 0
  {
    var a := active as real;
    ProductNonNegative(a, fraction);
    ProductNonNegative(a, 1.0 - fraction);
    assert a - a * fraction == a * (1.0 - fraction);
  }

  /** Arithmetic helper: a product of non-negative reals is non-negative. */
  lemma ProductNonNegative(x: real, y: real)
    requires x >= 0.0 && y >= 0.0
    ensures x * y >= 0.0
  {
  }

  /** The product is truncated, not rounded up: 10 clients at 0.85 select 8, and 4 at 0.8 select the minimum 3. */
  lemma SelectionCountIsFloor()
    ensures NumToSelect(10, DefaultMinClients, 0.85) == 8
    ensures NumToSelect(4, DefaultMinClients, DefaultSelectionFraction) == 3
    ensures NumToSelect(20, DefaultMinClients, DefaultSelectionFraction) == 16
  {
    assert Truncate(8.5) == 8;
    assert Truncate(3.2) == 3;
    assert Truncate(16.0) == 16;
  }

  /**
   * `0.4 * data_quality + 0.4 * contribution + 0.2 * communication`
   * (orchestrator.py:58-63). When the accuracy and response rate are fractions
   * and the client's samples are part of the total, the weight is a fraction too.
   */
  function RawWeight(m: ClientStats): (w: real)
    requires Get(m, "total_samples", 1.0) != 0.0
    ensures 0.0 <= Get(m, "validation_accuracy", 0.5) <= 1.0 && 0.0 <= Get(m, "response_rate", 1.0) <= 1.0
            && 0.0 <= Get(m, "num_samples", 0.0) <= Get(m, "total_samples", 1.0)
            ==> 0.0 <= w <= 1.0
  {
    ShareIsFraction(Get(m, "num_samples", 0.0), Get(m, "total_samples", 1.0));
    0.4 * Get(m, "validation_accuracy", 0.5)
    + 0.4 * (Get(m, "num_samples", 0.0) / Get(m, "total_samples", 1.0))
    + 0.2 * Get(m, "response_rate", 1.0)
  }

  /** Arithmetic helper: a part no larger than its whole is a fraction of it. */
  lemma ShareIsFraction(part: real, whole: real)
    requires whole != 0.0
    ensures 0.0 <= part <= whole ==> 0.0 <= part / whole <= 1.0
  {
  }

  /**
   * One client's selection weight (orchestrator.py:55-64): the raw weight raised to
   * at least 0.1. A recorded `total_samples` of 0 makes the contribution term divide
   * by zero.
   */
  function SelectionWeight(m: ClientStats): (r: Result<real, OrchestratorError>)
    ensures r.Failure? <==> "total_samples" in m && m["total_samples"] == 0.0
    ensures r.Failure? ==> r.error == ZeroTotalSamples
    ensures r.Success? ==> r.value >= 0.1 && r.value >= RawWeight(m)
    ensures r.Success? ==> (r.value == 0.1 || r.value == RawWeight(m))
  {
    if Get(m, "total_samples", 1.0) == 0.0 then Failure(ZeroTotalSamples)
    else
      var w := RawWeight(m);
      Success(if 0.1 >= w then 0.1 else w)
  }

  /**
   * A client with no recorded metrics gets 0.4 * 0.5 + 0.4 * 0 + 0.2 * 1.0 = 0.4, and
   * a client whose metrics give a raw weight below 0.1 is floored at 0.1.
   */
  lemma DefaultWeights()
    ensures SelectionWeight(map[]) == Success(0.4)
    ensures SelectionWeight(map["validation_accuracy" := 0.0, "response_rate" := 0.0]) == Success(0.1)
  {
    assert RawWeight(map[]) == 0.4;
    var m := map["validation_accuracy" := 0.0, "response_rate" := 0.0];
    assert Get(m, "num_samples", 0.0) == 0.0 && Get(m, "total_samples", 1.0) == 1.0;
    assert RawWeight(m) == 0.0;
  }

  /** `client_metrics.get(client_id, {})`. */
  function StatsOf(metrics: map<string, ClientStats>, id: string): ClientStats {
    if id in metrics then metrics[id] else map[]
  }

  /** Every weight is positive and the vector sums to 1, as `np.random.choice` demands of `p`. */
  predicate IsDistribution(p: seq<real>) {
    (forall i :: 0 <= i < |p| ==> p[i] >= 0.0) && Sum(p) == 1.0
  }

  /** How many entries of `p` are positive. */
  function CountPositive(p: seq<real>): nat {
    if p == [] then 0 else CountPositive(p[..|p| - 1]) + (if p[|p| - 1] > 0.0 then 1 else 0)
  }

  /** The weights of the clients in iteration order. */
  function WeightsInOrder(order: seq<string>, weights: map<string, real>): (ws: seq<real>)
    requires forall i :: 0 <= i < |order| ==> order[i] in weights
    ensures |ws| == |order| && forall i :: 0 <= i < |ws| ==> ws[i] == weights[order[i]]
  {
    seq(|order|, i requires 0 <= i < |order| => weights[order[i]])
  }

  /** Every entry divided by `t`. */
  function Divided(xs: seq<real>, t: real): (ys: seq<real>)
    requires t != 0.0
    ensures |ys| == |xs| && forall i :: 0 <= i < |ys| ==> ys[i] == xs[i] / t
  {
    seq(|xs|, i requires 0 <= i < |xs| => xs[i] / t)
  }

  /**
   * `probs = [selection_weights[cid] / total_weight for cid in active_clients]`
   * (orchestrator.py:67-68). With no clients the comprehension is empty and
   * nothing is divided.
   */
  function Probabilities(order: seq<string>, weights: map<string, real>): (p: seq<real>)
    requires forall i :: 0 <= i < |order| ==> order[i] in weights && weights[order[i]] > 0.0
    ensures |p| == |order|
    ensures forall i :: 0 <= i < |p| ==> p[i] > 0.0
  {
    var ws := WeightsInOrder(order, weights);
    if ws == [] then [] else
      SumPositive(ws);
      Divided(ws, Sum(ws))
  }

  lemma {:induction false} SumPositive(xs: seq<real>)
    requires xs != [] && forall i :: 0 <= i < |xs| ==> xs[i] > 0.0
    ensures Sum(xs) > 0.0
  {
    if |xs| > 1 {
      SumPositive(xs[..|xs| - 1]);
    }
  }

  lemma {:induction false} SumDivided(xs: seq<real>, t: real)
    requires t != 0.0
    ensures Sum(Divided(xs, t)) == Sum(xs) / t
  {
    if xs != [] {
      var n := |xs| - 1;
      assert Divided(xs, t)[..n] == Divided(xs[..n], t);
      SumDivided(xs[..n], t);
      assert Sum(xs[..n]) / t + xs[n] / t == (Sum(xs[..n]) + xs[n]) / t;
    }
  }

  lemma {:induction false} AllPositiveCount(p: seq<real>)
    requires forall i :: 0 <= i < |p| ==> p[i] > 0.0
    ensures CountPositive(p) == |p|
  {
    if p != [] {
      AllPositiveCount(p[..|p| - 1]);
    }
  }

  /**
   * The normalised probabilities of a non-empty set of clients with positive
   * weights are all positive and sum to 1; for no clients they are the empty
   * vector, which is not a distribution.
   */
  lemma ProbabilitiesAreDistribution(order: seq<string>, weights: map<string, real>)
    requires forall i :: 0 <= i < |order| ==> order[i] in weights && weights[order[i]] > 0.0
    ensures order != [] ==> IsDistribution(Probabilities(order, weights))
    ensures forall i :: 0 <= i < |order| ==> Probabilities(order, weights)[i] > 0.0
    ensures CountPositive(Probabilities(order, weights)) == |order|
    ensures order == [] ==> !IsDistribution(Probabilities(order, weights))
  {
    var ws := WeightsInOrder(order, weights);
    if ws != [] {
      SumPositive(ws);
      var t := Sum(ws);
      SumDivided(ws, t);
      assert t / t == 1.0;
      var p := Probabilities(order, weights);
      assert forall i :: 0 <= i < |p| ==> p[i] == ws[i] / t;
      AllPositiveCount(p);
    }
  }

  /** The elements of a set in some order, once each: the order a loop over the set visits them. */
  method ListOf(s: set<string>) returns (xs: seq<string>)
    ensures Distinct(xs) && Elements(xs) == s && |xs| == |s|
  {
    xs := [];
    var rest := s;
    while rest != {}
      invariant Distinct(xs) && Elements(xs) + rest == s && Elements(xs) !! rest
      decreases rest
    {
      var x :| x in rest;
      xs := xs + [x];
      rest := rest - {x};
    }
    DistinctCardinality(xs);
  }

  /** The conditions under which a draw of `n` from `pool` raises `ValueError`. */
  predicate DrawFails(pool: seq<string>, n: int, p: Option<seq<real>>) {
    || n < 0 || n > |pool|
    || (p.Some? && (|p.value| != |pool| || !IsDistribution(p.value) || CountPositive(p.value) < n))
  }

  /**
   * `random.sample(pool, n)` when `p` is None, `np.random.choice(pool, size=n,
   * replace=False, p=p)` otherwise. Both raise `ValueError` for a size that is
   * negative or larger than the pool; numpy also refuses a `p` of the wrong length,
   * one that is not a distribution, or one with fewer positive entries than `n`.
   * Which clients are drawn is left open: the result is some `n` distinct members
   * of the pool.
   */
  method Draw(pool: seq<string>, n: int, p: Option<seq<real>>) returns (r: Option<seq<string>>)
    requires Distinct(pool)
    ensures r.None? <==> DrawFails(pool, n, p)
    ensures r.Some? ==> |r.value| == n && Distinct(r.value) && Elements(r.value) <= Elements(pool)
  {
    if DrawFails(pool, n, p) {
      return None;
    }
    DistinctCardinality(pool);
    var chosen: seq<string> := [];
    var remaining := Elements(pool);
    while |chosen| < n
      invariant |chosen| <= n
      invariant Distinct(chosen) && Elements(chosen) <= Elements(pool)
      invariant remaining <= Elements(pool) && remaining !! Elements(chosen)
      invariant |remaining| == |pool| - |chosen|
      decreases n - |chosen|
    {
      var c :| c in remaining;
      chosen := chosen + [c];
      remaining := remaining - {c};
    }
    return Some(chosen);
  }

  /**
   * The loop that fills `selection_weights` (orchestrator.py:53-64): the first
   * client whose recorded `total_samples` is 0 raises; otherwise every client in
   * the set gets its weight.
   */
  method ComputeWeights(order: seq<string>, metrics: map<string, ClientStats>)
    returns (r: Result<map<string, real>, OrchestratorError>)
    ensures r.Failure? <==> exists i :: 0 <= i < |order| && SelectionWeight(StatsOf(metrics, order[i])).Failure?
    ensures r.Failure? ==> r.error == ZeroTotalSamples
    ensures r.Success? ==> r.value.Keys == Elements(order)
    ensures r.Success? ==> forall c :: c in r.value ==> SelectionWeight(StatsOf(metrics, c)) == Success(r.value[c])
  {
    var weights: map<string, real> := map[];
    var i := 0;
    while i < |order|
      invariant 0 <= i <= |order|
      invariant weights.Keys == Elements(order[..i])
      invariant forall j :: 0 <= j < i ==> SelectionWeight(StatsOf(metrics, order[j])).Success?
      invariant forall c :: c in weights ==> SelectionWeight(StatsOf(metrics, c)) == Success(weights[c])
    {
      var w := SelectionWeight(StatsOf(metrics, order[i]));
      if w.Failure? {
        return Failure(w.error);
      }
      weights := weights[order[i] := w.value];
      assert order[..i + 1] == order[..i] + [order[i]];
      i := i + 1;
    }
    assert order[..i] == order;
    return Success(weights);
  }

  /**
   * Why `select_clients` raises, given the active set, the settings and what the
   * metrics lookup returned: too few clients; the lookup failing; with metrics, a
   * client whose `total_samples` is recorded as 0, or no clients at all (numpy's
   * `p` is then empty and sums to 0); and a size the draw refuses.
   */
  predicate SelectionFails(active: set<string>, minClients: int, fraction: real,
                           fetched: Option<map<string, ClientStats>>) {
    var n := NumToSelect(|active|, minClients, fraction);
    || |active| < minClients
    || fetched.None?
    || n < 0 || n > |active|
    || (fetched.value != map[] && active == {})
    || (fetched.value != map[] && exists c :: c in active && SelectionWeight(StatsOf(fetched.value, c)).Failure?)
  }

  /**
   * Under the usual settings (at least one client required, a fraction in [0, 1])
   * selection succeeds exactly when the lookup succeeds, enough clients are active,
   * and no active client's metrics record `total_samples` as 0.
   */
  lemma SelectionSucceeds(active: set<string>, minClients: int, fraction: real,
                          fetched: Option<map<string, ClientStats>>)
    requires minClients >= 1 && 0.0 <= fraction <= 1.0
    ensures !SelectionFails(active, minClients, fraction, fetched)
      <==> && |active| >= minClients && fetched.Some?
           && (fetched.value != map[] ==>
                 forall c :: c in active ==> SelectionWeight(StatsOf(fetched.value, c)).Success?)
  {
    if |active| >= minClients {
      NumToSelectBounds(|active|, minClients, fraction);
      assert active != {};
    }
  }

  /** What a successful `start_training_round` returns. */
  datatype RoundStart = RoundStart(round: nat, selectedClients: seq<string>, timeout: int)

  /** What `register_client` returns. */
  datatype Registration = Registration(clientId: string, totalClients: nat)

  /**
   * `register_client` (orchestrator.py:26-34) on the set of active clients: the
   * client joins the set, nobody else does, and the reply counts the clients
   * afterwards. That count grows by one only for a client not yet registered.
   */
  function Register(active: set<string>, id: string): (res: (set<string>, Registration))
    ensures id in res.0 && active <= res.0 && res.0 - active <= {id}
    ensures res.1.clientId == id
    ensures res.1.totalClients == if id in active then |active| else |active| + 1
  {
    var after := active + {id};
    assert id in active ==> after == active;
    assert id !in active ==> after - {id} == active;
    (after, Registration(id, |after|))
  }

  /** Registering a client a second time changes nothing and gives the same reply. */
  lemma RegistrationIsIdempotent(active: set<string>, id: string)
    ensures Register(Register(active, id).0, id) == Register(active, id)
  {
    var after := Register(active, id).0;
    assert after + {id} == after;
  }

  /**
   * `select_clients` as written calls `get_all_client_metrics`, which the
   * metrics operations do not define (orchestrator.py:47), so the lookup always
   * raises and every selection fails, whatever the active clients.
   */
  lemma SelectionWithoutLookupFails(active: set<string>, minClients: int, fraction: real)
    ensures SelectionFails(active, minClients, fraction, None)
  {
  }

  class FederatedOrchestrator {
    const minClients: int
    const selectionFraction: real
    const totalRounds: int
    const timeout: int
    const server: Server.FederatedServer
    var activeClients: set<string>
    var roundInProgress: bool

    ghost predicate Valid()
      reads this, server
    {
      server.Valid()
    }

    /** `__init__` (orchestrator.py:11-24): a server with the same minimum and its default threshold. */
    constructor (minClients: int, selectionFraction: real, rounds: int, timeout: int, initialModel: StateDict)
      ensures Valid() && fresh(server)
      ensures this.minClients == minClients && this.selectionFraction == selectionFraction
      ensures totalRounds == rounds && this.timeout == timeout
      ensures activeClients == {} && !roundInProgress
      ensures server.minClients == minClients && server.aggregationThreshold == Server.DefaultAggregationThreshold
      ensures server.State() == Server.ServerState(0, map[], [], false, initialModel)
    {
      this.minClients := minClients;
      this.selectionFraction := selectionFraction;
      totalRounds := rounds;
      this.timeout := timeout;
      server := new Server.FederatedServer(minClients, Server.DefaultAggregationThreshold, initialModel);
      activeClients := {};
      roundInProgress := false;
    }

    /** `register_client` (orchestrator.py:26-34). */
    method RegisterClient(clientId: string) returns (r: Registration)
      modifies this`activeClients
      ensures (activeClients, r) == Register(old(activeClients), clientId)
    {
      activeClients := activeClients + {clientId};
      return Registration(clientId, |activeClients|);
    }

    /**
     * `select_clients` (orchestrator.py:36-78). Without recorded metrics the
     * clients are sampled uniformly, otherwise with the normalised weights; in
     * both cases the result is `NumToSelect` distinct active clients.
     */
    method SelectClients(fetched: Option<map<string, ClientStats>>) returns (r: Result<seq<string>, OrchestratorError>)
      ensures r.Failure? <==> SelectionFails(activeClients, minClients, selectionFraction, fetched)
      ensures r == Failure(NotEnoughActiveClients) <==> |activeClients| < minClients
      ensures |activeClients| >= minClients && fetched.None? ==> r == Failure(MetricsUnavailable)
      ensures r.Success? ==>
        && |r.value| == NumToSelect(|activeClients|, minClients, selectionFraction)
        && Distinct(r.value) && Elements(r.value) <= activeClients
    {
      if |activeClients| < minClients {
        return Failure(NotEnoughActiveClients);
      }
      var numToSelect := NumToSelect(|activeClients|, minClients, selectionFraction);
      if fetched.None? {
        return Failure(MetricsUnavailable);
      }
      var clientMetrics := fetched.value;
      var order := ListOf(activeClients);
      if clientMetrics == map[] {
        assert SelectionFails(activeClients, minClients, selectionFraction, fetched)
          <==> numToSelect < 0 || numToSelect > |activeClients|;
        var drawn := Draw(order, numToSelect, None);
        if drawn.None? {
          return Failure(InvalidSample);
        }
        return Success(drawn.value);
      }
      var weights := ComputeWeights(order, clientMetrics);
      if weights.Failure? {
        assert exists c :: c in activeClients && SelectionWeight(StatsOf(clientMetrics, c)).Failure?;
        return Failure(weights.error);
      }
      assert forall c :: c in activeClients ==> SelectionWeight(StatsOf(clientMetrics, c)).Success? by {
        assert forall c :: c in activeClients ==> c in order;
      }
      var probs := Probabilities(order, weights.value);
      ProbabilitiesAreDistribution(order, weights.value);
      assert order == [] <==> activeClients == {};
      assert DrawFails(order, numToSelect, Some(probs))
        <==> numToSelect < 0 || numToSelect > |activeClients| || activeClients == {};
      assert SelectionFails(activeClients, minClients, selectionFraction, fetched)
        <==> numToSelect < 0 || numToSelect > |activeClients| || activeClients == {};
      var drawn := Draw(order, numToSelect, Some(probs));
      if drawn.None? {
        return Failure(InvalidSample);
      }
      return Success(drawn.value);
    }

    /**
     * `start_training_round` (orchestrator.py:80-100). Refused, changing nothing,
     * while the orchestrator's own round is running. Otherwise the flag is raised,
     * the clients are selected and the server's round is started; if either raises
     * the flag is lowered again. The timeout is only reported back.
     */
    method StartTrainingRound(fetched: Option<map<string, ClientStats>>) returns (r: Result<RoundStart, OrchestratorError>)
      requires Valid()
      modifies this`roundInProgress, server
      ensures Valid()
      ensures old(roundInProgress) ==>
        r == Failure(RoundAlreadyInProgress) && roundInProgress && server.State() == old(server.State())
      ensures !old(roundInProgress) && SelectionFails(activeClients, minClients, selectionFraction, fetched) ==>
        r.Failure? && !roundInProgress && server.State() == old(server.State())
      ensures !old(roundInProgress) && |activeClients| >= minClients && fetched.None? ==>
        r == Failure(MetricsUnavailable) && !roundInProgress && server.State() == old(server.State())
      ensures !old(roundInProgress) && !SelectionFails(activeClients, minClients, selectionFraction, fetched) ==>
        var started := Server.Start(old(server.State()));
        && server.State() == started.1
        && (r.Success? <==> started.0.Success?) && (roundInProgress <==> started.0.Success?)
        && (r.Failure? ==> r.error == ServerFailed(started.0.error))
      ensures r.Success? ==>
        && r.value.round == server.currentRound && r.value.timeout == timeout
        && |r.value.selectedClients| == NumToSelect(|activeClients|, minClients, selectionFraction)
        && Distinct(r.value.selectedClients) && Elements(r.value.selectedClients) <= activeClients
    {
      if roundInProgress {
        return Failure(RoundAlreadyInProgress);
      }
      roundInProgress := true;
      var selected := SelectClients(fetched);
      if selected.Failure? {
        roundInProgress := false;
        return Failure(selected.error);
      }
      var roundInfo := server.StartTrainingRound();
      if roundInfo.Failure? {
        roundInProgress := false;
        return Failure(ServerFailed(roundInfo.error));
      }
      return Success(RoundStart(roundInfo.value, selected.value, timeout));
    }

    /**
     * `process_client_update` (orchestrator.py:102-120). Refused while no round is
     * running; otherwise the update goes to the server and its outcome is passed
     * back. The flag would be lowered only if the server's result carried a true
     * `aggregation_completed` entry, which an `UpdateReceipt` never does, so the
     * flag stays raised even after the server has aggregated.
     */
    method ProcessClientUpdate(clientId: string, update: ClientUpdate)
      returns (r: Result<Server.UpdateReceipt, OrchestratorError>)
      requires Valid()
      modifies server
      ensures Valid()
      ensures roundInProgress == old(roundInProgress)
      ensures !roundInProgress ==> r == Failure(NoActiveTrainingRound) && server.State() == old(server.State())
      ensures roundInProgress ==>
        var added := Server.Add(old(server.State()), server.minClients, server.aggregationThreshold, clientId, update);
        && server.State() == added.1
        && (r.Success? <==> added.0.Success?)
        && (r.Success? ==> r.value == added.0.value)
        && (r.Failure? ==> r.error == ServerFailed(added.0.error))
    {
      if !roundInProgress {
        return Failure(NoActiveTrainingRound);
      }
      var result := server.AddClientUpdate(clientId, update);
      if result.Failure? {
        return Failure(ServerFailed(result.error));
      }
      return Success(result.value);
    }

    /**
     * `process_client_update` as evidently intended: the orchestrator's flag is
     * lowered once the server has aggregated the round, so that the next round
     * can start. Everything else is as in `ProcessClientUpdate`.
     */
    method ProcessClientUpdateAndClose(clientId: string, update: ClientUpdate)
      returns (r: Result<Server.UpdateReceipt, OrchestratorError>)
      requires Valid()
      modifies this`roundInProgress, server
      ensures Valid()
      ensures !old(roundInProgress) ==>
        r == Failure(NoActiveTrainingRound) && server.State() == old(server.State()) && !roundInProgress
      ensures old(roundInProgress) ==>
        var added := Server.Add(old(server.State()), server.minClients, server.aggregationThreshold, clientId, update);
        && server.State() == added.1
        && (r.Success? <==> added.0.Success?)
        && (r.Success? ==> r.value == added.0.value)
        && (r.Failure? ==> r.error == ServerFailed(added.0.error))
        && (roundInProgress <==> !(added.0.Success? && !added.1.trainingInProgress))
    {
      if !roundInProgress {
        return Failure(NoActiveTrainingRound);
      }
      var result := server.AddClientUpdate(clientId, update);
      if result.Failure? {
        return Failure(ServerFailed(result.error));
      }
      if !server.trainingInProgress {
        roundInProgress := false;
      }
      return Success(result.value);
    }
  }
}
