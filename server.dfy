/**
 * `FederatedServer` (MedAi-Assistant/fl-backend/server/server.py): the round
 * state machine, the admission of client updates and the trigger of the FedAvg
 * aggregation.
 *
 * The operations are first stated on a value `ServerState` (Start, Add,
 * Aggregate); the class's methods change their fields step by step and are
 * proved to take the state exactly where those functions say. The
 * `client_updates` dictionary is modelled by the map together with `arrival`,
 * the order in which a Python dictionary holds its keys: a new key is placed
 * last, an assignment to a known key keeps its place.
 */
module Server {
  import opened Wrappers
  import opened SeqUtil
  import opened Aggregation
  import Diagnosis

  /** The constructor's defaults (server.py:22-24). */
  const DefaultMinClients: int := 3
  const DefaultAggregationThreshold: real := 0.8

  /** What the server raises. */
  datatype ServerError =
    | RoundAlreadyInProgress  // RuntimeError in start_training_round
    | NoRoundInProgress       // RuntimeError in add_client_update
    | InvalidUpdateFormat     // ValueError: 'model_update' or 'metrics' is missing
    | MissingTotalSamples     // KeyError: an update's metrics have no 'total_samples'
    | ZeroTotalSamples        // ZeroDivisionError: the sample counts add up to 0
    | NoUpdatesToAverage      // ZeroDivisionError in _update_global_metrics: no updates at all
    | UnknownImageType        // KeyError in _get_diagnosis

  /** The dictionary `add_client_update` returns: success, round and updates_received. */
  datatype UpdateReceipt = UpdateReceipt(round: nat, updatesReceived: nat)

  /** The fields of a `FederatedServer` that the round logic reads and writes. */
  datatype ServerState = ServerState(
    currentRound: nat,
    clientUpdates: map<string, ClientUpdate>,
    arrival: seq<string>,
    trainingInProgress: bool,
    globalModel: StateDict)

  /** `arrival` lists the stored client ids once each, and every stored update passed validation. */
  ghost predicate Consistent(s: ServerState) {
    && Distinct(s.arrival)
    && (forall c :: c in s.clientUpdates <==> c in s.arrival)
    && (forall c :: c in s.clientUpdates ==> WellFormed(s.clientUpdates[c]))
  }

  /** `client_updates.values()`, in dictionary order. */
  function Queue(s: ServerState): (us: seq<ClientUpdate>)
    requires Consistent(s)
    ensures |us| == |s.arrival| && AllWellFormed(us)
    ensures forall i :: 0 <= i < |us| ==> us[i] == s.clientUpdates[s.arrival[i]]
  {
    seq(|s.arrival|, i requires 0 <= i < |s.arrival| => s.clientUpdates[s.arrival[i]])
  }

  lemma StoredCount(s: ServerState)
    requires Consistent(s)
    ensures |s.clientUpdates| == |s.arrival|
  {
    DistinctCardinality(s.arrival);
    assert s.clientUpdates.Keys == Elements(s.arrival);
  }

  /**
   * `start_training_round` (server.py:54-64): refused while a round is running,
   * leaving everything as it was; otherwise it opens the next round with no
   * updates and returns its number.
   */
  function Start(s: ServerState): (res: (Result<nat, ServerError>, ServerState))
    ensures Consistent(s) ==> Consistent(res.1)
    ensures res.0.Failure? <==> s.trainingInProgress
    ensures res.0.Failure? ==> res == (Failure(RoundAlreadyInProgress), s)
    ensures res.0.Success? ==>
      && res.1.currentRound == s.currentRound + 1 && res.0.value == res.1.currentRound
      && res.1.trainingInProgress && res.1.clientUpdates == map[] && res.1.globalModel == s.globalModel
  {
    if s.trainingInProgress then (Failure(RoundAlreadyInProgress), s)
    else
      var t := s.(currentRound := s.currentRound + 1, trainingInProgress := true,
                  clientUpdates := map[], arrival := []);
      (Success(t.currentRound), t)
  }

  /** `self.client_updates[client_id] = update` (server.py:78). */
  function Store(s: ServerState, id: string, u: ClientUpdate): (t: ServerState)
    requires Consistent(s) && WellFormed(u)
    ensures Consistent(t)
  {
    var t := s.(clientUpdates := s.clientUpdates[id := u],
                arrival := if id in s.clientUpdates then s.arrival else s.arrival + [id]);
    assert Distinct(t.arrival);
    t
  }

  /**
   * The trigger test `len(client_updates) >= min_clients * aggregation_threshold`
   * (server.py:90). With a threshold in [0, 1], `min_clients` updates always
   * suffice. With a positive bar, an empty store never triggers.
   */
  predicate ShouldAggregate(received: nat, minClients: int, threshold: real)
    ensures 0.0 <= threshold <= 1.0 && received >= minClients ==> ShouldAggregate(received, minClients, threshold)
    ensures minClients > 0 && threshold > 0.0 && received == 0 ==> !ShouldAggregate(received, minClients, threshold)
  {
    ScaledBar(minClients as real, threshold);
    received as real >= minClients as real * threshold
  }

  /** A bar scaled by a fraction is at most the larger of the bar and 0; a positive bar scaled by a positive factor stays positive. */
  lemma ScaledBar(m: real, t: real)
    ensures 0.0 <= t <= 1.0 ==> m * t <= (if m >= 0.0 then m else 0.0)
    ensures m > 0.0 && t > 0.0 ==> m * t > 0.0
  {
    if 0.0 <= t <= 1.0 {
      if m >= 0.0 {
        assert m - m * t == m * (1.0 - t);
      } else {
        assert -(m * t) == (-m) * t;
      }
    }
  }

  /**
   * `aggregate_updates` (server.py:103-147). The flag is cleared on every
   * path. On success the global model becomes the FedAvg of the stored
   * updates and the updates are dropped; the round number is left alone.
   * When the sample counts are missing or add up to zero nothing else changes.
   * With no updates at all the model is already zeroed when the average
   * accuracy computation divides by zero.
   */
  function Aggregate(s: ServerState): (res: (Result<nat, ServerError>, ServerState))
    requires Consistent(s)
    ensures Consistent(res.1)
    ensures !res.1.trainingInProgress && res.1.currentRound == s.currentRound
    ensures res.0.Success? ==>
      && res.0.value == s.currentRound
      && TotalSamples(Queue(s)).Some? && SumSamples(Queue(s)) != 0.0
      && res.1.globalModel == FedAvg(s.globalModel, Queue(s), SumSamples(Queue(s)))
      && res.1.clientUpdates == map[]
    ensures res.0.Success? <==>
      s.clientUpdates != map[] && HaveSamples(Queue(s)) && SumSamples(Queue(s)) != 0.0
    ensures res.0.Failure? ==> res.1.clientUpdates == s.clientUpdates && res.1.arrival == s.arrival
    ensures res.0 == Failure(MissingTotalSamples) <==> !HaveSamples(Queue(s))
    ensures res.0 == Failure(ZeroTotalSamples) <==>
      s.clientUpdates != map[] && HaveSamples(Queue(s)) && SumSamples(Queue(s)) == 0.0
    ensures res.0 == Failure(NoUpdatesToAverage) <==> s.clientUpdates == map[]
    ensures res.0.Failure? && s.clientUpdates != map[] ==> res.1 == s.(trainingInProgress := false)
    ensures res.0 == Failure(NoUpdatesToAverage) ==> res.1 == s.(trainingInProgress := false, globalModel := res.1.globalModel)
  {
    var us := Queue(s);
    var halted := s.(trainingInProgress := false);
    StoredCount(s);
    match TotalSamples(us)
    case None => (Failure(MissingTotalSamples), halted)
    case Some(total) =>
      if us != [] && total == 0.0 then (Failure(ZeroTotalSamples), halted)
      else if us == [] then (Failure(NoUpdatesToAverage), halted.(globalModel := FedAvg(s.globalModel, us, total)))
      else (Success(s.currentRound),
            halted.(globalModel := FedAvg(s.globalModel, us, total), clientUpdates := map[], arrival := []))
  }

  /**
   * `add_client_update` (server.py:66-101): refused when no round is running
   * or when the update lacks a required entry; otherwise stored under its
   * client id, then aggregated if the threshold is met. The receipt is built
   * after the aggregation, from whatever the state is then.
   */
  function Add(s: ServerState, minClients: int, threshold: real, id: string, u: ClientUpdate)
    : (res: (Result<UpdateReceipt, ServerError>, ServerState))
    requires Consistent(s)
    ensures Consistent(res.1)
    ensures res.1.currentRound == s.currentRound
    ensures res.0.Success? ==> res.0.value.round == s.currentRound
    ensures res.0 == Failure(NoRoundInProgress) <==> !s.trainingInProgress
    ensures res.0 == Failure(InvalidUpdateFormat) <==> s.trainingInProgress && !WellFormed(u)
    ensures res.0 == Failure(NoRoundInProgress) || res.0 == Failure(InvalidUpdateFormat) ==> res.1 == s
  {
    if !s.trainingInProgress then (Failure(NoRoundInProgress), s)
    else if !WellFormed(u) then (Failure(InvalidUpdateFormat), s)
    else
      var stored := Store(s, id, u);
      if ShouldAggregate(|stored.clientUpdates|, minClients, threshold) then
        var (r, t) := Aggregate(stored);
        match r
        case Failure(e) => (Failure(e), t)
        case Success(_) => (Success(UpdateReceipt(t.currentRound, |t.clientUpdates|)), t)
      else
        (Success(UpdateReceipt(stored.currentRound, |stored.clientUpdates|)), stored)
  }

  /** The number of distinct clients stored once `id` has been stored. */
  function CountWith(s: ServerState, id: string): nat {
    if id in s.clientUpdates then |s.clientUpdates| else |s.clientUpdates| + 1
  }

  /**
   * What one submission does. It is refused, changing nothing, outside a round
   * or when malformed. Otherwise the update is stored under its client id,
   * replacing an earlier one from the same id. Aggregation runs exactly when the
   * number of distinct stored clients reaches the threshold. The receipt names
   * the current round, and it reports 0 updates whenever aggregation succeeded.
   */
  lemma AddOutcome(s: ServerState, minClients: int, threshold: real, id: string, u: ClientUpdate)
    requires Consistent(s)
    ensures var (r, t) := Add(s, minClients, threshold, id, u);
      && (!s.trainingInProgress ==> r == Failure(NoRoundInProgress) && t == s)
      && (s.trainingInProgress && !WellFormed(u) ==> r == Failure(InvalidUpdateFormat) && t == s)
      && (s.trainingInProgress && WellFormed(u) ==>
            && t.currentRound == s.currentRound
            && (t.trainingInProgress <==> !ShouldAggregate(CountWith(s, id), minClients, threshold))
            && (!ShouldAggregate(CountWith(s, id), minClients, threshold) ==>
                  && r == Success(UpdateReceipt(s.currentRound, CountWith(s, id)))
                  && t.clientUpdates == s.clientUpdates[id := u]
                  && t.arrival == (if id in s.clientUpdates then s.arrival else s.arrival + [id]))
            && (ShouldAggregate(CountWith(s, id), minClients, threshold) && r.Success? ==>
                  r.value == UpdateReceipt(s.currentRound, 0) && t.clientUpdates == map[]))
  {
    if s.trainingInProgress && WellFormed(u) {
      var stored := Store(s, id, u);
      assert |stored.clientUpdates| == CountWith(s, id);
    }
  }

  /**
   * A second submission from the same client in the same round replaces the
   * first: the count does not grow and the client keeps its place.
   */
  lemma ResubmissionReplaces(s: ServerState, minClients: int, threshold: real, id: string, u: ClientUpdate, v: ClientUpdate)
    requires Consistent(s) && WellFormed(v)
    requires var (r, t) := Add(s, minClients, threshold, id, u); r.Success? && t.trainingInProgress
    ensures var (r1, t1) := Add(s, minClients, threshold, id, u);
            var (r2, t2) := Add(t1, minClients, threshold, id, v);
      && r2 == Success(UpdateReceipt(t1.currentRound, r1.value.updatesReceived))
      && t2.clientUpdates == t1.clientUpdates[id := v] && t2.arrival == t1.arrival
      && t2.trainingInProgress
  {
    var (r1, t1) := Add(s, minClients, threshold, id, u);
    AddOutcome(s, minClients, threshold, id, u);
    assert id in t1.clientUpdates;
    AddOutcome(t1, minClients, threshold, id, v);
  }

  /** With the defaults 3 and 0.8 the bar is 2.4: two clients do not reach it, three do. */
  lemma DefaultThreshold()
    ensures !ShouldAggregate(2, DefaultMinClients, DefaultAggregationThreshold)
    ensures ShouldAggregate(3, DefaultMinClients, DefaultAggregationThreshold)
    ensures forall n: nat :: ShouldAggregate(n, DefaultMinClients, DefaultAggregationThreshold) <==> n >= 3
  {
  }

  /**
   * An aggregation over updates that all report their samples, adding up to
   * anything but 0, replaces the model by their FedAvg, drops the updates and closes the
   * round; nothing else changes.
   */
  lemma AggregationSucceeds(s: ServerState)
    requires Consistent(s) && HaveSamples(Queue(s)) && SumSamples(Queue(s)) != 0.0
    ensures Aggregate(s)
      == (Success(s.currentRound),
          s.(trainingInProgress := false, clientUpdates := map[], arrival := [],
             globalModel := FedAvg(s.globalModel, Queue(s), SumSamples(Queue(s)))))
  {
    assert Queue(s) != [];
  }

  /**
   * A submission that brings the count of distinct clients to the threshold,
   * when every stored update reports samples adding up to anything but 0: the
   * round is aggregated over the updates in arrival order and closed, and the
   * receipt reports 0 updates received.
   */
  lemma SubmissionThatAggregates(s: ServerState, minClients: int, threshold: real, id: string, u: ClientUpdate)
    requires Consistent(s) && s.trainingInProgress && WellFormed(u)
    requires ShouldAggregate(CountWith(s, id), minClients, threshold)
    requires var us := Queue(Store(s, id, u)); HaveSamples(us) && SumSamples(us) != 0.0
    ensures var us := Queue(Store(s, id, u));
      Add(s, minClients, threshold, id, u)
      == (Success(UpdateReceipt(s.currentRound, 0)),
          s.(trainingInProgress := false, clientUpdates := map[], arrival := [],
             globalModel := FedAvg(s.globalModel, us, SumSamples(us))))
  {
    var stored := Store(s, id, u);
    StoredCount(stored);
    assert |stored.clientUpdates| == CountWith(s, id);
    AggregationSucceeds(stored);
  }

  /**
   * Under the default settings, one more distinct client that leaves the count
   * below 3 is stored last and keeps the round open.
   */
  lemma ClientBelowThreshold(s: ServerState, id: string, u: ClientUpdate)
    requires Consistent(s) && s.trainingInProgress && WellFormed(u)
    requires id !in s.clientUpdates && |s.arrival| < 2
    ensures Add(s, DefaultMinClients, DefaultAggregationThreshold, id, u)
      == (Success(UpdateReceipt(s.currentRound, |s.arrival| + 1)),
          s.(clientUpdates := s.clientUpdates[id := u], arrival := s.arrival + [id]))
  {
    StoredCount(s);
    DefaultThreshold();
    var stored := Store(s, id, u);
    assert |stored.clientUpdates| == |s.arrival| + 1;
  }

  /** Under the default settings, a third distinct client aggregates the round in arrival order. */
  lemma ThirdClientAggregates(
    s3: ServerState, a: string, b: string, c: string, ua: ClientUpdate, ub: ClientUpdate, uc: ClientUpdate)
    requires s3.trainingInProgress && s3.clientUpdates == map[a := ua, b := ub] && s3.arrival == [a, b]
    requires a != b && b != c && a != c
    requires AllWellFormed([ua, ub, uc]) && HaveSamples([ua, ub, uc]) && SumSamples([ua, ub, uc]) != 0.0
    ensures Consistent(s3)
    ensures Add(s3, DefaultMinClients, DefaultAggregationThreshold, c, uc)
      == (Success(UpdateReceipt(s3.currentRound, 0)),
          s3.(trainingInProgress := false, clientUpdates := map[], arrival := [],
              globalModel := FedAvg(s3.globalModel, [ua, ub, uc], SumSamples([ua, ub, uc]))))
  {
    assert [ua, ub, uc][0] == ua && [ua, ub, uc][1] == ub && [ua, ub, uc][2] == uc;
    assert Distinct(s3.arrival);
    var stored := Store(s3, c, uc);
    assert stored.arrival == [a, b, c];
    assert Queue(stored) == [ua, ub, uc];
    assert CountWith(s3, c) == 3 by { StoredCount(s3); }
    DefaultThreshold();
    SubmissionThatAggregates(s3, DefaultMinClients, DefaultAggregationThreshold, c, uc);
  }

  /** One call on the server, as a round driver would issue it. */
  datatype Call = StartRound | Submit(id: string, update: ClientUpdate) | AggregateNow

  function Step(s: ServerState, minClients: int, threshold: real, call: Call): (t: ServerState)
    requires Consistent(s)
    ensures Consistent(t)
  {
    match call
    case StartRound => Start(s).1
    case Submit(id, u) => Add(s, minClients, threshold, id, u).1
    case AggregateNow => Aggregate(s).1
  }

  /** The state after a sequence of calls. */
  function Run(s: ServerState, minClients: int, threshold: real, calls: seq<Call>): (t: ServerState)
    requires Consistent(s)
    ensures Consistent(t)
    decreases |calls|
  {
    if calls == [] then s else Run(Step(s, minClients, threshold, calls[0]), minClients, threshold, calls[1..])
  }

  /** How many of the calls are starts that succeed. */
  function SuccessfulStarts(s: ServerState, minClients: int, threshold: real, calls: seq<Call>): nat
    requires Consistent(s)
    decreases |calls|
  {
    if calls == [] then 0
    else
      (if calls[0].StartRound? && !s.trainingInProgress then 1 else 0)
      + SuccessfulStarts(Step(s, minClients, threshold, calls[0]), minClients, threshold, calls[1..])
  }

  /**
   * Round numbers advance by exactly one per successful start and never
   * otherwise: submissions and aggregations leave the round number alone.
   */
  lemma {:induction false} RoundCountsSuccessfulStarts(s: ServerState, minClients: int, threshold: real, calls: seq<Call>)
    requires Consistent(s)
    ensures Run(s, minClients, threshold, calls).currentRound
            == s.currentRound + SuccessfulStarts(s, minClients, threshold, calls)
    decreases |calls|
  {
    if calls != [] {
      var t := Step(s, minClients, threshold, calls[0]);
      if calls[0].Submit? {
        AddOutcome(s, minClients, threshold, calls[0].id, calls[0].update);
      }
      RoundCountsSuccessfulStarts(t, minClients, threshold, calls[1..]);
    }
  }

  /**
   * `_get_diagnosis` (server.py:261-277): the table's label for a known
   * modality and index, "Unknown" for an index the modality has no label for,
   * and a `KeyError` for a modality the table does not know.
   */
  function GetDiagnosis(prediction: int, imageType: string): (r: Result<string, ServerError>)
    ensures r.Failure? <==> Diagnosis.Labels(imageType).None?
    ensures r.Failure? ==> r.error == UnknownImageType
    ensures r.Success? ==> (r.value == "Unknown" <==> !(0 <= prediction < 4))
    ensures r.Success? && 0 <= prediction < 4 ==> r.value == Diagnosis.Labels(imageType).value[prediction]
  {
    match Diagnosis.Labels(imageType)
    case None => Failure(UnknownImageType)
    case Some(table) => Success(if prediction in table then table[prediction] else "Unknown")
  }

  /**
   * The inner loop of the aggregation (server.py:124-126): every key of the
   * client's state dict that the aggregate has receives `value * weight`; the
   * others are skipped.
   */
  method AddWeighted(aggregated: StateDict, stateDict: StateDict, weight: real) returns (next: StateDict)
    ensures next.Keys == aggregated.Keys
    ensures forall k :: k in next ==>
      next[k] == aggregated[k] + (if k in stateDict then stateDict[k] * weight else 0.0)
  {
    next := aggregated;
    var pending := stateDict.Keys;
    while pending != {}
      invariant pending <= stateDict.Keys
      invariant next.Keys == aggregated.Keys
      invariant forall k :: k in next ==>
        next[k] == aggregated[k] + (if k in stateDict && k !in pending then stateDict[k] * weight else 0.0)
      decreases pending
    {
      var key :| key in pending;
      if key in next {
        next := next[key := next[key] + stateDict[key] * weight];
      }
      pending := pending - {key};
    }
  }

  /**
   * The outer loop of the aggregation (server.py:108-126): start from a zeroed
   * copy of the global model's keys and add each update's parameters times its
   * weight `samples / total`. The first weight raises `ZeroDivisionError` when
   * the total is 0, before anything has been added.
   */
  method WeightedAverage(global: StateDict, updates: seq<ClientUpdate>, total: real)
    returns (r: Result<StateDict, ServerError>)
    requires AllWellFormed(updates) && HaveSamples(updates)
    ensures r.Failure? <==> updates != [] && total == 0.0
    ensures r.Failure? ==> r.error == ZeroTotalSamples
    ensures r.Success? ==> r.value == FedAvg(global, updates, total)
  {
    var aggregated: StateDict := map k | k in global :: 0.0;
    var i := 0;
    while i < |updates|
      invariant 0 <= i <= |updates|
      invariant i > 0 ==> total != 0.0
      invariant aggregated.Keys == global.Keys
      invariant forall k :: k in aggregated ==> aggregated[k] == WeightedParam(updates[..i], k, total)
    {
      if total == 0.0 {
        return Failure(ZeroTotalSamples);
      }
      var update := updates[i];
      var weight := Samples(update).value / total;
      var stateDict := update.modelUpdate.value;
      aggregated := AddWeighted(aggregated, stateDict, weight);
      forall k | k in aggregated
        ensures aggregated[k] == WeightedParam(updates[..i + 1], k, total)
      {
        assert updates[..i + 1][..i] == updates[..i];
        assert Param(updates[i], k) * weight == (if k in stateDict then stateDict[k] * weight else 0.0);
      }
      i := i + 1;
    }
    assert updates[..i] == updates;
    return Success(aggregated);
  }

  /** The server object; its fields are the ones the round logic updates in place. */
  class FederatedServer {
    const minClients: int
    const aggregationThreshold: real
    var model: StateDict
    var currentRound: nat
    var clientUpdates: map<string, ClientUpdate>
    var arrival: seq<string>
    var trainingInProgress: bool

    function State(): ServerState
      reads this
    {
      ServerState(currentRound, clientUpdates, arrival, trainingInProgress, model)
    }

    ghost predicate Valid()
      reads this
    {
      Consistent(State())
    }

    /**
     * `__init__` (server.py:20-38). The checkpoint loader it calls is a
     * coroutine that is never awaited, so the server always starts at round 0
     * with the freshly built model `initialModel`.
     */
    constructor (minClients: int, aggregationThreshold: real, initialModel: StateDict)
      ensures Valid()
      ensures this.minClients == minClients && this.aggregationThreshold == aggregationThreshold
      ensures State() == ServerState(0, map[], [], false, initialModel)
    {
      this.minClients := minClients;
      this.aggregationThreshold := aggregationThreshold;
      model := initialModel;
      currentRound := 0;
      clientUpdates := map[];
      arrival := [];
      trainingInProgress := false;
    }

    method StartTrainingRound() returns (r: Result<nat, ServerError>)
      requires Valid()
      modifies this
      ensures Valid()
      ensures (r, State()) == Start(old(State()))
    {
      if trainingInProgress {
        return Failure(RoundAlreadyInProgress);
      }
      trainingInProgress := true;
      currentRound := currentRound + 1;
      clientUpdates := map[];
      arrival := [];
      return Success(currentRound);
    }

    method AddClientUpdate(clientId: string, update: ClientUpdate) returns (r: Result<UpdateReceipt, ServerError>)
      requires Valid()
      modifies this
      ensures Valid()
      ensures (r, State()) == Add(old(State()), minClients, aggregationThreshold, clientId, update)
    {
      if !trainingInProgress {
        return Failure(NoRoundInProgress);
      }
      if update.modelUpdate.None? || update.metrics.None? {
        return Failure(InvalidUpdateFormat);
      }
      if clientId !in clientUpdates {
        arrival := arrival + [clientId];
      }
      clientUpdates := clientUpdates[clientId := update];
      assert State() == Store(old(State()), clientId, update);
      // The metrics record written to the database here is persistence and is not modelled.
      if |clientUpdates| as real >= minClients as real * aggregationThreshold {
        var outcome := AggregateUpdates();
        if outcome.Failure? {
          return Failure(outcome.error);
        }
      }
      return Success(UpdateReceipt(currentRound, |clientUpdates|));
    }

    /**
     * `aggregate_updates`: the sample total, the FedAvg loop over the stored
     * updates, then the reset. Every failure clears the flag and propagates.
     */
    method AggregateUpdates() returns (r: Result<nat, ServerError>)
      requires Valid()
      modifies this
      ensures Valid()
      ensures (r, State()) == Aggregate(old(State()))
    {
      var updates := Queue(State());
      var total := TotalSamples(updates);
      if total.None? {
        trainingInProgress := false;
        return Failure(MissingTotalSamples);
      }
      var aggregated := WeightedAverage(model, updates, total.value);
      if aggregated.Failure? {
        trainingInProgress := false;
        return Failure(aggregated.error);
      }
      // Saving the checkpoint and the global metrics is persistence and is not modelled;
      // the metrics' average over zero updates is the one failure it adds.
      model := aggregated.value;
      if |arrival| == 0 {
        trainingInProgress := false;
        return Failure(NoUpdatesToAverage);
      }
      trainingInProgress := false;
      clientUpdates := map[];
      arrival := [];
      return Success(currentRound);
    }
  }
}
