/**
 * The FedAvg reduction that `FederatedServer.aggregate_updates` performs
 * (MedAi-Assistant/fl-backend/server/server.py:103-147), stated on values.
 *
 * A tensor is modelled as one real number per parameter name; the weighted
 * average is a per-key identity, so no tensor shape is needed. The updates are
 * taken in the order the server's `client_updates` dictionary holds them.
 */
module Aggregation {
  import opened Wrappers

  /** A model's state dict: parameter name to value. */
  type StateDict = map<string, real>

  /** The dictionary a client submits. Either required entry may be missing. */
  datatype ClientUpdate = ClientUpdate(modelUpdate: Option<StateDict>, metrics: Option<map<string, real>>)

  /** The update has both `'model_update'` and `'metrics'`: what `add_client_update` checks. */
  predicate WellFormed(u: ClientUpdate) {
    u.modelUpdate.Some? && u.metrics.Some?
  }

  predicate AllWellFormed(us: seq<ClientUpdate>) {
    forall i :: 0 <= i < |us| ==> WellFormed(us[i])
  }

  /** `update['metrics']['total_samples']`, or None where that lookup raises `KeyError`. */
  function Samples(u: ClientUpdate): Option<real>
    requires WellFormed(u)
  {
    if "total_samples" in u.metrics.value then Some(u.metrics.value["total_samples"]) else None
  }

  predicate HaveSamples(us: seq<ClientUpdate>)
    requires AllWellFormed(us)
  {
    forall i :: 0 <= i < |us| ==> Samples(us[i]).Some?
  }

  /** `sum(update['metrics']['total_samples'] for update in ...)`. */
  function SumSamples(us: seq<ClientUpdate>): real
    requires AllWellFormed(us) && HaveSamples(us)
  {
    if us == [] then 0.0 else SumSamples(us[..|us| - 1]) + Samples(us[|us| - 1]).value
  }

  /** The total sample count, or None when some update has no `total_samples` entry. */
  function TotalSamples(us: seq<ClientUpdate>): (r: Option<real>)
    requires AllWellFormed(us)
    ensures r.Some? <==> HaveSamples(us)
    ensures r.Some? ==> r.value == SumSamples(us)
  {
    if HaveSamples(us) then Some(SumSamples(us)) else None
  }

  /** The value an update carries for `key`; a key it does not carry contributes 0. */
  function Param(u: ClientUpdate, key: string): real
    requires WellFormed(u)
  {
    if key in u.modelUpdate.value then u.modelUpdate.value[key] else 0.0
  }

  /** The aggregate for one key: Σ_i param_i · (samples_i / total), summed in dictionary order. */
  function WeightedParam(us: seq<ClientUpdate>, key: string, total: real): real
    requires AllWellFormed(us) && HaveSamples(us)
    requires us == [] || total != 0.0
  {
    if us == [] then 0.0
    else
      var last := us[|us| - 1];
      WeightedParam(us[..|us| - 1], key, total) + Param(last, key) * (Samples(last).value / total)
  }

  /** The sum of the weights `samples_i / total` the aggregation applies. */
  function WeightSum(us: seq<ClientUpdate>, total: real): real
    requires AllWellFormed(us) && HaveSamples(us)
    requires us == [] || total != 0.0
  {
    if us == [] then 0.0 else WeightSum(us[..|us| - 1], total) + Samples(us[|us| - 1]).value / total
  }

  /**
   * The aggregated state dict: one entry per key of the global model and none
   * other, so keys an update carries that the global model lacks are ignored.
   */
  function FedAvg(global: StateDict, us: seq<ClientUpdate>, total: real): (r: StateDict)
    requires AllWellFormed(us) && HaveSamples(us)
    requires us == [] || total != 0.0
    ensures r.Keys == global.Keys
  {
    map k | k in global :: WeightedParam(us, k, total)
  }

  /** Σ_i samples_i · param_i, the un-normalised weighted sum. */
  function RawWeighted(us: seq<ClientUpdate>, key: string): real
    requires AllWellFormed(us) && HaveSamples(us)
  {
    if us == [] then 0.0
    else
      var last := us[|us| - 1];
      RawWeighted(us[..|us| - 1], key) + Samples(last).value * Param(last, key)
  }

  /** Σ_i param_i, the unweighted sum. */
  function PlainSum(us: seq<ClientUpdate>, key: string): real
    requires AllWellFormed(us)
  {
    if us == [] then 0.0 else PlainSum(us[..|us| - 1], key) + Param(us[|us| - 1], key)
  }

  /** The per-key aggregate is the sample-weighted sum divided by the total. */
  lemma {:induction false} WeightedParamIsWeightedMean(us: seq<ClientUpdate>, key: string, total: real)
    requires AllWellFormed(us) && HaveSamples(us) && total != 0.0
    ensures WeightedParam(us, key, total) == RawWeighted(us, key) / total
  {
    if us != [] {
      var last := us[|us| - 1];
      WeightedParamIsWeightedMean(us[..|us| - 1], key, total);
      var s, p := Samples(last).value, Param(last, key);
      assert p * (s / total) == (s * p) / total;
    }
  }

  lemma {:induction false} WeightSumIsRatio(us: seq<ClientUpdate>, total: real)
    requires AllWellFormed(us) && HaveSamples(us) && total != 0.0
    ensures WeightSum(us, total) == SumSamples(us) / total
  {
    if us != [] {
      WeightSumIsRatio(us[..|us| - 1], total);
    }
  }

  /** With the total taken over the same updates, the weights sum to 1. */
  lemma WeightsSumToOne(us: seq<ClientUpdate>)
    requires AllWellFormed(us) && HaveSamples(us) && SumSamples(us) != 0.0
    ensures WeightSum(us, SumSamples(us)) == 1.0
  {
    var t := SumSamples(us);
    WeightSumIsRatio(us, t);
    assert t / t == 1.0;
  }

  lemma {:induction false} EqualSamplesSum(us: seq<ClientUpdate>, key: string, s: real)
    requires AllWellFormed(us) && HaveSamples(us)
    requires forall i :: 0 <= i < |us| ==> Samples(us[i]).value == s
    ensures SumSamples(us) == |us| as real * s
    ensures RawWeighted(us, key) == s * PlainSum(us, key)
  {
    if us != [] {
      EqualSamplesSum(us[..|us| - 1], key, s);
    }
  }

  /** Equal sample counts give the plain arithmetic mean. */
  lemma EqualSamplesGiveMean(us: seq<ClientUpdate>, key: string, s: real)
    requires AllWellFormed(us) && HaveSamples(us) && us != [] && s != 0.0
    requires forall i :: 0 <= i < |us| ==> Samples(us[i]).value == s
    ensures SumSamples(us) != 0.0
    ensures WeightedParam(us, key, SumSamples(us)) == PlainSum(us, key) / |us| as real
  {
    EqualSamplesSum(us, key, s);
    var total := SumSamples(us);
    MeanOfEqualWeights(RawWeighted(us, key), total, PlainSum(us, key), |us| as real, s);
    WeightedParamIsWeightedMean(us, key, total);
  }

  /** Arithmetic helper for the mean: (s · p) / (n · s) = p / n. */
  lemma MeanOfEqualWeights(raw: real, total: real, p: real, n: real, s: real)
    requires n > 0.0 && s != 0.0 && total == n * s && raw == s * p
    ensures total != 0.0 && raw / total == p / n
  {
  }

  lemma {:induction false} UniformRawWeighted(us: seq<ClientUpdate>, key: string, c: real)
    requires AllWellFormed(us) && HaveSamples(us)
    requires forall i :: 0 <= i < |us| ==> Param(us[i], key) == c
    ensures RawWeighted(us, key) == c * SumSamples(us)
  {
    if us != [] {
      UniformRawWeighted(us[..|us| - 1], key, c);
    }
  }

  /** When every client sends the same value for a key, the aggregate is that value. */
  lemma UnanimousValueIsKept(us: seq<ClientUpdate>, key: string, c: real)
    requires AllWellFormed(us) && HaveSamples(us) && SumSamples(us) != 0.0
    requires forall i :: 0 <= i < |us| ==> Param(us[i], key) == c
    ensures WeightedParam(us, key, SumSamples(us)) == c
  {
    UniformRawWeighted(us, key, c);
    WeightedParamIsWeightedMean(us, key, SumSamples(us));
  }

  /** The update `u` with `key` explicitly set to 0. */
  function WithZero(u: ClientUpdate, key: string): (v: ClientUpdate)
    requires WellFormed(u)
    ensures WellFormed(v) && Samples(v) == Samples(u)
  {
    u.(modelUpdate := Some(u.modelUpdate.value[key := 0.0]))
  }

  /** An update that lacks a key contributes exactly what an explicit 0 would. */
  lemma {:induction false} MissingKeyActsAsZero(us: seq<ClientUpdate>, j: nat, key: string, total: real)
    requires AllWellFormed(us) && HaveSamples(us) && (us == [] || total != 0.0)
    requires j < |us| && key !in us[j].modelUpdate.value
    ensures AllWellFormed(us[j := WithZero(us[j], key)]) && HaveSamples(us[j := WithZero(us[j], key)])
    ensures WeightedParam(us, key, total) == WeightedParam(us[j := WithZero(us[j], key)], key, total)
  {
    var vs := us[j := WithZero(us[j], key)];
    assert forall i :: 0 <= i < |vs| ==> WellFormed(vs[i]) && Samples(vs[i]) == Samples(us[i]);
    var n := |us| - 1;
    assert Param(vs[n], key) == Param(us[n], key) && Samples(vs[n]) == Samples(us[n]);
    if j < n {
      MissingKeyActsAsZero(us[..n], j, key, total);
      assert vs[..n] == us[..n][j := WithZero(us[j], key)];
    } else {
      assert vs[..n] == us[..n];
    }
    assert WeightedParam(vs[..n], key, total) == WeightedParam(us[..n], key, total);
  }

  /** A key that no update carries aggregates to 0. */
  lemma {:induction false} AbsentKeyAggregatesToZero(us: seq<ClientUpdate>, key: string, total: real)
    requires AllWellFormed(us) && HaveSamples(us) && (us == [] || total != 0.0)
    requires forall i :: 0 <= i < |us| ==> key !in us[i].modelUpdate.value
    ensures WeightedParam(us, key, total) == 0.0
  {
    if us != [] {
      AbsentKeyAggregatesToZero(us[..|us| - 1], key, total);
    }
  }

  /** An update carrying `value` under "w" and `samples` as its total_samples. */
  function ScalarUpdate(value: real, samples: real): (u: ClientUpdate)
    ensures WellFormed(u) && Samples(u) == Some(samples) && Param(u, "w") == value
  {
    ClientUpdate(Some(map["w" := value]), Some(map["total_samples" := samples]))
  }

  /** Values 1, 2, 3 over 100, 200, 300 samples aggregate to (100 + 400 + 900) / 600 = 7/3. */
  lemma WeightedScenario()
    ensures var us := [ScalarUpdate(1.0, 100.0), ScalarUpdate(2.0, 200.0), ScalarUpdate(3.0, 300.0)];
            TotalSamples(us) == Some(600.0) && FedAvg(map["w" := 0.0], us, 600.0) == map["w" := 7.0 / 3.0]
  {
    var u0, u1, u2 := ScalarUpdate(1.0, 100.0), ScalarUpdate(2.0, 200.0), ScalarUpdate(3.0, 300.0);
    var us := [u0, u1, u2];
    assert us[..2] == [u0, u1];
    assert [u0, u1][..1] == [u0];
    assert [u0][..0] == [];
    assert SumSamples([u0]) == 100.0;
    assert SumSamples([u0, u1]) == 300.0;
    assert SumSamples(us) == 600.0;
    assert WeightedParam([u0], "w", 600.0) == 100.0 / 600.0;
    assert WeightedParam([u0, u1], "w", 600.0) == 500.0 / 600.0;
    assert WeightedParam(us, "w", 600.0) == 1400.0 / 600.0;
  }
}
