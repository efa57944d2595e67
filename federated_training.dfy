/**
 * The bookkeeping of `FederatedTrainingManager`
 * (MedAi-Assistant/fl-backend/client/federated_training.py): which datasets a
 * client builds, the per-epoch training and validation schedule of a round, the
 * round number it records, and the update record it prepares.
 *
 * The dataset classes it imports are not defined in data_preprocessing.py, so a
 * dataset is described only by its kind, its path and whether it is the training
 * half; its length is supplied as a function. The trainer is opaque: its two calls
 * are functions given with the manager, each returning metrics or the message of
 * the exception it raised. An entry `f'epoch_{e}'` is keyed by the number `e`.
 */
module FederatedTraining {
  import opened Wrappers
  import opened Aggregation

  /** Which dataset class builds a modality's data (federated_training.py:56-79). */
  datatype DatasetKind = LIDC | BraTS

  datatype Dataset = Dataset(kind: DatasetKind, path: string, train: bool)

  /** `{'train': ..., 'val': ...}` for one modality. */
  datatype DatasetPair = DatasetPair(train: Dataset, val: Dataset)

  /** What one trainer call reports. */
  type EpochMetrics = map<string, real>

  /**
   * The trainer's calls. `trainEpoch(dataset, modality, epoch)` and
   * `validate(dataset, modality)` stand for `MedicalTrainer.train_epoch` and
   * `MedicalTrainer.validate`; `modelUpdate` for what `get_model_update` returns.
   */
  datatype Trainer = Trainer(
    trainEpoch: (Dataset, string, nat) -> Result<EpochMetrics, string>,
    validate: (Dataset, string) -> Result<EpochMetrics, string>,
    modelUpdate: StateDict)

  /** `{'train': {...}, 'val': {...}}` as `_train_modality` fills it: epoch to metrics. */
  datatype ModalityRun = ModalityRun(train: map<nat, EpochMetrics>, val: map<nat, EpochMetrics>)

  /** The integer settings of the configuration dictionary. */
  type Config = map<string, int>

  /** Why a round fails: a missing setting, a loader that refuses its dataset or batch size, or a raising trainer call. */
  datatype TrainingError =
    | MissingSetting(name: string)     // KeyError on the configuration
    | EmptyTrainingSet(modality: string) // ValueError from DataLoader: a shuffled dataset of length 0
    | InvalidBatchSize(value: int)     // ValueError from DataLoader: a batch size that is not positive
    | TrainerRaised(message: string)

  /** The integer entries of `_get_default_config` (federated_training.py:37-49). */
  const DefaultConfig: Config := map["num_local_epochs" := 5, "batch_size" := 16, "min_samples_per_client" := 100]

  /** `config or self._get_default_config()`: an absent or empty configuration is replaced by the default. */
  function EffectiveConfig(config: Option<Config>): (c: Config)
    ensures config.None? || config.value == map[] ==> c == DefaultConfig
    ensures config.Some? && config.value != map[] ==> c == config.value
  {
    if config.None? || config.value == map[] then DefaultConfig else config.value
  }

  /**
   * `_initialize_datasets` (federated_training.py:51-81): one pair for `ct`, read
   * with the LIDC class, and one for `mri`, read with the BraTS class, each only
   * when the data paths name that modality.
   */
  function InitializeDatasets(dataPath: map<string, string>): (ds: map<string, DatasetPair>)
    ensures ds.Keys == dataPath.Keys * {"ct", "mri"}
    ensures "ct" in ds ==> ds["ct"] == DatasetPair(Dataset(LIDC, dataPath["ct"], true), Dataset(LIDC, dataPath["ct"], false))
    ensures "mri" in ds ==> ds["mri"] == DatasetPair(Dataset(BraTS, dataPath["mri"], true), Dataset(BraTS, dataPath["mri"], false))
  {
    var withCt: map<string, DatasetPair> :=
      if "ct" in dataPath then map["ct" := DatasetPair(Dataset(LIDC, dataPath["ct"], true), Dataset(LIDC, dataPath["ct"], false))]
      else map[];
    if "mri" in dataPath then
      withCt["mri" := DatasetPair(Dataset(BraTS, dataPath["mri"], true), Dataset(BraTS, dataPath["mri"], false))]
    else withCt
  }

  /** The epochs at which `epoch % 2 == 0` triggers a validation. */
  function EvenEpochs(epochs: int): set<nat> {
    set e: nat | e < epochs && e % 2 == 0
  }

  /**
   * The schedule of `_train_modality` over the first `upTo` epochs
   * (federated_training.py:159-173): train at every epoch, validate after training
   * at every even one, and stop at the first call that raises.
   */
  function Schedule(trainer: Trainer, modality: string, data: DatasetPair, upTo: nat): Result<ModalityRun, string> {
    if upTo == 0 then Success(ModalityRun(map[], map[]))
    else
      var e := upTo - 1;
      match Schedule(trainer, modality, data, e)
      case Failure(msg) => Failure(msg)
      case Success(run) =>
        match trainer.trainEpoch(data.train, modality, e)
        case Failure(msg) => Failure(msg)
        case Success(tm) =>
          var run' := run.(train := run.train[e := tm]);
          if e % 2 == 0 then
            match trainer.validate(data.val, modality)
            case Failure(msg) => Failure(msg)
            case Success(vm) => Success(run'.(val := run'.val[e := vm]))
          else Success(run')
  }

  /** Some trainer call among the first `upTo` epochs of the schedule raises. */
  predicate SomeCallRaises(trainer: Trainer, modality: string, data: DatasetPair, upTo: nat) {
    exists e: nat | e < upTo ::
      trainer.trainEpoch(data.train, modality, e).Failure?
      || (e % 2 == 0 && trainer.validate(data.val, modality).Failure?)
  }

  /** The schedule fails exactly when one of its calls raises. */
  lemma {:induction false} ScheduleFailsWhenACallRaises(trainer: Trainer, modality: string, data: DatasetPair, upTo: nat)
    ensures Schedule(trainer, modality, data, upTo).Failure? <==> SomeCallRaises(trainer, modality, data, upTo)
  {
    if upTo > 0 {
      var e := upTo - 1;
      ScheduleFailsWhenACallRaises(trainer, modality, data, e);
      if SomeCallRaises(trainer, modality, data, upTo) && !SomeCallRaises(trainer, modality, data, e) {
        var k: nat :| k < upTo && (trainer.trainEpoch(data.train, modality, k).Failure?
                                   || (k % 2 == 0 && trainer.validate(data.val, modality).Failure?));
        assert k == e;
      }
    }
  }

  /**
   * A schedule that completes has a training entry for every epoch and a
   * validation entry for exactly the even ones, each the trainer's report.
   */
  lemma {:induction false} ScheduleRecordsEveryCall(trainer: Trainer, modality: string, data: DatasetPair, upTo: nat)
    ensures var r := Schedule(trainer, modality, data, upTo);
      r.Success? ==>
        && (forall e: nat :: e in r.value.train <==> e < upTo) && r.value.val.Keys == EvenEpochs(upTo)
        && (forall e :: e in r.value.train ==> Success(r.value.train[e]) == trainer.trainEpoch(data.train, modality, e))
        && (forall e :: e in r.value.val ==> Success(r.value.val[e]) == trainer.validate(data.val, modality))
  {
    if upTo > 0 {
      var e := upTo - 1;
      ScheduleRecordsEveryCall(trainer, modality, data, e);
      EvenEpochsStep(e);
    }
  }

  /** One more epoch adds itself to the even epochs exactly when it is even. */
  lemma EvenEpochsStep(e: nat)
    ensures EvenEpochs(e + 1) == EvenEpochs(e) + (if e % 2 == 0 then {e} else {})
  {
  }

  lemma {:induction false} EvenEpochCount(epochs: nat)
    ensures |EvenEpochs(epochs)| == (epochs + 1) / 2
  {
    if epochs > 0 {
      var e := epochs - 1;
      EvenEpochCount(e);
      EvenEpochsStep(e);
      if e % 2 == 0 {
        assert e !in EvenEpochs(e);
      }
    }
  }

  /**
   * `ceil(E / 2)` validations in a run of E epochs; the default five epochs
   * validate after epochs 0, 2 and 4.
   */
  lemma ValidationCount(epochs: nat)
    ensures |EvenEpochs(epochs)| == (epochs + 1) / 2
    ensures EvenEpochs(DefaultConfig["num_local_epochs"]) == {0, 2, 4}
  {
    EvenEpochCount(epochs);
    assert forall e: nat :: e in EvenEpochs(5) <==> e == 0 || e == 2 || e == 4;
  }

  /** Once a call has raised, the schedule over any longer run fails with the same message. */
  lemma {:induction false} FailureIsFinal(trainer: Trainer, modality: string, data: DatasetPair, k: nat, n: nat)
    requires k <= n && Schedule(trainer, modality, data, k).Failure?
    ensures Schedule(trainer, modality, data, n) == Schedule(trainer, modality, data, k)
    decreases n - k
  {
    if k < n {
      FailureIsFinal(trainer, modality, data, k, n - 1);
    }
  }

  /** `_train_modality` (federated_training.py:146-175). */
  method TrainModality(trainer: Trainer, modality: string, data: DatasetPair, epochs: int)
    returns (r: Result<ModalityRun, string>)
    ensures r == Schedule(trainer, modality, data, Clamp(epochs))
  {
    var run := ModalityRun(map[], map[]);
    var epoch := 0;
    while epoch < epochs
      invariant 0 <= epoch <= Clamp(epochs)
      invariant Schedule(trainer, modality, data, epoch) == Success(run)
    {
      var trainMetrics := trainer.trainEpoch(data.train, modality, epoch);
      if trainMetrics.Failure? {
        FailureIsFinal(trainer, modality, data, epoch + 1, Clamp(epochs));
        return Failure(trainMetrics.error);
      }
      run := run.(train := run.train[epoch := trainMetrics.value]);
      if epoch % 2 == 0 {
        var valMetrics := trainer.validate(data.val, modality);
        if valMetrics.Failure? {
          FailureIsFinal(trainer, modality, data, epoch + 1, Clamp(epochs));
          return Failure(valMetrics.error);
        }
        run := run.(val := run.val[epoch := valMetrics.value]);
      }
      epoch := epoch + 1;
    }
    return Success(run);
  }

  /** The modalities in the order the datasets dictionary holds them. */
  const Modalities: seq<string> := ["ct", "mri"]

  /** `{'ct': {'train': {}, 'val': {}}, 'mri': {'train': {}, 'val': {}}}` (federated_training.py:108-111). */
  const InitialMetrics: map<string, ModalityRun> :=
    map["ct" := ModalityRun(map[], map[]), "mri" := ModalityRun(map[], map[])]

  /**
   * Building the two loaders of modality `m` (federated_training.py:86-102).
   * `config['batch_size']` is read first. torch's `DataLoader` then raises
   * `ValueError` for the shuffled training half when it is empty, and for a
   * batch size that is not positive. The validation loader repeats the
   * batch-size check and adds no failure of its own.
   */
  function LoaderCheck(datasets: map<string, DatasetPair>, config: Config, size: Dataset -> nat, m: string)
    : (r: Result<(), TrainingError>)
    ensures r.Failure? <==>
      m in datasets && ("batch_size" !in config || size(datasets[m].train) == 0 || config["batch_size"] <= 0)
  {
    if m !in datasets then Success(())
    else if "batch_size" !in config then Failure(MissingSetting("batch_size"))
    else if size(datasets[m].train) == 0 then Failure(EmptyTrainingSet(m))
    else if config["batch_size"] <= 0 then Failure(InvalidBatchSize(config["batch_size"]))
    else Success(())
  }

  /** `_create_data_loaders` (federated_training.py:83-103): each modality in turn, the first raise ending it. */
  function CreateLoaders(datasets: map<string, DatasetPair>, config: Config, size: Dataset -> nat)
    : Result<(), TrainingError>
  {
    var ct := LoaderCheck(datasets, config, size, "ct");
    if ct.Failure? then ct else LoaderCheck(datasets, config, size, "mri")
  }

  /**
   * One modality's turn in the training loop (federated_training.py:121-128).
   * A modality without data is skipped. Otherwise `num_local_epochs` is read
   * (line 159) and the epoch schedule runs.
   */
  function TrainStep(trainer: Trainer, datasets: map<string, DatasetPair>, config: Config, m: string)
    : Result<ModalityRun, TrainingError>
  {
    if m !in datasets then Success(ModalityRun(map[], map[]))
    else if "num_local_epochs" !in config then Failure(MissingSetting("num_local_epochs"))
    else
      match Schedule(trainer, m, datasets[m], Clamp(config["num_local_epochs"]))
      case Failure(msg) => Failure(TrainerRaised(msg))
      case Success(run) => Success(run)
  }

  /**
   * The body of the `try` in `participate_in_round` (federated_training.py:113-137):
   * all loaders are built, then each modality is trained in turn, and the first
   * raise ends the round.
   */
  function RunRound(trainer: Trainer, datasets: map<string, DatasetPair>, config: Config, size: Dataset -> nat)
    : Result<map<string, ModalityRun>, TrainingError>
  {
    match CreateLoaders(datasets, config, size)
    case Failure(e) => Failure(e)
    case Success(_) =>
      match TrainStep(trainer, datasets, config, "ct")
      case Failure(e) => Failure(e)
      case Success(ct) =>
        match TrainStep(trainer, datasets, config, "mri")
        case Failure(e) => Failure(e)
        case Success(mri) => Success(map["ct" := ct, "mri" := mri])
  }

  /**
   * What makes a round fail because of modality `m`, which has data. A setting
   * may be missing. The batch size may not be positive, or the training half
   * may be empty, and then `DataLoader` raises. Or a trainer call may raise.
   */
  predicate ModalityFails(trainer: Trainer, datasets: map<string, DatasetPair>, config: Config,
                          size: Dataset -> nat, m: string)
    requires m in datasets
  {
    || "batch_size" !in config || config["batch_size"] <= 0 || size(datasets[m].train) == 0
    || "num_local_epochs" !in config
    || SomeCallRaises(trainer, m, datasets[m], Clamp(config["num_local_epochs"]))
  }

  /** A modality's loaders and training both go through exactly when it gives no reason to fail. */
  lemma ModalityStepsSucceed(trainer: Trainer, datasets: map<string, DatasetPair>, config: Config,
                             size: Dataset -> nat, m: string)
    requires m in datasets
    ensures LoaderCheck(datasets, config, size, m).Success? && TrainStep(trainer, datasets, config, m).Success?
            <==> !ModalityFails(trainer, datasets, config, size, m)
  {
    if "num_local_epochs" in config {
      ScheduleFailsWhenACallRaises(trainer, m, datasets[m], Clamp(config["num_local_epochs"]));
    }
  }

  /**
   * A round fails exactly when some modality with data gives a reason to fail.
   * The reasons are: a missing setting, an empty training half, a batch size
   * that is not positive, or a trainer call that raises.
   */
  lemma RoundFailsExactlyWhen(trainer: Trainer, datasets: map<string, DatasetPair>, config: Config, size: Dataset -> nat)
    ensures RunRound(trainer, datasets, config, size).Failure? <==>
      exists m | m in datasets.Keys * {"ct", "mri"} :: ModalityFails(trainer, datasets, config, size, m)
  {
    if "ct" in datasets {
      ModalityStepsSucceed(trainer, datasets, config, size, "ct");
    }
    if "mri" in datasets {
      ModalityStepsSucceed(trainer, datasets, config, size, "mri");
    }
  }

  /**
   * A round that completes reports both modalities. A modality without data
   * keeps its empty entries. A modality with data has a training entry for
   * every epoch and a validation entry for every even epoch.
   */
  lemma RoundReportsBothModalities(trainer: Trainer, datasets: map<string, DatasetPair>, config: Config, size: Dataset -> nat)
    ensures var r := RunRound(trainer, datasets, config, size);
      r.Success? ==>
        && r.value.Keys == {"ct", "mri"}
        && (forall m :: m in r.value && m !in datasets ==> r.value[m] == ModalityRun(map[], map[]))
        && (forall m :: m in r.value && m in datasets ==>
              && "num_local_epochs" in config
              && (forall e: nat :: e in r.value[m].train <==> e < config["num_local_epochs"])
              && r.value[m].val.Keys == EvenEpochs(config["num_local_epochs"]))
  {
    if "num_local_epochs" in config {
      var upTo := Clamp(config["num_local_epochs"]);
      assert EvenEpochs(upTo) == EvenEpochs(config["num_local_epochs"]);
      if "ct" in datasets {
        ScheduleRecordsEveryCall(trainer, "ct", datasets["ct"], upTo);
      }
      if "mri" in datasets {
        ScheduleRecordsEveryCall(trainer, "mri", datasets["mri"], upTo);
      }
    }
  }

  /** A dictionary keyed by exactly the two modalities is determined by its two entries. */
  lemma BothModalities(metrics: map<string, ModalityRun>)
    requires metrics.Keys == {"ct", "mri"}
    ensures metrics == map["ct" := metrics["ct"], "mri" := metrics["mri"]]
  {
  }

  /** The number of epochs `range(n)` runs. */
  function Clamp(n: int): nat {
    if n < 0 then 0 else n
  }

  /** The dictionary `_prepare_client_update` builds (federated_training.py:177-189). */
  datatype UpdateRecord = UpdateRecord(
    clientId: string,
    round: int,
    modelUpdate: StateDict,
    metrics: map<string, ModalityRun>,
    timestamp: string,
    numSamples: map<string, nat>)

  class FederatedTrainingManager {
    const clientId: string
    const dataPath: map<string, string>
    const config: Config
    const trainer: Trainer
    const datasets: map<string, DatasetPair>
    /** The length of each dataset. */
    const datasetSize: Dataset -> nat
    var currentRound: int
    /** What `_send_update_to_server` was handed, in order; the call itself does nothing. */
    ghost var sent: seq<UpdateRecord>

    /** `__init__` (federated_training.py:14-35). */
    constructor (clientId: string, dataPath: map<string, string>, config: Option<Config>,
                 trainer: Trainer, datasetSize: Dataset -> nat)
      ensures this.clientId == clientId && this.dataPath == dataPath && this.trainer == trainer
      ensures this.config == EffectiveConfig(config) && this.datasetSize == datasetSize
      ensures datasets == InitializeDatasets(dataPath)
      ensures currentRound == 0 && sent == []
    {
      this.clientId := clientId;
      this.dataPath := dataPath;
      this.config := EffectiveConfig(config);
      this.trainer := trainer;
      this.datasetSize := datasetSize;
      datasets := InitializeDatasets(dataPath);
      currentRound := 0;
      sent := [];
    }

    /**
     * `_prepare_client_update`: the client's id, the recorded round, the trainer's
     * weights, the round's metrics, and one sample count per dataset modality, the
     * length of its training half.
     */
    function PrepareClientUpdate(metrics: map<string, ModalityRun>, timestamp: string): (u: UpdateRecord)
      reads this
      ensures u.clientId == clientId && u.round == currentRound
      ensures u.metrics == metrics && u.modelUpdate == trainer.modelUpdate
      ensures u.numSamples.Keys == datasets.Keys
      ensures forall m :: m in u.numSamples ==> u.numSamples[m] == datasetSize(datasets[m].train)
    {
      UpdateRecord(clientId, currentRound, trainer.modelUpdate, metrics, timestamp,
                   map m | m in datasets :: datasetSize(datasets[m].train))
    }

    /**
     * `participate_in_round` (federated_training.py:105-144). The round number is
     * recorded before anything can fail. Every exception is turned into a failed
     * result; on success the update has been handed to the (empty) send call.
     */
    method ParticipateInRound(roundNum: int, timestamp: string) returns (r: Result<map<string, ModalityRun>, TrainingError>)
      modifies this`currentRound, this`sent
      ensures currentRound == roundNum
      ensures r == RunRound(trainer, datasets, config, datasetSize)
      ensures r.Success? ==> sent == old(sent) + [PrepareClientUpdate(r.value, timestamp)]
      ensures r.Failure? ==> sent == old(sent)
    {
      currentRound := roundNum;
      var metrics := InitialMetrics;
      // Fetching the global model is an empty call.
      var i := 0;
      while i < |Modalities|
        invariant 0 <= i <= |Modalities|
        invariant currentRound == roundNum && sent == old(sent)
        invariant i >= 1 ==> LoaderCheck(datasets, config, datasetSize, "ct").Success?
        invariant i >= 2 ==> LoaderCheck(datasets, config, datasetSize, "mri").Success?
      {
        var modality := Modalities[i];
        if modality in datasets {
          if "batch_size" !in config {
            return Failure(MissingSetting("batch_size"));
          }
          if datasetSize(datasets[modality].train) == 0 {
            return Failure(EmptyTrainingSet(modality));
          }
          if config["batch_size"] <= 0 {
            return Failure(InvalidBatchSize(config["batch_size"]));
          }
        }
        i := i + 1;
      }
      var j := 0;
      while j < |Modalities|
        invariant 0 <= j <= |Modalities|
        invariant currentRound == roundNum && sent == old(sent)
        invariant CreateLoaders(datasets, config, datasetSize).Success?
        invariant metrics.Keys == {"ct", "mri"}
        invariant j < 1 ==> metrics["ct"] == ModalityRun(map[], map[])
        invariant j < 2 ==> metrics["mri"] == ModalityRun(map[], map[])
        invariant j >= 1 ==> TrainStep(trainer, datasets, config, "ct") == Success(metrics["ct"])
        invariant j >= 2 ==> TrainStep(trainer, datasets, config, "mri") == Success(metrics["mri"])
      {
        var modality := Modalities[j];
        if modality in datasets {
          if "num_local_epochs" !in config {
            return Failure(MissingSetting("num_local_epochs"));
          }
          var run := TrainModality(trainer, modality, datasets[modality], config["num_local_epochs"]);
          if run.Failure? {
            return Failure(TrainerRaised(run.error));
          }
          metrics := metrics[modality := run.value];
        }
        j := j + 1;
      }
      sent := sent + [PrepareClientUpdate(metrics, timestamp)];
      BothModalities(metrics);
      return Success(metrics);
    }
  }
}
