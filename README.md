# MedAi-Assistant federated round bookkeeping, in Dafny

This project models the bookkeeping that MedAi-Assistant's federated learning backend does around training. The neural networks themselves are not modelled. It covers:

- **server**: the `FederatedServer` round state machine. It opens a round, admits and stores client updates, fires the FedAvg aggregation once enough distinct clients have reported, and resets afterwards.
- **orchestrator**: the `FederatedOrchestrator` client registry and client selection. Selection has a count formula, a weight formula and a draw without replacement; the orchestrator also keeps its own round flag.
- **client**: the dashboard counters and the 100-entry newest-first list of recent analyses kept by `FederatedClient`, and its diagnosis lookup.
- **patient records**: the in-memory patient records of `PatientDataManager`.
- **metrics logger**: the per-round records of `MetricsLogger` and the dashboard summary built from them.
- **file split**: the train/validation file split of `FastMRIDataset`.
- **trainer bookkeeping**: the per-round work of `FederatedTrainingManager`. This is the dataset choice, the checks torch applies when the data loaders are built, the epoch schedule (train every epoch, validate on even epochs), the recorded round and the update record.

## How the model is structured

Each source file is one module:

| module | source file |
|---|---|
| `Server` | `server.py` |
| `Orchestrator` | `orchestrator.py` |
| `Client` | `client.py` |
| `DataLoader` | `data_loader.py` |
| `MetricsLogger` | `metrics_logger.py` |
| `DataPreprocessing` | `data_preprocessing.py` |
| `FederatedTraining` | `federated_training.py` |

Four helper modules support them:

- `Aggregation` gives the FedAvg reduction stated on values.
- `Diagnosis` gives the label table that client and server share.
- `SeqUtil` gives distinctness of sequences and sums of reals.
- `Wrappers` gives `Option` and `Result`.

**Source objects become classes.** Every source object whose fields change in place is a Dafny `class` with the same fields. Its methods change those fields step by step, with the same branches and error cases as the source. Exceptions become `Failure` results.

**Server methods are proved against functions.** Each server operation is first written as a function on a value `ServerState`. The class method is proved to return exactly that function's result and to leave exactly that function's new state. The lemmas about the round protocol are stated on those functions.

**Dictionary order is kept.** A Python dictionary iterates in insertion order. The server therefore keeps the order in which client ids first arrived (`arrival`), next to the map of updates. The FedAvg sums are taken in that order.

**Randomness is a nondeterministic choice.** The draws made by `random.sample` and `np.random.choice` are described only by what they guarantee:

- the right number of clients;
- no client twice;
- every client drawn is active;
- a failure under exactly the conditions in which those calls raise.

**Outside facts are parameters.** Anything read from outside the program becomes a parameter:

- timestamps;
- file listings and loaded JSON;
- the metrics returned by the database;
- dataset lengths;
- the trainer's results.

**Numbers are exact.** Tensors and floats are real numbers, and integers are unbounded.

## Model

Source paths are relative to the repository root.

| member | source | states |
|---|---|---|
| Aggregation.TotalSamples | MedAi-Assistant/fl-backend/server/server.py:113-117 | The total is defined exactly when every update has a `total_samples` entry; otherwise the lookup raises `KeyError`. When defined, it is the sum of those entries. |
| Aggregation.FedAvg | MedAi-Assistant/fl-backend/server/server.py:109-126 | The aggregate has exactly the global model's keys, so keys that only updates carry are ignored. |
| Aggregation.WeightedParam | MedAi-Assistant/fl-backend/server/server.py:119-126 | The aggregate for one key is Σ param_i · (samples_i / total), taken in the order the updates arrived. A key an update lacks counts as 0 for it. Its meaning is in the two lemmas below. |
| Aggregation.AbsentKeyAggregatesToZero | MedAi-Assistant/fl-backend/server/server.py:119-126 | A key that no update carries aggregates to 0. |
| Aggregation.WeightedParamIsWeightedMean | MedAi-Assistant/fl-backend/server/server.py:119-126 | Each aggregated parameter is Σ samples_i · param_i divided by the total, i.e. the sample-weighted mean. |
| Aggregation.WeightSumIsRatio | MedAi-Assistant/fl-backend/server/server.py:120-121 | The applied weights samples_i / total add up to (Σ samples_i) / total. |
| Aggregation.WeightsSumToOne | MedAi-Assistant/fl-backend/server/server.py:113-121 | When the total is the sum over the same updates, the weights sum to exactly 1. |
| Aggregation.EqualSamplesSum | MedAi-Assistant/fl-backend/server/server.py:113-126 | With every update reporting the same sample count s, the total is n · s and the weighted sum is s times the plain sum. |
| Aggregation.EqualSamplesGiveMean | MedAi-Assistant/fl-backend/server/server.py:113-126 | Equal non-zero sample counts make the aggregate the plain arithmetic mean of the clients' values. |
| Aggregation.UniformRawWeighted | MedAi-Assistant/fl-backend/server/server.py:119-126 | When all clients send the same value c for a key, the weighted sum is c times the total. |
| Aggregation.UnanimousValueIsKept | MedAi-Assistant/fl-backend/server/server.py:119-126 | When all clients send the same value for a key, the aggregate for that key is that value. |
| Aggregation.MissingKeyActsAsZero | MedAi-Assistant/fl-backend/server/server.py:124-126 | An update that lacks a key gives the same aggregate as one that sets the key to 0. |
| Aggregation.WeightedScenario | MedAi-Assistant/fl-backend/server/server.py:113-126 | Values 1, 2 and 3 over 100, 200 and 300 samples give a total of 600 and an aggregate of 7/3. |
| Server.Start | MedAi-Assistant/fl-backend/server/server.py:54-64 | Fails exactly when a round is running, and then leaves the state as it was. Otherwise: the round number goes up by exactly one and is returned, the flag is raised, the updates are emptied, and the model is untouched. |
| Server.Store | MedAi-Assistant/fl-backend/server/server.py:78 | Storing a valid update keeps the map and the arrival order in step, with one entry per client. |
| Server.ShouldAggregate | MedAi-Assistant/fl-backend/server/server.py:90 | With a threshold in [0, 1], `min_clients` distinct updates always trigger aggregation. With a positive minimum and threshold, an empty store never does. |
| Server.Add | MedAi-Assistant/fl-backend/server/server.py:66-101 | The round number never changes, and a receipt names the current round. `NoRoundInProgress` occurs exactly when no round runs. `InvalidUpdateFormat` occurs exactly when a round runs and the update lacks `model_update` or `metrics`. Both refusals leave the state as it was. |
| Server.Aggregate | MedAi-Assistant/fl-backend/server/server.py:103-147 | The flag is cleared on every path, and the round number never changes. It succeeds exactly when updates are stored, every one reports `total_samples`, and the total is not 0. Then the model becomes the FedAvg of the stored updates, the updates are emptied, and the round number is returned. `MissingTotalSamples` occurs exactly when some update lacks `total_samples`. `ZeroTotalSamples` occurs exactly when updates are stored, all report samples, and the total is 0; `NoUpdatesToAverage` exactly when nothing is stored. A failure with updates stored changes nothing but the flag. A failure with none stored changes only the flag and the model. |
| Server.AggregationSucceeds | MedAi-Assistant/fl-backend/server/server.py:103-142 | When all updates report samples and the total is not 0, aggregation sets the new state exactly: flag off, updates empty, model replaced by the FedAvg, everything else unchanged. |
| Server.AddOutcome | MedAi-Assistant/fl-backend/server/server.py:66-101 | Outside a round the call fails with `NoRoundInProgress`; a malformed update fails with `InvalidUpdateFormat`. Both change nothing. A valid update:<br>• is stored under its id, and a resubmission replaces the earlier update;<br>• keeps the round number;<br>• triggers aggregation exactly when the number of distinct clients reaches `min_clients * threshold`, and the flag stays up exactly when it does not;<br>• below the threshold, gets a receipt with the round and the distinct count;<br>• after a successful aggregation, gets a receipt with `updates_received` 0. |
| Server.ResubmissionReplaces | MedAi-Assistant/fl-backend/server/server.py:78 | A second submission from the same client in the same open round replaces the first. The count stays the same and the client's position in the order stays the same. |
| Server.DefaultThreshold | MedAi-Assistant/fl-backend/server/server.py:22-24 | With the defaults 3 and 0.8, exactly the counts of 3 or more clients meet the trigger. Two clients do not, three do. |
| Server.SubmissionThatAggregates | MedAi-Assistant/fl-backend/server/server.py:88-97 | Take a submission that brings the distinct count to the threshold, where every stored update reports samples and the total is not 0. It closes the round. The model becomes the FedAvg in arrival order, and the receipt names the round with 0 updates received. |
| Server.ClientBelowThreshold | MedAi-Assistant/fl-backend/server/server.py:77-97 | Under the defaults, a new first or second client is appended last, and the round stays open. The receipt carries the new count. |
| Server.ThirdClientAggregates | MedAi-Assistant/fl-backend/server/server.py:88-97 | Under the defaults, a third distinct client triggers aggregation over the three updates in arrival order and closes the round. |
| Server.RoundCountsSuccessfulStarts | MedAi-Assistant/fl-backend/server/server.py:54-64 | Over any sequence of calls, the round number grows by exactly the number of starts that succeeded. Submissions and aggregations never change it. |
| Server.GetDiagnosis | MedAi-Assistant/fl-backend/server/server.py:261-277 | A known modality and index give the table's label. A known modality with any other index gives "Unknown". An unknown modality raises `KeyError`. |
| Server.AddWeighted | MedAi-Assistant/fl-backend/server/server.py:124-126 | Each key the aggregate has gains `value * weight` from the client's state dict. Other keys are skipped and the key set does not change. |
| Server.WeightedAverage | MedAi-Assistant/fl-backend/server/server.py:108-126 | The loop computes exactly the FedAvg. It fails with `ZeroDivisionError` exactly when there is an update and the total is 0. |
| Server.FederatedServer.constructor | MedAi-Assistant/fl-backend/server/server.py:19-38 | The server starts at round 0, with no updates, no round running and the given model. The checkpoint coroutine is never awaited, so it never changes this. |
| Server.FederatedServer.StartTrainingRound | MedAi-Assistant/fl-backend/server/server.py:54-64 | Returns, and leaves the fields in, exactly the state `Server.Start` gives. |
| Server.FederatedServer.AddClientUpdate | MedAi-Assistant/fl-backend/server/server.py:66-101 | Returns, and leaves the fields in, exactly the state `Server.Add` gives. |
| Server.FederatedServer.AggregateUpdates | MedAi-Assistant/fl-backend/server/server.py:103-147 | Returns, and leaves the fields in, exactly the state `Server.Aggregate` gives. |
| Diagnosis.Labels | MedAi-Assistant/fl-backend/server/server.py:263-276 | The label table has `ct` and `mri` with indices 0-3 each and no other modality. |
| Orchestrator.Truncate | MedAi-Assistant/fl-backend/server/orchestrator.py:43 | Python's `int()` on a float gives the integer part, rounding toward zero. |
| Orchestrator.NumToSelect | MedAi-Assistant/fl-backend/server/orchestrator.py:41-44 | The count is the larger of `min_clients` and the truncated product `int(len(active_clients) * fraction)`: at least both, and equal to one of them. |
| Orchestrator.NumToSelectBounds | MedAi-Assistant/fl-backend/server/orchestrator.py:38-44 | Once the guard "at least `min_clients` active" passes and the fraction is in [0, 1], the count `max(min_clients, int(len(active_clients) * fraction))` lies between `min_clients` and the number of active clients. |
| Orchestrator.SelectionCountIsFloor | MedAi-Assistant/fl-backend/server/orchestrator.py:41-44 | The count is truncated: 10 clients at 0.85 give 8, and 4 clients at 0.8 give the minimum 3. |
| Orchestrator.RawWeight | MedAi-Assistant/fl-backend/server/orchestrator.py:58-63 | The combined weight is `0.4 dq + 0.4 contribution + 0.2 comm`, with the documented defaults for missing entries. When the accuracy and the response rate are fractions and `num_samples` is at most `total_samples`, it is a fraction as well. |
| Orchestrator.SelectionWeight | MedAi-Assistant/fl-backend/server/orchestrator.py:55-64 | A client's weight is `max(0.1, 0.4 dq + 0.4 contribution + 0.2 comm)`, so it is at least 0.1. A recorded `total_samples` of 0 raises. |
| Orchestrator.DefaultWeights | MedAi-Assistant/fl-backend/server/orchestrator.py:55-64 | A client with no metrics gets weight 0.4. A raw weight below 0.1 is floored at 0.1. |
| Orchestrator.Probabilities | MedAi-Assistant/fl-backend/server/orchestrator.py:66-68 | There is one probability for each active client, in the set's iteration order, and each is positive. |
| Orchestrator.ProbabilitiesAreDistribution | MedAi-Assistant/fl-backend/server/orchestrator.py:66-68 | For a non-empty client set, the normalised probabilities are all positive and sum to 1, and there are as many positive entries as clients. For no clients they are empty, and so not a distribution. |
| Orchestrator.ListOf | MedAi-Assistant/fl-backend/server/orchestrator.py:54 | Iterating over the active set visits each client exactly once. |
| Orchestrator.DrawFails | MedAi-Assistant/fl-backend/server/orchestrator.py:49-50 | The conditions under which the draw raises `ValueError`: a size that is negative or larger than the pool, or a `p` that has the wrong length, is not a distribution, or has fewer positive entries than the size. Its use is in the `Draw` row. |
| Orchestrator.Draw | MedAi-Assistant/fl-backend/server/orchestrator.py:49-50 | The draw returns `n` distinct members of the pool. It fails exactly when `random.sample` or `np.random.choice(replace=False, p)` would raise. |
| Orchestrator.ComputeWeights | MedAi-Assistant/fl-backend/server/orchestrator.py:53-64 | The loop fails exactly when some active client's record has `total_samples` 0. Otherwise every active client, and no other, gets its `SelectionWeight`. |
| Orchestrator.SelectionFails | MedAi-Assistant/fl-backend/server/orchestrator.py:36-78 | The conditions under which `select_clients` raises: fewer active clients than `min_clients`; a failed metrics lookup; with metrics, no clients, or a client whose `total_samples` is 0; or a size the draw refuses. Its use is in the `SelectClients` and `SelectionSucceeds` rows. |
| Orchestrator.SelectionSucceeds | MedAi-Assistant/fl-backend/server/orchestrator.py:36-78 | Take `min_clients >= 1` and a fraction in [0, 1]. Then selection succeeds exactly when enough clients are active, the metrics lookup worked, and, if metrics were recorded, no active client has `total_samples` 0. |
| Orchestrator.SelectionWithoutLookupFails | MedAi-Assistant/fl-backend/server/orchestrator.py:47 | With the metrics lookup raising, as the undefined `get_all_client_metrics` always does, selection fails for every set of active clients. This is a one-step consequence of `SelectionFails`; the method rows state where it matters. |
| Orchestrator.Register | MedAi-Assistant/fl-backend/server/orchestrator.py:26-34 | The client joins the set and nobody else does. The reply names the client and counts the clients afterwards, which is one more than before only for a new client. |
| Orchestrator.RegistrationIsIdempotent | MedAi-Assistant/fl-backend/server/orchestrator.py:26-34 | Registering a client a second time leaves the set as the first registration left it, and gives the same reply. |
| Orchestrator.FederatedOrchestrator.constructor | MedAi-Assistant/fl-backend/server/orchestrator.py:11-24 | No clients and no round at the start. The server gets the same minimum and its default threshold, and starts at round 0. |
| Orchestrator.FederatedOrchestrator.RegisterClient | MedAi-Assistant/fl-backend/server/orchestrator.py:26-34 | The new set and the reply are exactly those of `Register`. |
| Orchestrator.FederatedOrchestrator.SelectClients | MedAi-Assistant/fl-backend/server/orchestrator.py:36-78 | Fails exactly under `SelectionFails`, and with "Not enough active clients" exactly when fewer than `min_clients` clients are active. With enough clients and a metrics lookup that raised, it fails with `MetricsUnavailable`. On success it returns `NumToSelect` distinct active clients, with or without metrics. |
| Orchestrator.FederatedOrchestrator.StartTrainingRound | MedAi-Assistant/fl-backend/server/orchestrator.py:80-100 | Refused, with nothing changed, while the orchestrator's round runs. Failing selection or a failing server start lowers the flag again. In particular, with enough clients and the metrics lookup raising, as it always does as written, the result is `MetricsUnavailable`, the flag is down and the server is untouched. Otherwise the server's round is started, and the result carries its number, the selected clients and the timeout, which is only echoed. |
| Orchestrator.FederatedOrchestrator.ProcessClientUpdate | MedAi-Assistant/fl-backend/server/orchestrator.py:102-120 | Refused outside a round. Otherwise the result is exactly the server's `Add` outcome. The flag is never lowered, because the server's receipt has no `aggregation_completed` entry. |
| Orchestrator.FederatedOrchestrator.ProcessClientUpdateAndClose | MedAi-Assistant/fl-backend/server/orchestrator.py:102-120 | As `ProcessClientUpdate`, except for the flag. Within a round, the flag is lowered exactly when the server accepted the update and closed its round by aggregating. Outside a round it stays down. |
| Client.PushRecent | MedAi-Assistant/fl-backend/client/client.py:191-194 | The new result goes in front. At 100 or more entries the last one is dropped and the others keep their order; below 100 the old list follows unchanged. |
| Client.ReplayIsNewestFirstWindow | MedAi-Assistant/fl-backend/client/client.py:39 | Starting from the empty list, after any n results the list holds min(n, 100) entries. Entry i is the result recorded i places before the latest, so the list never exceeds 100. |
| Client.GetDiagnosis | MedAi-Assistant/fl-backend/client/client.py:164-180 | Defined exactly for `ct` or `mri` with an index in 0-3, and then gives the table label. Anything else raises `KeyError`. |
| Client.ClientAndServerDiagnosesAgree | MedAi-Assistant/fl-backend/client/client.py:164-180 | Client and server give the same label wherever the client answers. Where the client raises for a known modality, the server says "Unknown"; both raise for an unknown modality. |
| Client.DashboardMetrics.constructor | MedAi-Assistant/fl-backend/client/client.py:35-40 | The counters start at 0, the accuracy starts at 0.0, and the recent list starts empty. |
| Client.FederatedClient.constructor | MedAi-Assistant/fl-backend/client/client.py:35-40 | A new client owns fresh dashboard metrics in their initial state. |
| Client.FederatedClient.GetMetrics | MedAi-Assistant/fl-backend/client/client.py:182-184 | Returns the live metrics object itself, not a copy. |
| Client.FederatedClient.UpdateMetrics | MedAi-Assistant/fl-backend/client/client.py:186-194 | Uploads and analyses each go up by exactly 1, the accuracy is unchanged, and the list becomes `PushRecent` of the old list. The bound of 100 is preserved. |
| DataLoader.WithRecord | MedAi-Assistant/fl-backend/client/data_loader.py:144-155 | A new patient gets an entry with the given name and exactly one record. A known patient keeps the name and gets the record appended. All other patients are unchanged. |
| DataLoader.History | MedAi-Assistant/fl-backend/client/data_loader.py:159-162 | Gives the stored records of a known patient, and `[]` for an unknown one. |
| DataLoader.HistoryAfterAdd | MedAi-Assistant/fl-backend/client/data_loader.py:144-162 | After an add, the patient's history is the old history followed by the new record. Every other patient's history is unchanged. |
| DataLoader.HistoryOfSuccessiveAdds | MedAi-Assistant/fl-backend/client/data_loader.py:144-162 | Records added one after another for a new patient appear in the history in the order they were added, under the given name. |
| DataLoader.AddAsWritten | MedAi-Assistant/fl-backend/client/data_loader.py:144-155 | As written, the call always fails with `NameError` and never appends a record; it only creates the empty entry for a new patient. |
| DataLoader.AsWrittenLosesTheRecord | MedAi-Assistant/fl-backend/client/data_loader.py:150-155 | As written, no add changes any history, whereas the intended add appends the record. A new patient is left registered with no records. |
| DataLoader.PatientDataManager.constructor | MedAi-Assistant/fl-backend/client/data_loader.py:124-132 | The records are what was loaded. |
| DataLoader.PatientDataManager.AddPatientRecord | MedAi-Assistant/fl-backend/client/data_loader.py:138-155 | The records become `WithRecord` of the old records and a record with the given path, type, upload time and analysis result. |
| DataLoader.PatientDataManager.AddPatientRecordAsWritten | MedAi-Assistant/fl-backend/client/data_loader.py:138-155 | Result and records are exactly those of `AddAsWritten`. |
| DataLoader.PatientDataManager.GetPatientHistory | MedAi-Assistant/fl-backend/client/data_loader.py:159-162 | Returns `History` of the current records. |
| MetricsLogger.Summarise | fl-backend/client/metrics_logger.py:68-72 | Each of `loss`, `accuracy` and `dice_score` is copied when present and is 0 when missing. |
| MetricsLogger.FormatModality | fl-backend/client/metrics_logger.py:60-73 | The output has exactly the phases among `train` and `val` that the input has, each summarised. |
| MetricsLogger.FormatWithoutPhases | fl-backend/client/metrics_logger.py:62-63 | An empty input, or one with neither phase, formats to `{}`. |
| MetricsLogger.FormatModalityMetrics | fl-backend/client/metrics_logger.py:60-73 | The loop with its early return computes exactly `FormatModality`. |
| MetricsLogger.MakeRecord | fl-backend/client/metrics_logger.py:47-54 | A record carries the round and the timestamp, and always both `ct` and `mri`. A missing modality is `{}`. |
| MetricsLogger.ValFigures | fl-backend/client/metrics_logger.py:117-122 | Gives a modality's validation accuracy and dice score, 0 when there is no `val` phase. |
| MetricsLogger.Latest | fl-backend/client/metrics_logger.py:105-125 | An empty history gives zeros and round 0. Otherwise it gives the last record's round and its validation figures. |
| MetricsLogger.ReportedFigures | fl-backend/client/metrics_logger.py:117-122 | Gives the validation figures as the trainer reported them, each 0 when missing. |
| MetricsLogger.LatestAfterLog | fl-backend/client/metrics_logger.py:45-125 | Right after logging a round, the dashboard shows that round and the validation figures it reported, 0 where missing, whatever came before. |
| MetricsLogger.MetricsLogger.constructor | fl-backend/client/metrics_logger.py:11-25 | The history is what was loaded. |
| MetricsLogger.MetricsLogger.LogTrainingMetrics | fl-backend/client/metrics_logger.py:45-58 | Exactly one record is appended at the end, carrying the given round. Earlier records are unchanged. |
| MetricsLogger.MetricsLogger.GetTrainingMetrics | fl-backend/client/metrics_logger.py:105-125 | Gives `Latest` of the history. |
| DataPreprocessing.SplitIndex | MedAi-Assistant/fl-backend/client/data_preprocessing.py:83-84 | The cut `int(0.8 n)` is the largest k with 5k <= 4n, and is at most n. |
| DataPreprocessing.GetFiles | MedAi-Assistant/fl-backend/client/data_preprocessing.py:78-84 | The `train` split is the prefix before the cut; any other split is the suffix from it. |
| DataPreprocessing.SplitPartitions | MedAi-Assistant/fl-backend/client/data_preprocessing.py:82-84 | Train followed by val is the whole listing, so nothing is lost, repeated or reordered. The sizes are `floor(0.8 n)` and the rest. |
| DataPreprocessing.SplitExamples | MedAi-Assistant/fl-backend/client/data_preprocessing.py:83-84 | 10 files split 8/2, 4 split 3/1, 5 split 4/1 and 1 goes to validation. |
| DataPreprocessing.FastMRIDataset.constructor | MedAi-Assistant/fl-backend/client/data_preprocessing.py:71-76 | The dataset keeps its settings and the files of its split. |
| DataPreprocessing.FastMRIDataset.Length | MedAi-Assistant/fl-backend/client/data_preprocessing.py:86-87 | `__len__` is the number of files in the split. |
| FederatedTraining.EffectiveConfig | MedAi-Assistant/fl-backend/client/federated_training.py:24 | An absent or empty configuration is replaced by the default; any other is kept. |
| FederatedTraining.InitializeDatasets | MedAi-Assistant/fl-backend/client/federated_training.py:51-81 | Entries exist exactly for `ct` and `mri` among the data paths. Each has a train half and a val half on that path, with the LIDC class for `ct` and the BraTS class for `mri`. |
| FederatedTraining.Schedule | MedAi-Assistant/fl-backend/client/federated_training.py:159-173 | The epoch schedule of `_train_modality`: train at each epoch, validate after each even one, and stop at the first call that raises. Its properties are in the next four rows. |
| FederatedTraining.ScheduleFailsWhenACallRaises | MedAi-Assistant/fl-backend/client/federated_training.py:159-173 | The epoch schedule fails exactly when one of its trainer calls raises. |
| FederatedTraining.ScheduleRecordsEveryCall | MedAi-Assistant/fl-backend/client/federated_training.py:159-173 | A completed schedule has a training entry for every epoch 0..E-1 and a validation entry for exactly the even epochs, each the trainer's report. |
| FederatedTraining.EvenEpochsStep | MedAi-Assistant/fl-backend/client/federated_training.py:168 | One more epoch adds itself to the validated epochs exactly when it is even. |
| FederatedTraining.EvenEpochCount | MedAi-Assistant/fl-backend/client/federated_training.py:159-173 | E epochs give `ceil(E/2)` validations. |
| FederatedTraining.ValidationCount | MedAi-Assistant/fl-backend/client/federated_training.py:39 | There are `ceil(E/2)` validations, and the default 5 epochs validate at 0, 2 and 4. |
| FederatedTraining.FailureIsFinal | MedAi-Assistant/fl-backend/client/federated_training.py:159-173 | Once a call has raised, every longer run fails with the same message. |
| FederatedTraining.TrainModality | MedAi-Assistant/fl-backend/client/federated_training.py:146-175 | The epoch loop computes exactly `Schedule` over `range(num_local_epochs)`. |
| FederatedTraining.LoaderCheck | MedAi-Assistant/fl-backend/client/federated_training.py:86-102 | Building a modality's loaders fails exactly when it has data and either `batch_size` is missing, the training half is empty, or the batch size is not positive. |
| FederatedTraining.ModalityStepsSucceed | MedAi-Assistant/fl-backend/client/federated_training.py:86-128 | A modality with data gets its loaders built and its training completed exactly when it has no reason to fail. |
| FederatedTraining.RunRound | MedAi-Assistant/fl-backend/client/federated_training.py:113-137 | The `try` body of `participate_in_round`. Every loader is built first, then each modality trains in turn, and the first raise ends the round. Its properties are in the next two rows. |
| FederatedTraining.RoundFailsExactlyWhen | MedAi-Assistant/fl-backend/client/federated_training.py:86-144 | A round fails exactly when some modality with data has a reason to fail. The reasons: `batch_size` or `num_local_epochs` is missing, the batch size is not positive, the training half is empty (torch refuses both when the loaders are built), or a trainer call raises. |
| FederatedTraining.RoundReportsBothModalities | MedAi-Assistant/fl-backend/client/federated_training.py:108-137 | A completed round reports both `ct` and `mri`. A modality without data keeps its empty entries; one with data has every epoch trained and the even epochs validated. |
| FederatedTraining.BothModalities | MedAi-Assistant/fl-backend/client/federated_training.py:108-111 | A result keyed by exactly the two modalities is determined by its two entries. |
| FederatedTraining.FederatedTrainingManager.constructor | MedAi-Assistant/fl-backend/client/federated_training.py:14-35 | The manager keeps the effective configuration and the datasets `InitializeDatasets` chooses. It starts at round 0. |
| FederatedTraining.FederatedTrainingManager.PrepareClientUpdate | MedAi-Assistant/fl-backend/client/federated_training.py:177-189 | The record carries the client's id, the recorded round, the trainer's weights and the metrics. `num_samples` has exactly one key per dataset modality, valued at the train half's length. |
| FederatedTraining.FederatedTrainingManager.ParticipateInRound | MedAi-Assistant/fl-backend/client/federated_training.py:105-144 | The round number is recorded whatever happens next. The loader loop and the training loop together compute exactly `RunRound`, so every exception becomes a failed result. On success exactly one update record is handed to the send call; on failure none is. |

## Left out

- Persistence and I/O are not modelled: the database wrappers, checkpoint saving and loading, the JSON history and patient-record files, the log files and image writes. Loaded contents are taken as constructor parameters, and writes are omitted.
- `_load_latest_checkpoint` is an `async` method called without `await` in `__init__`, so it never runs. The server therefore always starts at round 0.
- Concurrency is not modelled. Every method is `async`, but there is no locking, so calls are modelled as running one at a time.
- Neural networks, training, differential-privacy noise, image decoding and preprocessing, and all metric computation are foreign library code and floating point. Trainer results are opaque functions, and tensors are one real number per parameter name.
- `DualTaskMedicalModel` is imported by `federated_training.py` (line 11) and by `training.py`, but `model.py` defines only `DualModalityModel` (line 62). The trainer is therefore an opaque parameter.
- `MedAIModel` is imported by `server.py` (line 14, `from .model import MedAIModel`) and by `client.py` (line 7), and both constructors build one (server.py:32, client.py:27). `client/model.py` defines only `Encoder`, `DecoderBlock` and `DualModalityModel`, so importing `client.py` raises `ImportError` as written. A `server/model.py` is not part of this model. `Server.FederatedServer.constructor` and `Client.FederatedClient.constructor` are modelled as if the import worked, with the network reduced to the initial state dict or left out.
- Rounding is not modelled. The FedAvg arithmetic is exact over the reals, and 0.8 thresholds are the real 0.8. `int(0.8 * n)` is the exact floor of 4n/5, which the IEEE product also gives, because the double nearest 0.8 lies slightly above it.
- The probability distributions of `random.sample` and `np.random.choice` are not modelled. Only their guarantees are, together with the conditions under which they raise.
- `get_all_client_metrics` is called by `select_clients`, but is not defined in `db_operations.py`. Its result is a parameter of type `Option`, where `None` stands for the call raising.
- Timestamps (`datetime.now()`, `datetime.utcnow()`) are opaque string parameters.
- `check_round_completion` and `get_training_status` in the orchestrator are left out, because they call server methods that do not exist. The entry points `cli.py` and `train.py` are left out, because they are argument parsing plus calls to members that do not exist.
- `process_image`, `get_model_for_client`, `train_round`, `_log_round_summary` and the plotting in `metrics_logger.py` are left out. They are I/O, numerics or logging, and change no state the model keeps.
- The metrics record that `add_client_update` writes to the database is not modelled; it is persistence only.
- `LIDCDataset` and `BraTSDataset` are imported from `data_preprocessing.py`, where they do not exist. Datasets are abstract in the model, and their lengths are a function given to the manager.
- The trainer's internal state is not modelled: each call's report depends only on its arguments.
- FederatedTraining.EffectiveConfig: keeps only the integer settings. The float and nested entries of the default configuration are never read by the bookkeeping. `MedicalTrainer.__init__` also reads `learning_rate` and `weight_decay` (training.py:26-29), so a custom configuration without them raises `KeyError` when the manager is built. The model does not capture that failure.
- DataLoader.PatientDataManager.GetPatientHistory: returns the records by value. In the source the list returned is the stored list itself, so a caller could change it in place.
- The JSON files are assumed to hold the shapes the code writes: the patient records and the metrics history.
- Orchestrator.FederatedOrchestrator.ProcessClientUpdate: the flag is never lowered. The source would lower it on a truthy `aggregation_completed`, but the server's result never carries that key. `ProcessClientUpdateAndClose` models the evidently intended behaviour; see Findings.
- Server.ThirdClientAggregates: the three-client scenario is stated step by step. `ClientBelowThreshold` covers each of the first two submissions and `ThirdClientAggregates` covers the third. There is no single lemma over all three calls from an empty round.

## Findings

| source | as written | input that shows it | evidently intended | confidence | as-written member | corrected member |
|---|---|---|---|---|---|---|
| MedAi-Assistant/fl-backend/client/data_loader.py:153 | `add_patient_record` calls `datetime.now()`, but `data_loader.py` never imports `datetime`, so every call raises `NameError` after the entry has been created and before the record is appended | any call, e.g. a new patient "p1" with one image: afterwards "p1" exists with no records | the record, stamped with the upload time, is appended to the patient's list | not executed | DataLoader.AsWrittenLosesTheRecord | DataLoader.PatientDataManager.AddPatientRecord |
| MedAi-Assistant/fl-backend/server/orchestrator.py:47 | `select_clients` calls `TrainingMetricsOperations.get_all_client_metrics()`, which `db_operations.py` does not define, so the call raises `AttributeError`, and `start_training_round` always reports failure and lowers its flag | any round start with at least `min_clients` registered clients | the metrics of earlier rounds are fetched, and clients are drawn uniformly or by weight | not executed | Orchestrator.FederatedOrchestrator.StartTrainingRound | Orchestrator.SelectionSucceeds |
| MedAi-Assistant/fl-backend/server/orchestrator.py:110 | `process_client_update` lowers `round_in_progress` only when the server's result has a true `aggregation_completed`, a key `add_client_update` never returns, so the orchestrator's round never ends | three distinct clients submitting under the defaults: the server aggregates and closes its round, but the orchestrator's flag stays up and every later `start_training_round` is refused | the flag is lowered once the server has aggregated the round | not executed | Orchestrator.FederatedOrchestrator.ProcessClientUpdate | Orchestrator.FederatedOrchestrator.ProcessClientUpdateAndClose |
