# Training-argument resolution of chemprop, in Dafny

This project models how chemprop turns parsed training options into the configuration that training
runs with. The function `modify_train_args` does this, together with `update_args_from_checkpoint_dir`
(both in `chemprop/parsing.py`). It starts from the argparse namespace that `add_train_args` declares.
It then works through these steps, in this order:

1. chooses a save directory;
2. turns the three negative switches into positive ones;
3. defaults and checks the evaluation metric;
4. discovers the checkpoints;
5. checks the junction-tree vocabulary;
6. decides which input features are used;
7. broadcasts and scales the learning-rate groups;
8. fills in the feed-forward defaults;
9. checks the split options;
10. zeroes the epochs of a test run;
11. detects a directory of data chunks.

Each check stops the step with its own error as soon as it fails.

The model has two layers:

- **`Resolution.Resolve`** is a pure function. It takes the parsed options (`Options.Args`) and a host
  (`Host.Env`), and returns the resolved options or the first error (`Resolution.ResolveError`). It is
  written as a chain of stage functions, one per step of the source.
- **`Namespaces.Namespace`** is a class with one field per option group. Its methods change the
  namespace step by step, as the source does. `ModifyTrainArgs` is proved to leave exactly the state
  `Resolve` describes, or to report exactly its error.

`ResolutionProperties` states `Resolve`'s behaviour on the parsed options alone:

- it succeeds exactly on the `Admissible` options;
- a failure reports the error of the first failing check (`FirstError`);
- every resolved field is given in terms of the inputs;
- resolution is idempotent.

`ResolutionScenarios` states what `Resolve` returns on the declared defaults and on small variations of them.

Modules and files:

| module | file | contents |
|---|---|---|
| `Wrappers` | `wrappers.dfy` | `Option` and `Result` |
| `Choices` | `choices.dfy` | the `choices` sets of the options the step reads |
| `Host` | `host.dfy` | GPU query, temporary directory name, existence and directory tests, directory walks, POSIX path join |
| `Checkpoints` | `checkpoints.dfy` | the `model.pt` search of a walk, as functions and as the loops of the source |
| `LearningRates` | `learning_rates.dfy` | group count, length check, broadcast, per-group scaling |
| `Options` | `options.dfy` | the option record, and the defaults `add_train_args` declares |
| `Resolution` | `resolution.dfy` | the step as a pure function, stage by stage |
| `Namespaces` | `namespace.dfy` | the namespace the step changes in place |
| `ResolutionProperties` | `properties.dfy` | success, first error, resolved values, idempotence |
| `ResolutionScenarios` | `scenarios.dfy` | results on concrete options |

## Model

| member | source | states |
|---|---|---|
| `Host.Join` | chemprop/parsing.py:309 | Path join: an absolute second part replaces the first; otherwise the result starts with the first part, ends with the second, has a separator between them and is at most one character longer than the two parts |
| `Options.Defaults` | chemprop/parsing.py:36-291 | The namespace the parser leaves when only `--data_path` and `--dataset_type` are given carries the three negative switches and the scale list, and holds the two given values |
| `Checkpoints.EntryCheckpoints` | chemprop/parsing.py:307-309 | The `model.pt` paths of one walk entry, in file order. Its meaning is stated by `EntryCheckpointsShape` and `CollectEntryCheckpoints` |
| `Checkpoints.CheckpointPaths` | chemprop/parsing.py:304-309 | The `model.pt` paths of a whole walk, entry after entry. Its meaning is stated by `CheckpointPathsCount`, `CheckpointPathsEmptyIff`, `CheckpointPathsSound`, `CheckpointPathsComplete` and `CheckpointPathsAppend`, and `CollectCheckpoints` is the source's loop proved equal to it |
| `Checkpoints.EntryCheckpointsShape` | chemprop/parsing.py:307-309 | One walk entry contributes one path per `model.pt` it lists, and each is its root joined with `model.pt` |
| `Checkpoints.CheckpointPathsCount` | chemprop/parsing.py:306-311 | The number of paths found, which becomes the ensemble size, is the number of `model.pt` files listed anywhere in the walk |
| `Checkpoints.CheckpointPathsEmptyIff` | chemprop/parsing.py:306-314 | No path is found exactly when no entry of the walk lists a `model.pt` file |
| `Checkpoints.CheckpointPathsSound` | chemprop/parsing.py:306-309 | Every path found is a walked root joined with `model.pt`, for an entry that lists that file |
| `Checkpoints.CheckpointPathsComplete` | chemprop/parsing.py:306-309 | Every entry that lists `model.pt` contributes its path |
| `Checkpoints.CheckpointPathsAppend` | chemprop/parsing.py:306-309 | The paths keep the walk order: for a walk split in two, the first part's paths come before the second part's |
| `Checkpoints.CollectEntryCheckpoints` | chemprop/parsing.py:307-309 | The inner loop over one entry's files appends exactly that entry's checkpoint paths, in file order |
| `Checkpoints.CollectCheckpoints` | chemprop/parsing.py:304-309 | The loop over the walk collects exactly the checkpoint paths of the whole walk |
| `LearningRates.NumLrs` | chemprop/parsing.py:388 | There are one or two groups, and two exactly with a separate feed-forward optimizer |
| `LearningRates.FirstBadGroupCount` | chemprop/parsing.py:390-391 | None exactly when every list has between one and `numLrs` entries; otherwise the position of the first list that does not, with every earlier list acceptable |
| `LearningRates.Broadcast` | chemprop/parsing.py:392-394 | An acceptable list becomes one entry per group, and each group takes its own entry or the only one |
| `LearningRates.BroadcastAll` | chemprop/parsing.py:389-394 | Every list of the six is broadcast, in order |
| `LearningRates.Scale` | chemprop/parsing.py:396-399 | The entry-wise product of a rate list with the scale list |
| `LearningRates.ScaledByGroup` | chemprop/parsing.py:392-399 | After broadcasting and scaling, each group's rate is that group's entry (or the only one) times that group's scale (or the only one) |
| `LearningRates.ScaledByGroupUnit` | chemprop/parsing.py:396-399 | Scaling a list that has one entry per group by a scale list of ones leaves it unchanged |
| `Resolution.MetricAccepted` | chemprop/parsing.py:355-358 | The metric check: auc, prc-auc or accuracy for classification; rmse, mae or r2 for either regression type; rmse for a kernel dataset; any metric for the two pretraining types. `CheckMetric` and `ResolvedMetric` state what the step does with it |
| `Resolution.MinimizeScore` | chemprop/parsing.py:361 | Lower is better exactly for rmse, mae and log loss. `ResolvedMetric` states that the resolved flag is this value |
| `Resolution.DefaultMetric` | chemprop/parsing.py:336-353 | A given metric is kept. Otherwise the default is auc for classification, log loss for unsupervised, rmse for BERT pretraining on feature vectors and log loss on any other vocabulary, rmse for a kernel dataset with a kernel function, and rmse for regression and regression with binning. The only failure is a kernel dataset with no kernel function. Every default passes the metric check, and it is minimized exactly when the dataset is not classification |
| `Resolution.DiscoverCheckpoints` | chemprop/parsing.py:298-314 | With no directory the paths are absent and the ensemble size is kept. Otherwise the step fails exactly when the walk lists no `model.pt`, and on success the paths are those of the walk and the ensemble size is their positive count |
| `Resolution.VocabError` | chemprop/parsing.py:365-369 | Passes exactly when junction-tree mode is off or its vocabulary path exists. An absent path and a missing path give different errors |
| `Resolution.FeatureFlags` | chemprop/parsing.py:371-383 | Succeeds exactly when the three conditions hold: feature-and-task prediction needs regression; predicted features and feature kernels need a source; BERT pretraining excludes features-only. The errors come in source order: the regression error first, then the missing source, then BERT with features only. Features are predicted when asked for alone or with the task. Input features are used exactly when a source is given, nothing is predicted, the kernel is not a feature kernel and the task is not BERT pretraining |
| `Resolution.LearningRateGroups` | chemprop/parsing.py:385-401 | Unsupervised training forces a separate feed-forward group. Success holds exactly when all six lists have between one and the group count entries; otherwise the error names the first bad list, its length and the group count. On success every resolved list has one entry per group |
| `Resolution.LearningRateGroupsLists` | chemprop/parsing.py:389-401 | The resolved initial, maximum and final rates are the lists scaled group by group, and the warm-up and the weight decay are the lists broadcast |
| `Resolution.LearningRateGroupsValues` | chemprop/parsing.py:389-401 | For each group: its initial, maximum and final rate is that group's entry (or the only one) times that group's scale, and its warm-up and weight decay are that group's entry (or the only one) |
| `Resolution.FfnDefaults` | chemprop/parsing.py:403-410 | Fails exactly when there are fewer than one feed-forward layers. Otherwise each given feed-forward size or dropout is kept, and each unset one takes the hidden size or the dropout |
| `Resolution.SplitError` | chemprop/parsing.py:412-413 | None exactly when a scaffold-overlap split comes with an overlap and only then, a predetermined split comes with a folds file and only then, and a folds file comes with a test fold index and only then. The overlap mismatch is reported first |
| `Resolution.ChunkLocation` | chemprop/parsing.py:418-424 | A path that is not a directory is kept, with no chunk directory. A directory becomes the chunk directory. It fails exactly when the walk's first entry lists no files. A walk with no entries keeps the data path; otherwise the data path is the first entry's root joined with its first file |
| `Resolution.SaveDirStage` | chemprop/parsing.py:321-325 | The save-directory stage. `SetSaveDir` is the source's update proved equal to it, and `ResolvedDirAndSwitches` states the resolved save directory |
| `Resolution.SwitchStage` | chemprop/parsing.py:327-334 | The switch stage. `InvertNegativeSwitches` is the source's update proved equal to it, and `ResolvedDirAndSwitches` and `ResolvedShape` state the resolved switches |
| `Resolution.TestStage` | chemprop/parsing.py:415-416 | The test-run stage. `ApplyTestMode` is the source's update proved equal to it, and `ResolvedEpochs` states the resolved epoch count |
| `Resolution.Resolve` | chemprop/parsing.py:317-424 | The whole step as a function. `ResolveSucceedsIff` and `ResolveReportsFirstError` state when it succeeds and which error it reports. The `Resolved*` lemmas state each resolved field, `ResolveIdempotent` states that it is idempotent, and `ModifyTrainArgs` is the in-place modifier proved equal to it |
| `Namespaces.Namespace.SetSaveDir` | chemprop/parsing.py:321-325 | A missing save directory becomes the temporary directory's name, and nothing else changes |
| `Namespaces.Namespace.InvertNegativeSwitches` | chemprop/parsing.py:327-334 | Each positive switch is the negation of its negative one, CUDA also needs a GPU, and the negative switches are deleted |
| `Namespaces.Namespace.ResolveMetric` | chemprop/parsing.py:336-353 | The metric branches of the source, including the dead whitelist test, leave the state and return the error that `MetricDefaultStage` gives |
| `Namespaces.Namespace.CheckMetric` | chemprop/parsing.py:355-361 | Rejects a metric the dataset type does not accept, and otherwise records whether to minimize it, as `MetricCheckStage` does |
| `Namespaces.Namespace.UpdateArgsFromCheckpointDir` | chemprop/parsing.py:298-314 | Without a directory the paths are set to None. With one, the paths become the walk's checkpoint paths and the ensemble size their number, and an empty result is an error. This agrees with `CheckpointStage` |
| `Namespaces.Namespace.CheckVocabPath` | chemprop/parsing.py:365-369 | Returns the junction-tree vocabulary error of `VocabError`, and changes nothing |
| `Namespaces.Namespace.ResolveFeatureUse` | chemprop/parsing.py:371-383 | The assignments and assertions of the feature block, in order, leave the state and return the error that `FeatureStage` gives |
| `Namespaces.Namespace.SetLrList` | chemprop/parsing.py:393-394 | Updating one rate list in place replaces that list and no other |
| `Namespaces.Namespace.BroadcastLearningRates` | chemprop/parsing.py:389-394 | The loop over the six lists reports the first list of bad length, with its length and the group count; otherwise every list is broadcast |
| `Namespaces.Namespace.ScaleLearningRates` | chemprop/parsing.py:396-399 | The loop over the groups multiplies the initial, maximum and final rates entry by entry by the scale list, and nothing else changes |
| `Namespaces.Namespace.ResolveLearningRates` | chemprop/parsing.py:385-401 | Forcing the separate group, counting, broadcasting, scaling and deleting the scale list leave the state and return the error that `LearningRateStage` gives |
| `Namespaces.Namespace.ApplyFfnDefaults` | chemprop/parsing.py:403-410 | The layer assertion and the three defaults agree with `FfnStage` |
| `Namespaces.Namespace.CheckSplits` | chemprop/parsing.py:412-413 | The two split assertions, the second a chained comparison, return the error of `SplitError` |
| `Namespaces.Namespace.ApplyTestMode` | chemprop/parsing.py:415-416 | A test run has no epochs, and nothing else changes |
| `Namespaces.Namespace.DetectChunkDir` | chemprop/parsing.py:418-424 | Chunk-directory detection, taking the first file of the walk's first entry, agrees with `ChunkStage` |
| `Namespaces.Namespace.ModifyTrainArgs` | chemprop/parsing.py:317-424 | The whole modifier, run in place: the error it reports, and the namespace it leaves on success, are those of `Resolve` |
| `ResolutionProperties.ResolveSucceedsIff` | chemprop/parsing.py:317-424 | Resolution succeeds exactly when the parsed options pass every check (`Admissible`) |
| `ResolutionProperties.ResolveReportsFirstError` | chemprop/parsing.py:317-424 | A failed resolution reports the error of the first check the parsed options fail, in source order; a successful one reports none |
| `ResolutionProperties.ResolvedShape` | chemprop/parsing.py:317-424 | After success the negative switches and the scale list are deleted, and the save directory, the metric and the three feed-forward settings are set |
| `ResolutionProperties.ResolvedDirAndSwitches` | chemprop/parsing.py:321-334 | The save directory is the given one or the temporary one; each positive switch is the negated negative one; CUDA also needs a GPU |
| `ResolutionProperties.ResolvedMetric` | chemprop/parsing.py:336-361 | A given metric is kept and a missing one takes its default; the metric is accepted for the dataset type; it is minimized exactly for rmse, mae and log loss |
| `ResolutionProperties.ResolvedCheckpoints` | chemprop/parsing.py:298-314 | Without a directory the paths are absent and the ensemble size is kept; with one, the paths are those of its walk and the ensemble size their positive count |
| `ResolutionProperties.ResolvedFeatureUse` | chemprop/parsing.py:371-383 | The resolved prediction flag and input-feature flag, as functions of the parsed options |
| `ResolutionProperties.ResolvedLearningRates` | chemprop/parsing.py:385-401 | The resolved group flag, group count and five rate lists, in terms of the parsed lists; the scale list is gone |
| `ResolutionProperties.ResolvedNetwork` | chemprop/parsing.py:405-410 | Each unset feed-forward size or dropout takes the message-passing one, and a set one is kept |
| `ResolutionProperties.ResolvedEpochs` | chemprop/parsing.py:415-416 | A test run has zero epochs, and otherwise the epoch count is kept |
| `ResolutionProperties.ResolvedChunks` | chemprop/parsing.py:418-424 | A non-directory path is kept, with no chunk directory. A directory becomes the chunk directory, and its path becomes its first entry's first file. On a well-formed host that file lies in the directory |
| `ResolutionProperties.ResolvedKeepsTheRest` | chemprop/parsing.py:317-424 | Every option that the step does not set is unchanged |
| `ResolutionProperties.UnresolveAdmissible` | chemprop/parsing.py:317-424 | The parsed options that stand for a resolved configuration pass every check |
| `ResolutionProperties.ResolveIdempotent` | chemprop/parsing.py:317-424 | Resolving the options that stand for a resolved configuration gives back that configuration |
| `ResolutionScenarios.ClassificationDefaults` | chemprop/parsing.py:336-338 | Classification with the defaults: auc is maximized; the save directory is temporary; 30 epochs; no GPU; scaling on; one group with the default rates; feed-forward size 300 and dropout 0; no input features; no chunk directory |
| `ResolutionScenarios.UnsupervisedDefaults` | chemprop/parsing.py:339-340 | Unsupervised with the defaults: log loss is minimized, and every rate list is doubled to two groups |
| `ResolutionScenarios.BertDefaults` | chemprop/parsing.py:341-343 | BERT pretraining on the default feature-vector vocabulary is scored by rmse |
| `ResolutionScenarios.BertAtomDefaults` | chemprop/parsing.py:344-346 | BERT pretraining on the atom vocabulary is scored by log loss |
| `ResolutionScenarios.KernelWithoutFunction` | chemprop/parsing.py:347-351 | A kernel dataset with no kernel function fails with the unsupported-kernel error |
| `ResolutionScenarios.ClassificationWithRmse` | chemprop/parsing.py:355-359 | Classification scored by rmse fails with the incompatible-metric error |
| `ResolutionScenarios.MissingCheckpointDir` | chemprop/parsing.py:313-314 | A checkpoint directory that does not exist, so that its walk yields nothing, fails with no checkpoints found |
| `ResolutionScenarios.TwoModelPaths` | chemprop/parsing.py:306-309 | A walk with `model.pt` at its top and in a subdirectory yields both paths, top first |
| `ResolutionScenarios.TwoCheckpointsAdmissible` | chemprop/parsing.py:306-314 | Options naming that checkpoint directory pass every check |
| `ResolutionScenarios.TwoCheckpoints` | chemprop/parsing.py:298-314 | Those two checkpoints become the paths, with an ensemble size of two |
| `ResolutionScenarios.JtnnWithoutVocab` | chemprop/parsing.py:365-369 | Junction-tree mode with no vocabulary path fails with the absent-path error |
| `ResolutionScenarios.FeaturesAndTaskOnClassification` | chemprop/parsing.py:373-374 | Predicting features and the task on classification fails |
| `ResolutionScenarios.PredictFeaturesWithoutSource` | chemprop/parsing.py:377-378 | Predicting features with no source fails |
| `ResolutionScenarios.TooManyRates` | chemprop/parsing.py:390-391 | Two initial rates for one group fail, naming the initial rate, length 2 and one group |
| `ResolutionScenarios.PredeterminedWithoutFoldIndex` | chemprop/parsing.py:413 | A predetermined split with a folds file but no test fold index fails with the predetermined-split error |
| `ResolutionScenarios.TestRun` | chemprop/parsing.py:415-416 | A test run resolves to zero epochs |
| `ResolutionScenarios.ChunkDirectoryAdmissible` | chemprop/parsing.py:418-422 | Options whose data path is a directory holding files at its top pass every check |
| `ResolutionScenarios.ChunkDirectory` | chemprop/parsing.py:418-422 | A directory holding `a.csv` and `b.csv` becomes the chunk directory, and the data path becomes `chunks/a.csv` |

## Where the code and its description differ

The model follows the code in each case.

- **Interleaved checks.** The checks run in among the assignments, in source order, not after all of
  them. So which error a bad option set reports depends on that order. `FirstError` states it: metric,
  checkpoints, vocabulary, features, rate lists, layers, splits, chunks.
- **BERT whitelist.** For BERT pretraining on a vocabulary other than feature vectors, the whitelist
  test at `parsing.py:345` runs only while no metric is set. It therefore always picks log loss. A
  metric the caller chose never reaches it.
- **Vocabulary path.** `--vocab_path` is declared with no default, so the `hasattr` test at line 366
  never fails. Junction-tree mode without a path fails at the existence test, which cannot take an
  absent path. This is the `VocabPathNone` error, distinct from a path that does not exist.
- **Feature kernels.** A feature kernel (line 377) requires a feature source. It also switches input
  features off, as feature prediction does.
- **Chunk file.** The chunk-directory probe is not an arbitrary file. It is the first file name of the
  walk's first entry, and the loop stops there. A directory whose top holds no files fails, because
  `names[0]` raises (`ChunkDirHasNoFiles`).
- **Save directory.** The save directory is chosen first, before any check.

## Left out

- Option parsing itself (argparse: types, `nargs`, `required`, duplicate options) is not modelled. The
  model starts from the namespace the parser produces. Only the `choices` of the options the step
  reads are modelled, as enumerations.
- Creating the save directory (`os.makedirs`) and the `TemporaryDirectory` object are left out. The
  host supplies the temporary directory's name. The process-lifetime handle that keeps it alive is
  not modelled.
- The host's answers are parameters of the environment: the GPU availability query, `os.path.exists`,
  `os.path.isdir` and `os.walk`. Filesystem errors during the walk are not modelled.
- Floating-point options are modelled as `real`. Rounding in the rate products is not modelled.
- `use_input_features` is stored as a boolean: the truthiness of the Python `or` value, not that
  value itself.
- Exceptions and failed `assert` statements become one `ResolveError` variant per check. Their
  exception types and messages are not modelled. The model also does not capture that the asserts
  vanish under `python -O`.
- On failure the source leaves a partly updated namespace. `ModifyTrainArgs` reports the error but
  its contract does not describe that partial state.
- The rate lists are values. The aliasing between `lr_param` and the namespace's list, which makes
  the in-place `lr_param *= 2` visible, is modelled by `SetLrList` replacing that list.
- Attributes the step adds (`cuda`, `target_scaling`, `features_scaling`, `minimize_score`,
  `checkpoint_paths`, `num_lrs`, `use_input_features`, `prespecified_chunk_dir`) exist in the record
  before the step, holding placeholder values. Every one is set before a run succeeds.
- Options that the step neither reads nor writes, and the hyperparameter-search and prediction
  parsers, are not part of this model.
- `Options.Defaults`: its contract names only the two required options and the presence of the
  deleted attributes. The other declared defaults are stated through the scenarios, not in its
  `ensures`.
