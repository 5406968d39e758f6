/** The argument namespace that the training-argument modifier changes attribute by
    attribute, one field per option group; deleting an attribute sets its optional
    entry to `None`. Each method is proved to leave the namespace in the state the
    corresponding stage of `Resolution.Resolve` describes. */
module Namespaces {
  import opened Wrappers
  import opened Choices
  import opened Host
  import opened Checkpoints
  import opened LearningRates
  import opened Options
  import opened Resolution

  class Namespace {
    var data: DataOptions
    var task: TaskOptions
    var features: FeatureOptions
    var split: SplitOptions
    var switches: SwitchOptions
    var rates: RateOptions
    var network: NetworkOptions

    /** The namespace's attributes as a value. */
    function State(): Args
      reads this
    {
      Args(data, task, features, split, switches, rates, network)
    }

    /** A namespace holding the given attributes. */
    constructor (s: Args)
      ensures State() == s
    {
      data, task, features, split := s.data, s.task, s.features, s.split;
      switches, rates, network := s.switches, s.rates, s.network;
    }

    /** Without a save directory, a fresh temporary directory is used. */
    method SetSaveDir(env: Env)
      modifies this`data
      ensures State() == SaveDirStage(old(State()), env)
    {
      if data.saveDir.None? {
        data := data.(saveDir := Some(env.tempDirName));
      }
    }

    /** Replaces each negative switch by the positive one and deletes the negative one;
        CUDA is used only when a GPU is available. */
    method InvertNegativeSwitches(env: Env)
      requires switches.noCuda.Some? && switches.noTargetScaling.Some? && switches.noFeaturesScaling.Some?
      modifies this`switches
      ensures State() == SwitchStage(old(State()), env)
    {
      switches := switches.(cuda := !switches.noCuda.value && env.gpuAvailable);
      switches := switches.(noCuda := None);
      switches := switches.(targetScaling := !switches.noTargetScaling.value);
      switches := switches.(noTargetScaling := None);
      switches := switches.(featuresScaling := !switches.noFeaturesScaling.value);
      switches := switches.(noFeaturesScaling := None);
    }

    /** Sets the metric to its default when none was given. */
    method ResolveMetric() returns (err: Option<ResolveError>)
      modifies this`task
      ensures match MetricDefaultStage(old(State()))
        case Failure(e) => err == Some(e)
        case Success(t) => err == None && State() == t
    {
      var kernelFunc := task.kernelFunc;
      // every declared kernel function is one the default covers
      assert kernelFunc.Some? ==> kernelFunc.value in [Features, FeaturesDot, WL] by {
        if kernelFunc.Some? {
          match kernelFunc.value
          case Features =>
          case FeaturesDot =>
          case WL =>
        }
      }
      if task.metric.None? {
        var datasetType := task.datasetType;
        if datasetType == Classification {
          task := task.(metric := Some(Auc));
        } else if datasetType == Unsupervised {
          task := task.(metric := Some(LogLoss));
        } else if datasetType == BertPretraining {
          if task.bertVocabFunc == FeatureVector {
            task := task.(metric := Some(Rmse));
          } else if task.metric !in [Some(LogLoss), Some(ArgmaxAccuracy), Some(MajorityBaselineAccuracy)] {
            task := task.(metric := Some(LogLoss));
          }
        } else if datasetType == Kernel {
          if kernelFunc.Some? && kernelFunc.value in [Features, FeaturesDot, WL] {
            task := task.(metric := Some(Rmse));
          } else {
            return Some(UnsupportedKernelFunction(kernelFunc));
          }
        } else {
          task := task.(metric := Some(Rmse));
        }
      }
      return None;
    }

    /** Rejects a metric the dataset type does not accept, then records whether the
        metric is minimized. */
    method CheckMetric() returns (err: Option<ResolveError>)
      requires task.metric.Some?
      modifies this`task
      ensures match MetricCheckStage(old(State()))
        case Failure(e) => err == Some(e)
        case Success(t) => err == None && State() == t
    {
      if !MetricAccepted(task.datasetType, task.metric.value) {
        return Some(IncompatibleMetric(task.metric.value, task.datasetType));
      }
      task := task.(minimizeScore := MinimizeScore(task.metric.value));
      return None;
    }

    /** Walks the checkpoint directory and records every `model.pt` file found, in walk
        order; the number found becomes the ensemble size. */
    method UpdateArgsFromCheckpointDir(env: Env) returns (err: Option<ResolveError>)
      modifies this`data
      ensures var dir := old(data.checkpointDir);
        && (dir.None? ==> data == old(data).(checkpointPaths := None) && err == None)
        && (dir.Some? ==>
              var found := CheckpointPaths(Walk(env, dir.value));
              && data == old(data).(checkpointPaths := Some(found), ensembleSize := |found|)
              && err == (if |found| == 0 then Some(NoCheckpointsFound(dir.value)) else None))
      ensures match CheckpointStage(old(State()), env)
        case Failure(e) => err == Some(e)
        case Success(t) => err == None && State() == t
    {
      if data.checkpointDir.None? {
        data := data.(checkpointPaths := None);
        return None;
      }
      var dir := data.checkpointDir.value;
      var paths := CollectCheckpoints(Walk(env, dir));
      data := data.(checkpointPaths := Some(paths), ensembleSize := |paths|);
      if |paths| == 0 {
        return Some(NoCheckpointsFound(dir));
      }
      return None;
    }

    /** In junction-tree mode the vocabulary path must exist. */
    method CheckVocabPath(env: Env) returns (err: Option<ResolveError>)
      ensures err == VocabError(task.jtnn, task.vocabPath, env)
    {
      err := None;
      if task.jtnn {
        // the vocabulary attribute always exists, so only the existence test can fail,
        // and it cannot take an absent path
        if task.vocabPath.None? {
          err := Some(VocabPathNone);
        } else if task.vocabPath.value !in env.existing {
          err := Some(VocabPathNotFound(task.vocabPath.value));
        }
      }
    }

    /** Decides whether input features are used, after the feature-prediction checks. */
    method ResolveFeatureUse() returns (err: Option<ResolveError>)
      modifies this`features
      ensures match FeatureStage(old(State()))
        case Failure(e) => err == Some(e)
        case Success(t) => err == None && State() == t
    {
      var source := HasFeatureSource(features.featuresGenerator, features.featuresPath);
      features := features.(useInputFeatures := source);

      if features.predictFeaturesAndTask {
        if task.datasetType != Regression {
          return Some(PredictFeaturesAndTaskNeedsRegression(task.datasetType));
        }
        features := features.(predictFeatures := true);
      }

      if features.predictFeatures || FeatureKernel(task.kernelFunc) {
        if !source {
          return Some(MissingFeatureSource);
        }
        features := features.(useInputFeatures := false);
      }

      if task.datasetType == BertPretraining {
        if features.featuresOnly {
          return Some(BertWithFeaturesOnly);
        }
        features := features.(useInputFeatures := false);
      }
      return None;
    }

    /** The six rate lists, in the order they are checked. */
    function LrLists(): (r: seq<seq<real>>)
      reads this
      requires rates.lrScaler.Some?
      ensures |r| == 6
    {
      [rates.initLr, rates.maxLr, rates.finalLr, rates.lrScaler.value, rates.warmupEpochs, rates.weightDecay]
    }

    /** Replaces the `k`-th rate list, as an in-place update of that list does. */
    method SetLrList(k: nat, v: seq<real>)
      requires k < 6 && rates.lrScaler.Some?
      modifies this`rates
      ensures rates.lrScaler.Some? && LrLists() == old(LrLists())[k := v]
      ensures rates.separateFfnLr == old(rates.separateFfnLr) && rates.numLrs == old(rates.numLrs)
    {
      if k == 0 {
        rates := rates.(initLr := v);
      } else if k == 1 {
        rates := rates.(maxLr := v);
      } else if k == 2 {
        rates := rates.(finalLr := v);
      } else if k == 3 {
        rates := rates.(lrScaler := Some(v));
      } else if k == 4 {
        rates := rates.(warmupEpochs := v);
      } else {
        rates := rates.(weightDecay := v);
      }
    }

    /** Checks each rate list's length against the number of groups and, with a separate
        feed-forward optimizer, doubles every one-entry list. */
    method BroadcastLearningRates() returns (err: Option<ResolveError>)
      requires rates.lrScaler.Some? && rates.numLrs == NumLrs(rates.separateFfnLr)
      modifies this`rates
      ensures rates.lrScaler.Some?
      ensures rates.separateFfnLr == old(rates.separateFfnLr) && rates.numLrs == old(rates.numLrs)
      ensures var bad := FirstBadGroupCount(old(LrLists()), rates.numLrs);
        && (err.None? <==> bad.None?)
        && (bad.Some? ==> err == Some(InvalidLrGroupCount(LrParamOrder[bad.value], |old(LrLists())[bad.value]|, rates.numLrs)))
        && (bad.None? ==> LrLists() == BroadcastAll(old(LrLists()), rates.separateFfnLr))
    {
      ghost var before := LrLists();
      var numLrs := rates.numLrs;
      for k := 0 to 6
        invariant rates.lrScaler.Some?
        invariant rates.separateFfnLr == old(rates.separateFfnLr) && rates.numLrs == numLrs
        invariant forall j :: 0 <= j < k ==> GroupCountOk(before[j], numLrs)
        invariant forall j :: 0 <= j < k ==> LrLists()[j] == Broadcast(before[j], rates.separateFfnLr)
        invariant forall j :: k <= j < 6 ==> LrLists()[j] == before[j]
      {
        var lrParam := LrLists()[k];
        if !(1 <= |lrParam| <= numLrs) {
          assert FirstBadGroupCount(before, numLrs) == Some(k);
          return Some(InvalidLrGroupCount(LrParamOrder[k], |lrParam|, numLrs));
        }
        if rates.separateFfnLr && |lrParam| == 1 {
          SetLrList(k, lrParam + lrParam);
        }
      }
      return None;
    }

    /** Multiplies each group's initial, maximum and final rate by that group's scale. */
    method ScaleLearningRates()
      requires rates.lrScaler.Some? && |rates.lrScaler.value| == rates.numLrs
      requires |rates.initLr| == rates.numLrs && |rates.maxLr| == rates.numLrs && |rates.finalLr| == rates.numLrs
      modifies this`rates
      ensures var scaler := old(rates.lrScaler.value);
        rates == old(rates).(initLr := Scale(old(rates.initLr), scaler), maxLr := Scale(old(rates.maxLr), scaler),
                             finalLr := Scale(old(rates.finalLr), scaler))
    {
      var n := rates.numLrs;
      var scaler := rates.lrScaler.value;
      var initLr, maxLr, finalLr := rates.initLr, rates.maxLr, rates.finalLr;
      for i := 0 to n
        invariant |initLr| == n && |maxLr| == n && |finalLr| == n
        invariant forall j :: 0 <= j < i ==> initLr[j] == rates.initLr[j] * scaler[j]
        invariant forall j :: 0 <= j < i ==> maxLr[j] == rates.maxLr[j] * scaler[j]
        invariant forall j :: 0 <= j < i ==> finalLr[j] == rates.finalLr[j] * scaler[j]
        invariant forall j :: i <= j < n ==> initLr[j] == rates.initLr[j]
        invariant forall j :: i <= j < n ==> maxLr[j] == rates.maxLr[j]
        invariant forall j :: i <= j < n ==> finalLr[j] == rates.finalLr[j]
      {
        initLr := initLr[i := initLr[i] * scaler[i]];
        maxLr := maxLr[i := maxLr[i] * scaler[i]];
        finalLr := finalLr[i := finalLr[i] * scaler[i]];
      }
      assert forall j :: 0 <= j < n ==> initLr[j] == Scale(rates.initLr, scaler)[j];
      assert forall j :: 0 <= j < n ==> maxLr[j] == Scale(rates.maxLr, scaler)[j];
      assert forall j :: 0 <= j < n ==> finalLr[j] == Scale(rates.finalLr, scaler)[j];
      rates := rates.(initLr := initLr, maxLr := maxLr, finalLr := finalLr);
    }

    /** Counts the optimizer groups, broadcasts and scales the rate lists, and deletes
        the scale list. */
    method ResolveLearningRates() returns (err: Option<ResolveError>)
      requires rates.lrScaler.Some?
      modifies this`rates
      ensures match LearningRateStage(old(State()))
        case Failure(e) => err == Some(e)
        case Success(t) => err == None && State() == t
    {
      ghost var before := LrLists();
      if task.datasetType == Unsupervised {
        rates := rates.(separateFfnLr := true);
      }
      rates := rates.(numLrs := NumLrs(rates.separateFfnLr));
      err := BroadcastLearningRates();
      if err.Some? {
        return;
      }
      ghost var after := LrLists();
      ghost var sep := rates.separateFfnLr;
      assert after == BroadcastAll(before, sep);
      assert rates.initLr == after[0] == Broadcast(before[0], sep);
      assert rates.maxLr == after[1] == Broadcast(before[1], sep);
      assert rates.finalLr == after[2] == Broadcast(before[2], sep);
      assert rates.lrScaler.value == after[3] == Broadcast(before[3], sep);
      assert rates.warmupEpochs == after[4] == Broadcast(before[4], sep);
      assert rates.weightDecay == after[5] == Broadcast(before[5], sep);
      ScaleLearningRates();
      rates := rates.(lrScaler := None);
      LearningRateGroupsLists(task.datasetType, old(rates.separateFfnLr), before[0], before[1], before[2], before[3],
                              before[4], before[5]);
    }

    /** Checks the layer count and fills in the unset feed-forward settings. */
    method ApplyFfnDefaults() returns (err: Option<ResolveError>)
      modifies this`network
      ensures match FfnStage(old(State()))
        case Failure(e) => err == Some(e)
        case Success(t) => err == None && State() == t
    {
      if network.ffnNumLayers < 1 {
        return Some(InvalidFfnNumLayers(network.ffnNumLayers));
      }
      if network.ffnHiddenSize.None? {
        network := network.(ffnHiddenSize := Some(network.hiddenSize));
      }
      if network.ffnInputDropout.None? {
        network := network.(ffnInputDropout := Some(network.dropout));
      }
      if network.ffnDropout.None? {
        network := network.(ffnDropout := Some(network.dropout));
      }
      return None;
    }

    /** Checks that the split type agrees with the overlap, folds file and fold index. */
    method CheckSplits() returns (err: Option<ResolveError>)
      ensures err == SplitError(split.splitType, split.scaffoldOverlap, split.foldsFile, split.testFoldIndex)
    {
      var splitType, foldsFile := split.splitType, split.foldsFile;
      if (splitType == ScaffoldOverlap) != (split.scaffoldOverlap != None) {
        return Some(ScaffoldOverlapMismatch(splitType, split.scaffoldOverlap));
      }
      // a chained comparison: both neighbouring pairs must be equal
      if !((splitType == Predetermined) == (foldsFile != None) && (foldsFile != None) == (split.testFoldIndex != None)) {
        return Some(PredeterminedSplitMismatch(splitType, foldsFile, split.testFoldIndex));
      }
      return None;
    }

    /** A test-only run trains for no epochs. */
    method ApplyTestMode()
      modifies this`data
      ensures State() == TestStage(old(State()))
    {
      if data.test {
        data := data.(epochs := 0);
      }
    }

    /** A directory data path is a directory of chunks: it is kept as the chunk
        directory, and the data path becomes a file of it. */
    method DetectChunkDir(env: Env) returns (err: Option<ResolveError>)
      modifies this`data
      ensures match ChunkStage(old(State()), env)
        case Failure(e) => err == Some(e)
        case Success(t) => err == None && State() == t
    {
      var dataPath := data.dataPath;
      if dataPath in env.directories {
        data := data.(prespecifiedChunkDir := Some(dataPath));
        var walk := Walk(env, dataPath);
        // the walk loop stops after its first entry
        if walk != [] {
          var names := walk[0].files;
          if names == [] {
            return Some(ChunkDirHasNoFiles(dataPath));
          }
          data := data.(dataPath := Join(walk[0].root, names[0]));
        }
      } else {
        data := data.(prespecifiedChunkDir := None);
      }
      return None;
    }

    /** Modifies and validates the training arguments, stage by stage, stopping at the
        first failed check. The error reported, and on success the namespace left, are
        the ones `Resolve` describes. */
    method ModifyTrainArgs(env: Env) returns (err: Option<ResolveError>)
      requires IsParsed(State())
      modifies this
      ensures match Resolve(old(State()), env)
        case Failure(e) => err == Some(e)
        case Success(t) => err == None && State() == t
    {
      ghost var s0 := State();
      SetSaveDir(env);
      InvertNegativeSwitches(env);
      assert Resolve(s0, env) == AfterSwitches(State(), env);

      err := ResolveMetric();
      if err.Some? {
        return;
      }
      assert Resolve(s0, env) == AfterMetricDefault(State(), env);
      err := CheckMetric();
      if err.Some? {
        return;
      }
      assert Resolve(s0, env) == AfterMetricCheck(State(), env);

      err := UpdateArgsFromCheckpointDir(env);
      if err.Some? {
        return;
      }
      assert Resolve(s0, env) == AfterCheckpoints(State(), env);

      err := CheckVocabPath(env);
      if err.Some? {
        return;
      }
      assert Resolve(s0, env) == AfterVocab(State(), env);

      err := ResolveFeatureUse();
      if err.Some? {
        return;
      }
      assert Resolve(s0, env) == AfterFeatures(State(), env);

      err := ResolveLearningRates();
      if err.Some? {
        return;
      }
      assert Resolve(s0, env) == AfterLearningRates(State(), env);

      err := ApplyFfnDefaults();
      if err.Some? {
        return;
      }
      assert Resolve(s0, env) == AfterFfn(State(), env);

      err := CheckSplits();
      if err.Some? {
        return;
      }

      ApplyTestMode();

      err := DetectChunkDir(env);
    }
  }
}
