/** The resolution and validation of training arguments, as a pure function from the
    parsed option record to the resolved configuration or the first error raised.
    The steps run in the order the training-argument modifier runs them; each check
    fails fast. */
module Resolution {
  import opened Wrappers
  import opened Choices
  import opened Host
  import opened Checkpoints
  import opened LearningRates
  import opened Options

  /** One variant per check; the payload names the offending values. */
  datatype ResolveError =
    | UnsupportedKernelFunction(kernelFunc: Option<KernelFunc>)
    | IncompatibleMetric(metric: Metric, datasetType: DatasetType)
    | NoCheckpointsFound(checkpointDir: string)
    | VocabPathNone
    | VocabPathNotFound(vocabPath: string)
    | PredictFeaturesAndTaskNeedsRegression(datasetType: DatasetType)
    | MissingFeatureSource
    | BertWithFeaturesOnly
    | InvalidLrGroupCount(param: LrParam, length: nat, numLrs: nat)
    | InvalidFfnNumLayers(ffnNumLayers: int)
    | ScaffoldOverlapMismatch(splitType: SplitType, scaffoldOverlap: Option<real>)
    | PredeterminedSplitMismatch(splitType: SplitType, foldsFile: Option<string>, testFoldIndex: Option<int>)
    | ChunkDirHasNoFiles(chunkDir: string)

  /** The metrics the check accepts for each dataset type; the two pretraining types
      accept any metric. */
  predicate MetricAccepted(datasetType: DatasetType, metric: Metric) {
    || (datasetType == Classification && metric in {Auc, PrcAuc, Accuracy})
    || ((datasetType == Regression || datasetType == RegressionWithBinning) && metric in {Rmse, Mae, R2})
    || (datasetType == Kernel && metric == Rmse)
    || datasetType in {Unsupervised, BertPretraining}
  }

  /** Lower scores are better exactly for the error metrics. */
  predicate MinimizeScore(metric: Metric) {
    metric in {Rmse, Mae, LogLoss}
  }

  /** The metric in force: the supplied one, or the default of the dataset type. */
  function DefaultMetric(datasetType: DatasetType, metric: Option<Metric>, bertVocabFunc: BertVocabFunc,
                         kernelFunc: Option<KernelFunc>): (r: Result<Metric, ResolveError>)
    ensures metric.Some? ==> r == Success(metric.value)
    ensures r.Failure? <==> metric.None? && datasetType == Kernel && kernelFunc.None?
    ensures r.Failure? ==> r.error == UnsupportedKernelFunction(kernelFunc)
    ensures r.Success? && metric.None? ==> MetricAccepted(datasetType, r.value)
    ensures r.Success? && metric.None? ==> (MinimizeScore(r.value) <==> datasetType != Classification)
    ensures metric.None? && datasetType == Classification ==> r == Success(Auc)
    ensures metric.None? && datasetType == Unsupervised ==> r == Success(LogLoss)
    ensures metric.None? && datasetType == BertPretraining ==>
      r == Success(if bertVocabFunc == FeatureVector then Rmse else LogLoss)
    ensures metric.None? && datasetType == Kernel && kernelFunc.Some? ==> r == Success(Rmse)
    ensures metric.None? && datasetType in {Regression, RegressionWithBinning} ==> r == Success(Rmse)
  {
    match metric
    case Some(m) => Success(m)
    case None =>
      match datasetType
      case Classification => Success(Auc)
      case Unsupervised => Success(LogLoss)
      case BertPretraining =>
        // the whitelist test of the non-feature-vector case runs while no metric is
        // set, so it always chooses log loss
        if bertVocabFunc == FeatureVector then Success(Rmse) else Success(LogLoss)
      case Kernel =>
        // every declared kernel function is one the default covers
        if kernelFunc.Some? then Success(Rmse) else Failure(UnsupportedKernelFunction(kernelFunc))
      case Regression => Success(Rmse)
      case RegressionWithBinning => Success(Rmse)
  }

  /** The truthiness of the generator list or the features path: an empty list and an
      empty path count as absent. */
  predicate HasFeatureSource(featuresGenerator: Option<seq<FeaturesGenerator>>, featuresPath: Option<string>) {
    (featuresGenerator.Some? && featuresGenerator.value != []) || (featuresPath.Some? && featuresPath.value != "")
  }

  /** The kernel functions that compare feature vectors. */
  predicate FeatureKernel(kernelFunc: Option<KernelFunc>) {
    kernelFunc == Some(Features) || kernelFunc == Some(FeaturesDot)
  }

  /** With no checkpoint directory there are no checkpoint paths; otherwise the paths
      found by the walk replace the ensemble size, and finding none is an error. */
  datatype CheckpointSet = CheckpointSet(paths: Option<seq<string>>, ensembleSize: int)

  function DiscoverCheckpoints(checkpointDir: Option<string>, ensembleSize: int, env: Env)
    : (r: Result<CheckpointSet, ResolveError>)
    ensures checkpointDir.None? ==> r == Success(CheckpointSet(None, ensembleSize))
    ensures checkpointDir.Some? ==>
      (r.Failure? <==> !HasModelFile(Walk(env, checkpointDir.value)))
    ensures checkpointDir.Some? && r.Failure? ==> r.error == NoCheckpointsFound(checkpointDir.value)
    ensures checkpointDir.Some? && r.Success? ==>
      && r.value.paths == Some(CheckpointPaths(Walk(env, checkpointDir.value)))
      && r.value.ensembleSize == ModelFileCount(Walk(env, checkpointDir.value)) > 0
  {
    if checkpointDir.None? then Success(CheckpointSet(None, ensembleSize))
    else
      var walk := Walk(env, checkpointDir.value);
      var paths := CheckpointPaths(walk);
      CheckpointPathsCount(walk);
      CheckpointPathsEmptyIff(walk);
      if |paths| == 0 then Failure(NoCheckpointsFound(checkpointDir.value))
      else Success(CheckpointSet(Some(paths), |paths|))
  }

  /** The vocabulary check of junction-tree mode. The vocabulary attribute always
      exists, so the only test is the existence test, which cannot take an absent path. */
  function VocabError(jtnn: bool, vocabPath: Option<string>, env: Env): (r: Option<ResolveError>)
    ensures r.None? <==> !jtnn || (vocabPath.Some? && vocabPath.value in env.existing)
    ensures r.Some? && vocabPath.None? ==> r.value == VocabPathNone
    ensures r.Some? && vocabPath.Some? ==> r.value == VocabPathNotFound(vocabPath.value)
  {
    if !jtnn then None
    else if vocabPath.None? then Some(VocabPathNone)
    else if vocabPath.value !in env.existing then Some(VocabPathNotFound(vocabPath.value))
    else None
  }

  /** The feature flags after the feature checks: whether features are predicted and
      whether input features are used. */
  datatype FeatureUse = FeatureUse(predictFeatures: bool, useInputFeatures: bool)

  function FeatureFlags(datasetType: DatasetType, featuresGenerator: Option<seq<FeaturesGenerator>>,
                        featuresPath: Option<string>, predictFeatures: bool, predictFeaturesAndTask: bool,
                        kernelFunc: Option<KernelFunc>, featuresOnly: bool): (r: Result<FeatureUse, ResolveError>)
    ensures r.Success? <==>
      && (predictFeaturesAndTask ==> datasetType == Regression)
      && (predictFeatures || predictFeaturesAndTask || FeatureKernel(kernelFunc) ==>
            HasFeatureSource(featuresGenerator, featuresPath))
      && (datasetType == BertPretraining ==> !featuresOnly)
    ensures predictFeaturesAndTask && datasetType != Regression ==>
      r == Failure(PredictFeaturesAndTaskNeedsRegression(datasetType))
    ensures !(predictFeaturesAndTask && datasetType != Regression) &&
            (predictFeatures || predictFeaturesAndTask || FeatureKernel(kernelFunc)) &&
            !HasFeatureSource(featuresGenerator, featuresPath) ==>
      r == Failure(MissingFeatureSource)
    ensures r.Failure? && !(predictFeaturesAndTask && datasetType != Regression) &&
            !((predictFeatures || predictFeaturesAndTask || FeatureKernel(kernelFunc)) &&
              !HasFeatureSource(featuresGenerator, featuresPath)) ==>
      r.error == BertWithFeaturesOnly
    ensures r.Success? ==> r.value.predictFeatures == (predictFeatures || predictFeaturesAndTask)
    ensures r.Success? ==>
      (r.value.useInputFeatures <==>
         && HasFeatureSource(featuresGenerator, featuresPath)
         && !r.value.predictFeatures
         && !FeatureKernel(kernelFunc)
         && datasetType != BertPretraining)
  {
    var useInput := HasFeatureSource(featuresGenerator, featuresPath);
    if predictFeaturesAndTask && datasetType != Regression then
      Failure(PredictFeaturesAndTaskNeedsRegression(datasetType))
    else
      var predict := if predictFeaturesAndTask then true else predictFeatures;
      if (predict || FeatureKernel(kernelFunc)) && !HasFeatureSource(featuresGenerator, featuresPath) then
        Failure(MissingFeatureSource)
      else
        var useInput' := if predict || FeatureKernel(kernelFunc) then false else useInput;
        if datasetType == BertPretraining && featuresOnly then Failure(BertWithFeaturesOnly)
        else
          var useInput'' := if datasetType == BertPretraining then false else useInput';
          Success(FeatureUse(predict, useInput''))
  }

  /** The learning-rate groups after broadcasting and scaling; the scale list is consumed. */
  datatype LrGroups = LrGroups(
    separateFfnLr: bool,
    numLrs: nat,
    initLr: seq<real>,
    maxLr: seq<real>,
    finalLr: seq<real>,
    warmupEpochs: seq<real>,
    weightDecay: seq<real>)

  /** Unsupervised training forces a separate feed-forward optimizer before the groups
      are counted; every list must then have between one and that many entries. */
  function LearningRateGroups(datasetType: DatasetType, separateFfnLr: bool, initLr: seq<real>,
                              maxLr: seq<real>, finalLr: seq<real>, lrScaler: seq<real>,
                              warmupEpochs: seq<real>, weightDecay: seq<real>): (r: Result<LrGroups, ResolveError>)
    ensures var n := NumLrs(separateFfnLr || datasetType == Unsupervised);
      var lists := [initLr, maxLr, finalLr, lrScaler, warmupEpochs, weightDecay];
      && (r.Success? <==> forall k :: 0 <= k < 6 ==> GroupCountOk(lists[k], n))
      && (r.Failure? ==>
            && FirstBadGroupCount(lists, n).Some?
            && r.error == InvalidLrGroupCount(LrParamOrder[FirstBadGroupCount(lists, n).value],
                                              |lists[FirstBadGroupCount(lists, n).value]|, n))
    ensures r.Success? ==>
      var g := r.value;
      && g.separateFfnLr == (separateFfnLr || datasetType == Unsupervised)
      && g.numLrs == NumLrs(g.separateFfnLr)
      && GroupCountOk(initLr, g.numLrs) && GroupCountOk(maxLr, g.numLrs) && GroupCountOk(finalLr, g.numLrs)
      && GroupCountOk(lrScaler, g.numLrs) && GroupCountOk(warmupEpochs, g.numLrs)
      && GroupCountOk(weightDecay, g.numLrs)
      && |g.initLr| == |g.maxLr| == |g.finalLr| == |g.warmupEpochs| == |g.weightDecay| == g.numLrs
  {
    var sep := if datasetType == Unsupervised then true else separateFfnLr;
    var n := NumLrs(sep);
    var lists := [initLr, maxLr, finalLr, lrScaler, warmupEpochs, weightDecay];
    var bad := FirstBadGroupCount(lists, n);
    if bad.Some? then Failure(InvalidLrGroupCount(LrParamOrder[bad.value], |lists[bad.value]|, n))
    else
      assert lists[0] == initLr && lists[1] == maxLr && lists[2] == finalLr && lists[3] == lrScaler;
      assert lists[4] == warmupEpochs && lists[5] == weightDecay;
      assert GroupCountOk(initLr, n) && GroupCountOk(maxLr, n) && GroupCountOk(finalLr, n);
      assert GroupCountOk(lrScaler, n) && GroupCountOk(warmupEpochs, n) && GroupCountOk(weightDecay, n);
      Success(LrGroups(
        separateFfnLr := sep,
        numLrs := n,
        initLr := ScaledByGroup(initLr, lrScaler, sep),
        maxLr := ScaledByGroup(maxLr, lrScaler, sep),
        finalLr := ScaledByGroup(finalLr, lrScaler, sep),
        warmupEpochs := Broadcast(warmupEpochs, sep),
        weightDecay := Broadcast(weightDecay, sep)))
  }

  /** The resolved lists: the initial, maximum and final rates scaled group by group
      and the warm-up and weight decay broadcast to the groups. */
  lemma LearningRateGroupsLists(datasetType: DatasetType, separateFfnLr: bool, initLr: seq<real>,
                                maxLr: seq<real>, finalLr: seq<real>, lrScaler: seq<real>,
                                warmupEpochs: seq<real>, weightDecay: seq<real>)
    requires LearningRateGroups(datasetType, separateFfnLr, initLr, maxLr, finalLr, lrScaler, warmupEpochs, weightDecay).Success?
    ensures var g := LearningRateGroups(datasetType, separateFfnLr, initLr, maxLr, finalLr, lrScaler, warmupEpochs, weightDecay).value;
      && GroupCountOk(initLr, NumLrs(g.separateFfnLr)) && GroupCountOk(maxLr, NumLrs(g.separateFfnLr))
      && GroupCountOk(finalLr, NumLrs(g.separateFfnLr)) && GroupCountOk(lrScaler, NumLrs(g.separateFfnLr))
      && g.initLr == ScaledByGroup(initLr, lrScaler, g.separateFfnLr)
      && g.maxLr == ScaledByGroup(maxLr, lrScaler, g.separateFfnLr)
      && g.finalLr == ScaledByGroup(finalLr, lrScaler, g.separateFfnLr)
      && g.warmupEpochs == Broadcast(warmupEpochs, g.separateFfnLr)
      && g.weightDecay == Broadcast(weightDecay, g.separateFfnLr)
  {
  }

  /** Each group's rates: the initial, maximum and final rates are that group's entry
      (or the only entry) times that group's scale; the warm-up and the weight decay are
      that group's entry. */
  lemma LearningRateGroupsValues(datasetType: DatasetType, separateFfnLr: bool, initLr: seq<real>,
                                 maxLr: seq<real>, finalLr: seq<real>, lrScaler: seq<real>,
                                 warmupEpochs: seq<real>, weightDecay: seq<real>, i: nat)
    requires LearningRateGroups(datasetType, separateFfnLr, initLr, maxLr, finalLr, lrScaler, warmupEpochs, weightDecay).Success?
    requires i < LearningRateGroups(datasetType, separateFfnLr, initLr, maxLr, finalLr, lrScaler, warmupEpochs, weightDecay).value.numLrs
    ensures var g := LearningRateGroups(datasetType, separateFfnLr, initLr, maxLr, finalLr, lrScaler, warmupEpochs, weightDecay).value;
      && g.initLr[i] == initLr[GroupSource(initLr, i)] * lrScaler[GroupSource(lrScaler, i)]
      && g.maxLr[i] == maxLr[GroupSource(maxLr, i)] * lrScaler[GroupSource(lrScaler, i)]
      && g.finalLr[i] == finalLr[GroupSource(finalLr, i)] * lrScaler[GroupSource(lrScaler, i)]
      && g.warmupEpochs[i] == warmupEpochs[GroupSource(warmupEpochs, i)]
      && g.weightDecay[i] == weightDecay[GroupSource(weightDecay, i)]
  {
    LearningRateGroupsLists(datasetType, separateFfnLr, initLr, maxLr, finalLr, lrScaler, warmupEpochs, weightDecay);
  }

  /** The feed-forward network settings: at least one layer, and each unset size or
      dropout inherits the message-passing one. */
  datatype FfnSettings = FfnSettings(ffnHiddenSize: int, ffnInputDropout: real, ffnDropout: real)

  function FfnDefaults(ffnNumLayers: int, hiddenSize: int, dropout: real, ffnHiddenSize: Option<int>,
                       ffnInputDropout: Option<real>, ffnDropout: Option<real>): (r: Result<FfnSettings, ResolveError>)
    ensures r.Failure? <==> ffnNumLayers < 1
    ensures r.Failure? ==> r.error == InvalidFfnNumLayers(ffnNumLayers)
    ensures r.Success? ==>
      && (ffnHiddenSize.Some? ==> r.value.ffnHiddenSize == ffnHiddenSize.value)
      && (ffnHiddenSize.None? ==> r.value.ffnHiddenSize == hiddenSize)
      && (ffnInputDropout.Some? ==> r.value.ffnInputDropout == ffnInputDropout.value)
      && (ffnInputDropout.None? ==> r.value.ffnInputDropout == dropout)
      && (ffnDropout.Some? ==> r.value.ffnDropout == ffnDropout.value)
      && (ffnDropout.None? ==> r.value.ffnDropout == dropout)
  {
    if ffnNumLayers < 1 then Failure(InvalidFfnNumLayers(ffnNumLayers))
    else Success(FfnSettings(ffnHiddenSize.GetOr(hiddenSize), ffnInputDropout.GetOr(dropout), ffnDropout.GetOr(dropout)))
  }

  /** The split checks: a scaffold-overlap split exactly when an overlap is given, and a
      predetermined split, a folds file and a test fold index all together or none. */
  function SplitError(splitType: SplitType, scaffoldOverlap: Option<real>, foldsFile: Option<string>,
                      testFoldIndex: Option<int>): (r: Option<ResolveError>)
    ensures r.None? <==>
      && (splitType == ScaffoldOverlap <==> scaffoldOverlap.Some?)
      && (splitType == Predetermined <==> foldsFile.Some?)
      && (foldsFile.Some? <==> testFoldIndex.Some?)
    ensures (splitType == ScaffoldOverlap) != scaffoldOverlap.Some? ==>
      r == Some(ScaffoldOverlapMismatch(splitType, scaffoldOverlap))
    ensures (splitType == ScaffoldOverlap) == scaffoldOverlap.Some? && r.Some? ==>
      r == Some(PredeterminedSplitMismatch(splitType, foldsFile, testFoldIndex))
  {
    if (splitType == ScaffoldOverlap) != (scaffoldOverlap != None) then
      Some(ScaffoldOverlapMismatch(splitType, scaffoldOverlap))
    // a chained comparison: both neighbouring pairs must be equal
    else if !((splitType == Predetermined) == (foldsFile != None) && (foldsFile != None) == (testFoldIndex != None)) then
      Some(PredeterminedSplitMismatch(splitType, foldsFile, testFoldIndex))
    else None
  }

  /** Chunk-directory detection: a directory data path becomes the chunk directory and
      the data path becomes the first file of the walk's first entry. */
  datatype DataLocation = DataLocation(dataPath: string, prespecifiedChunkDir: Option<string>)

  function ChunkLocation(dataPath: string, env: Env): (r: Result<DataLocation, ResolveError>)
    ensures dataPath !in env.directories ==> r == Success(DataLocation(dataPath, None))
    ensures r.Failure? <==>
      dataPath in env.directories && Walk(env, dataPath) != [] && Walk(env, dataPath)[0].files == []
    ensures r.Failure? ==> r.error == ChunkDirHasNoFiles(dataPath)
    ensures r.Success? && dataPath in env.directories ==> r.value.prespecifiedChunkDir == Some(dataPath)
    ensures dataPath in env.directories && Walk(env, dataPath) == [] ==> r == Success(DataLocation(dataPath, Some(dataPath)))
    ensures r.Success? && dataPath in env.directories && Walk(env, dataPath) != [] ==>
      var first := Walk(env, dataPath)[0];
      r.value.dataPath == Join(first.root, first.files[0]) && first.files[0] in first.files
  {
    if dataPath in env.directories then
      var walk := Walk(env, dataPath);
      // the walk loop stops after its first entry
      if walk == [] then Success(DataLocation(dataPath, Some(dataPath)))
      else if walk[0].files == [] then Failure(ChunkDirHasNoFiles(dataPath))
      else Success(DataLocation(Join(walk[0].root, walk[0].files[0]), Some(dataPath)))
    else Success(DataLocation(dataPath, None))
  }

  // The stages of the resolution step, in order. Each takes the namespace the previous
  // one left and returns the namespace it leaves, or the error it raises.

  /** A missing save directory becomes a fresh temporary directory. */
  function SaveDirStage(s: Args, env: Env): Args {
    if s.data.saveDir.Some? then s else s.(data := s.data.(saveDir := Some(env.tempDirName)))
  }

  /** The negative switches become positive ones and are deleted; CUDA also needs a GPU. */
  function SwitchStage(s: Args, env: Env): Args
    requires s.switches.noCuda.Some? && s.switches.noTargetScaling.Some? && s.switches.noFeaturesScaling.Some?
  {
    var w := s.switches;
    s.(switches := SwitchOptions(
         noCuda := None, cuda := !w.noCuda.value && env.gpuAvailable,
         noTargetScaling := None, targetScaling := !w.noTargetScaling.value,
         noFeaturesScaling := None, featuresScaling := !w.noFeaturesScaling.value))
  }

  function MetricDefaultStage(s: Args): Result<Args, ResolveError> {
    var t := s.task;
    var metric :- DefaultMetric(t.datasetType, t.metric, t.bertVocabFunc, t.kernelFunc);
    Success(s.(task := t.(metric := Some(metric))))
  }

  function MetricCheckStage(s: Args): Result<Args, ResolveError>
    requires s.task.metric.Some?
  {
    var t := s.task;
    if !MetricAccepted(t.datasetType, t.metric.value) then Failure(IncompatibleMetric(t.metric.value, t.datasetType))
    else Success(s.(task := t.(minimizeScore := MinimizeScore(t.metric.value))))
  }

  function CheckpointStage(s: Args, env: Env): Result<Args, ResolveError> {
    var found :- DiscoverCheckpoints(s.data.checkpointDir, s.data.ensembleSize, env);
    Success(s.(data := s.data.(checkpointPaths := found.paths, ensembleSize := found.ensembleSize)))
  }

  function VocabStage(s: Args, env: Env): Result<Args, ResolveError> {
    var e := VocabError(s.task.jtnn, s.task.vocabPath, env);
    if e.Some? then Failure(e.value) else Success(s)
  }

  function FeatureStage(s: Args): Result<Args, ResolveError> {
    var f := s.features;
    var use :- FeatureFlags(s.task.datasetType, f.featuresGenerator, f.featuresPath, f.predictFeatures,
                            f.predictFeaturesAndTask, s.task.kernelFunc, f.featuresOnly);
    Success(s.(features := f.(predictFeatures := use.predictFeatures, useInputFeatures := use.useInputFeatures)))
  }

  function LearningRateStage(s: Args): Result<Args, ResolveError>
    requires s.rates.lrScaler.Some?
  {
    var l := s.rates;
    var g :- LearningRateGroups(s.task.datasetType, l.separateFfnLr, l.initLr, l.maxLr, l.finalLr,
                                l.lrScaler.value, l.warmupEpochs, l.weightDecay);
    Success(s.(rates := RateOptions(
                 separateFfnLr := g.separateFfnLr, numLrs := g.numLrs, initLr := g.initLr, maxLr := g.maxLr,
                 finalLr := g.finalLr, lrScaler := None, warmupEpochs := g.warmupEpochs,
                 weightDecay := g.weightDecay)))
  }

  function FfnStage(s: Args): Result<Args, ResolveError> {
    var n := s.network;
    var f :- FfnDefaults(n.ffnNumLayers, n.hiddenSize, n.dropout, n.ffnHiddenSize, n.ffnInputDropout, n.ffnDropout);
    Success(s.(network := n.(ffnHiddenSize := Some(f.ffnHiddenSize), ffnInputDropout := Some(f.ffnInputDropout),
                             ffnDropout := Some(f.ffnDropout))))
  }

  function SplitStage(s: Args): Result<Args, ResolveError> {
    var p := s.split;
    var e := SplitError(p.splitType, p.scaffoldOverlap, p.foldsFile, p.testFoldIndex);
    if e.Some? then Failure(e.value) else Success(s)
  }

  /** A test-only run trains for no epochs. */
  function TestStage(s: Args): Args {
    if s.data.test then s.(data := s.data.(epochs := 0)) else s
  }

  function ChunkStage(s: Args, env: Env): Result<Args, ResolveError> {
    var loc :- ChunkLocation(s.data.dataPath, env);
    Success(s.(data := s.data.(dataPath := loc.dataPath, prespecifiedChunkDir := loc.prespecifiedChunkDir)))
  }

  /** The whole resolution step: the stages in order, stopping at the first error. */
  function Resolve(s: Args, env: Env): Result<Args, ResolveError>
    requires IsParsed(s)
  {
    AfterSwitches(SwitchStage(SaveDirStage(s, env), env), env)
  }

  // What remains of the step after each stage.

  function AfterSwitches(s: Args, env: Env): Result<Args, ResolveError>
    requires s.rates.lrScaler.Some?
  {
    var t :- MetricDefaultStage(s);
    AfterMetricDefault(t, env)
  }

  function AfterMetricDefault(s: Args, env: Env): Result<Args, ResolveError>
    requires s.task.metric.Some? && s.rates.lrScaler.Some?
  {
    var t :- MetricCheckStage(s);
    AfterMetricCheck(t, env)
  }

  function AfterMetricCheck(s: Args, env: Env): Result<Args, ResolveError>
    requires s.rates.lrScaler.Some?
  {
    var t :- CheckpointStage(s, env);
    AfterCheckpoints(t, env)
  }

  function AfterCheckpoints(s: Args, env: Env): Result<Args, ResolveError>
    requires s.rates.lrScaler.Some?
  {
    var t :- VocabStage(s, env);
    AfterVocab(t, env)
  }

  function AfterVocab(s: Args, env: Env): Result<Args, ResolveError>
    requires s.rates.lrScaler.Some?
  {
    var t :- FeatureStage(s);
    AfterFeatures(t, env)
  }

  function AfterFeatures(s: Args, env: Env): Result<Args, ResolveError>
    requires s.rates.lrScaler.Some?
  {
    var t :- LearningRateStage(s);
    AfterLearningRates(t, env)
  }

  function AfterLearningRates(s: Args, env: Env): Result<Args, ResolveError> {
    var t :- FfnStage(s);
    AfterFfn(t, env)
  }

  function AfterFfn(s: Args, env: Env): Result<Args, ResolveError> {
    var t :- SplitStage(s);
    ChunkStage(TestStage(t), env)
  }
}
