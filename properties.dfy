/** What the resolution step guarantees: when it succeeds, what each resolved option
    is in terms of the parsed ones; exactly which parsed options it accepts and which
    error it reports otherwise; and that a resolved configuration, given back as
    options, resolves to itself. */
module ResolutionProperties {
  import opened Wrappers
  import opened Choices
  import opened Host
  import opened Checkpoints
  import opened LearningRates
  import opened Options
  import opened Resolution

  // Every check of the resolution step, stated on the options it reads.

  /** A metric is given and accepted for the dataset type, or one can be defaulted. */
  predicate MetricOk(s: Args) {
    var t := s.task;
    && (t.metric.None? ==> !(t.datasetType == Kernel && t.kernelFunc.None?))
    && (t.metric.Some? ==> MetricAccepted(t.datasetType, t.metric.value))
  }

  /** A checkpoint directory, when given, holds at least one model file. */
  predicate CheckpointsOk(s: Args, env: Env) {
    s.data.checkpointDir.Some? ==> HasModelFile(Walk(env, s.data.checkpointDir.value))
  }

  /** Junction-tree mode needs a vocabulary file that exists. */
  predicate VocabOk(s: Args, env: Env) {
    s.task.jtnn ==> s.task.vocabPath.Some? && s.task.vocabPath.value in env.existing
  }

  /** Features and task together only for regression; predicted features and the
      feature kernels need a feature source; BERT pretraining not on features alone. */
  predicate FeaturesOk(s: Args) {
    var f := s.features;
    && (f.predictFeaturesAndTask ==> s.task.datasetType == Regression)
    && (f.predictFeatures || f.predictFeaturesAndTask || FeatureKernel(s.task.kernelFunc) ==>
          HasFeatureSource(f.featuresGenerator, f.featuresPath))
    && (s.task.datasetType == BertPretraining ==> !f.featuresOnly)
  }

  /** Every rate list has one entry or one per parameter group. */
  predicate RatesOk(s: Args)
    requires s.rates.lrScaler.Some?
  {
    var l := s.rates;
    var n := NumLrs(l.separateFfnLr || s.task.datasetType == Unsupervised);
    && GroupCountOk(l.initLr, n) && GroupCountOk(l.maxLr, n) && GroupCountOk(l.finalLr, n)
    && GroupCountOk(l.lrScaler.value, n) && GroupCountOk(l.warmupEpochs, n) && GroupCountOk(l.weightDecay, n)
  }

  /** The feed-forward network has at least one layer. */
  predicate NetworkOk(s: Args) {
    s.network.ffnNumLayers >= 1
  }

  /** The split options agree with the split type. */
  predicate SplitOk(s: Args) {
    var p := s.split;
    && (p.splitType == ScaffoldOverlap <==> p.scaffoldOverlap.Some?)
    && (p.splitType == Predetermined <==> p.foldsFile.Some?)
    && (p.foldsFile.Some? <==> p.testFoldIndex.Some?)
  }

  /** A directory data path whose walk has a first entry has a file in that entry. */
  predicate ChunkOk(s: Args, env: Env) {
    var d := s.data.dataPath;
    !(d in env.directories && Walk(env, d) != [] && Walk(env, d)[0].files == [])
  }

  // The checks that remain after each stage, and the error the first failing one raises.

  predicate FromFfn(s: Args, env: Env) {
    NetworkOk(s) && SplitOk(s) && ChunkOk(s, env)
  }

  function FirstErrorFromFfn(s: Args, env: Env): Option<ResolveError> {
    var p := s.split;
    if !NetworkOk(s) then Some(InvalidFfnNumLayers(s.network.ffnNumLayers))
    else if (p.splitType == ScaffoldOverlap) != p.scaffoldOverlap.Some? then
      Some(ScaffoldOverlapMismatch(p.splitType, p.scaffoldOverlap))
    else if !SplitOk(s) then Some(PredeterminedSplitMismatch(p.splitType, p.foldsFile, p.testFoldIndex))
    else if !ChunkOk(s, env) then Some(ChunkDirHasNoFiles(s.data.dataPath))
    else None
  }

  predicate FromLearningRates(s: Args, env: Env)
    requires s.rates.lrScaler.Some?
  {
    RatesOk(s) && FromFfn(s, env)
  }

  function FirstErrorFromLearningRates(s: Args, env: Env): Option<ResolveError>
    requires s.rates.lrScaler.Some?
  {
    var l := s.rates;
    var n := NumLrs(l.separateFfnLr || s.task.datasetType == Unsupervised);
    var lists := [l.initLr, l.maxLr, l.finalLr, l.lrScaler.value, l.warmupEpochs, l.weightDecay];
    var bad := FirstBadGroupCount(lists, n);
    if bad.Some? then Some(InvalidLrGroupCount(LrParamOrder[bad.value], |lists[bad.value]|, n))
    else FirstErrorFromFfn(s, env)
  }

  predicate FromFeatures(s: Args, env: Env)
    requires s.rates.lrScaler.Some?
  {
    FeaturesOk(s) && FromLearningRates(s, env)
  }

  function FirstErrorFromFeatures(s: Args, env: Env): Option<ResolveError>
    requires s.rates.lrScaler.Some?
  {
    var f := s.features;
    if f.predictFeaturesAndTask && s.task.datasetType != Regression then
      Some(PredictFeaturesAndTaskNeedsRegression(s.task.datasetType))
    else if (f.predictFeatures || f.predictFeaturesAndTask || FeatureKernel(s.task.kernelFunc)) &&
            !HasFeatureSource(f.featuresGenerator, f.featuresPath) then
      Some(MissingFeatureSource)
    else if s.task.datasetType == BertPretraining && f.featuresOnly then Some(BertWithFeaturesOnly)
    else FirstErrorFromLearningRates(s, env)
  }

  predicate FromVocab(s: Args, env: Env)
    requires s.rates.lrScaler.Some?
  {
    VocabOk(s, env) && FromFeatures(s, env)
  }

  function FirstErrorFromVocab(s: Args, env: Env): Option<ResolveError>
    requires s.rates.lrScaler.Some?
  {
    if s.task.jtnn && s.task.vocabPath.None? then Some(VocabPathNone)
    else if !VocabOk(s, env) then Some(VocabPathNotFound(s.task.vocabPath.value))
    else FirstErrorFromFeatures(s, env)
  }

  predicate FromCheckpoints(s: Args, env: Env)
    requires s.rates.lrScaler.Some?
  {
    CheckpointsOk(s, env) && FromVocab(s, env)
  }

  function FirstErrorFromCheckpoints(s: Args, env: Env): Option<ResolveError>
    requires s.rates.lrScaler.Some?
  {
    if !CheckpointsOk(s, env) then Some(NoCheckpointsFound(s.data.checkpointDir.value))
    else FirstErrorFromVocab(s, env)
  }

  /** Every check of the resolution step, stated on the parsed options alone. */
  predicate Admissible(s: Args, env: Env)
    requires IsParsed(s)
  {
    MetricOk(s) && FromCheckpoints(s, env)
  }

  /** The error of the first check, in the order the step runs them, that the parsed
      options fail; none when they pass every check. */
  function FirstError(s: Args, env: Env): Option<ResolveError>
    requires s.rates.lrScaler.Some?
  {
    var t := s.task;
    if t.metric.None? && t.datasetType == Kernel && t.kernelFunc.None? then Some(UnsupportedKernelFunction(None))
    else if !MetricOk(s) then Some(IncompatibleMetric(t.metric.value, t.datasetType))
    else FirstErrorFromCheckpoints(s, env)
  }

  /** The error a result carries, if any. */
  function Outcome(r: Result<Args, ResolveError>): Option<ResolveError> {
    if r.Success? then None else Some(r.error)
  }

  /** The resolution step succeeds exactly on the admissible options. */
  lemma ResolveSucceedsIff(s: Args, env: Env)
    requires IsParsed(s)
    ensures Resolve(s, env).Success? <==> Admissible(s, env)
  {
    var a := SwitchStage(SaveDirStage(s, env), env);
    assert a.task == s.task && a.features == s.features && a.rates == s.rates && a.network == s.network;
    assert a.split == s.split && a.data.checkpointDir == s.data.checkpointDir && a.data.dataPath == s.data.dataPath;
    assert Resolve(s, env) == AfterSwitches(a, env);
    AfterSwitchesIff(a, env);
    FromCheckpointsReads(s, a, env);
  }

  /** The checks fail fast: a failing resolution reports the error of the first check
      the options fail. */
  lemma ResolveReportsFirstError(s: Args, env: Env)
    requires IsParsed(s)
    ensures Outcome(Resolve(s, env)) == FirstError(s, env)
  {
    var a := SwitchStage(SaveDirStage(s, env), env);
    assert a.task == s.task && a.features == s.features && a.rates == s.rates && a.network == s.network;
    assert a.split == s.split && a.data.checkpointDir == s.data.checkpointDir && a.data.dataPath == s.data.dataPath;
    assert Resolve(s, env) == AfterSwitches(a, env);
    AfterSwitchesIff(a, env);
    FromCheckpointsReads(s, a, env);
  }

  // Each remaining check reads only some options; stages that change other options
  // leave it as it was.

  lemma FromFfnReads(s: Args, t: Args, env: Env)
    requires s.network == t.network && s.split == t.split && s.data.dataPath == t.data.dataPath
    ensures FromFfn(s, env) == FromFfn(t, env) && FirstErrorFromFfn(s, env) == FirstErrorFromFfn(t, env)
  {
  }

  lemma FromLearningRatesReads(s: Args, t: Args, env: Env)
    requires s.rates.lrScaler.Some? && s.rates == t.rates && s.task.datasetType == t.task.datasetType
    requires s.network == t.network && s.split == t.split && s.data.dataPath == t.data.dataPath
    ensures FromLearningRates(s, env) == FromLearningRates(t, env)
    ensures FirstErrorFromLearningRates(s, env) == FirstErrorFromLearningRates(t, env)
  {
    FromFfnReads(s, t, env);
  }

  lemma FromFeaturesReads(s: Args, t: Args, env: Env)
    requires s.rates.lrScaler.Some? && s.rates == t.rates && s.features == t.features
    requires s.task.datasetType == t.task.datasetType && s.task.kernelFunc == t.task.kernelFunc
    requires s.network == t.network && s.split == t.split && s.data.dataPath == t.data.dataPath
    ensures FromFeatures(s, env) == FromFeatures(t, env)
    ensures FirstErrorFromFeatures(s, env) == FirstErrorFromFeatures(t, env)
  {
    FromLearningRatesReads(s, t, env);
  }

  lemma FromVocabReads(s: Args, t: Args, env: Env)
    requires s.rates.lrScaler.Some? && s.rates == t.rates && s.features == t.features
    requires s.task.(metric := t.task.metric, minimizeScore := t.task.minimizeScore) == t.task
    requires s.network == t.network && s.split == t.split && s.data.dataPath == t.data.dataPath
    ensures FromVocab(s, env) == FromVocab(t, env)
    ensures FirstErrorFromVocab(s, env) == FirstErrorFromVocab(t, env)
  {
    FromFeaturesReads(s, t, env);
  }

  lemma FromCheckpointsReads(s: Args, t: Args, env: Env)
    requires s.rates.lrScaler.Some? && s.rates == t.rates && s.features == t.features
    requires s.task.(metric := t.task.metric, minimizeScore := t.task.minimizeScore) == t.task
    requires s.network == t.network && s.split == t.split && s.data.dataPath == t.data.dataPath
    requires s.data.checkpointDir == t.data.checkpointDir
    ensures FromCheckpoints(s, env) == FromCheckpoints(t, env)
    ensures FirstErrorFromCheckpoints(s, env) == FirstErrorFromCheckpoints(t, env)
  {
    FromVocabReads(s, t, env);
  }

  // What remains of the step after each stage succeeds exactly when its checks pass,
  // and otherwise reports the first failing one.

  lemma AfterSwitchesIff(s: Args, env: Env)
    requires s.rates.lrScaler.Some?
    ensures AfterSwitches(s, env).Success? <==> MetricOk(s) && FromCheckpoints(s, env)
    ensures Outcome(AfterSwitches(s, env)) == FirstError(s, env)
  {
    var r := MetricDefaultStage(s);
    if r.Success? {
      var t := r.value;
      assert t.task.(metric := s.task.metric) == s.task && t.data == s.data && t.features == s.features;
      assert t.rates == s.rates && t.network == s.network && t.split == s.split;
      AfterMetricDefaultIff(t, env);
      FromCheckpointsReads(t, s, env);
    }
  }

  lemma AfterMetricDefaultIff(s: Args, env: Env)
    requires s.task.metric.Some? && s.rates.lrScaler.Some?
    ensures AfterMetricDefault(s, env).Success? <==>
      MetricAccepted(s.task.datasetType, s.task.metric.value) && FromCheckpoints(s, env)
    ensures Outcome(AfterMetricDefault(s, env)) ==
      if MetricAccepted(s.task.datasetType, s.task.metric.value) then FirstErrorFromCheckpoints(s, env)
      else Some(IncompatibleMetric(s.task.metric.value, s.task.datasetType))
  {
    var r := MetricCheckStage(s);
    if r.Success? {
      var t := r.value;
      assert t.task.(minimizeScore := s.task.minimizeScore) == s.task && t.data == s.data;
      assert t.features == s.features && t.rates == s.rates && t.network == s.network && t.split == s.split;
      AfterMetricCheckIff(t, env);
      FromCheckpointsReads(t, s, env);
    }
  }

  lemma AfterMetricCheckIff(s: Args, env: Env)
    requires s.rates.lrScaler.Some?
    ensures AfterMetricCheck(s, env).Success? <==> FromCheckpoints(s, env)
    ensures Outcome(AfterMetricCheck(s, env)) == FirstErrorFromCheckpoints(s, env)
  {
    var r := CheckpointStage(s, env);
    if r.Success? {
      var t := r.value;
      assert t.task == s.task && t.data.dataPath == s.data.dataPath && t.features == s.features;
      assert t.rates == s.rates && t.network == s.network && t.split == s.split;
      AfterCheckpointsIff(t, env);
      FromVocabReads(t, s, env);
    }
  }

  lemma AfterCheckpointsIff(s: Args, env: Env)
    requires s.rates.lrScaler.Some?
    ensures AfterCheckpoints(s, env).Success? <==> FromVocab(s, env)
    ensures Outcome(AfterCheckpoints(s, env)) == FirstErrorFromVocab(s, env)
  {
    var r := VocabStage(s, env);
    if r.Success? {
      assert r.value == s;
      AfterVocabIff(s, env);
    }
  }

  lemma AfterVocabIff(s: Args, env: Env)
    requires s.rates.lrScaler.Some?
    ensures AfterVocab(s, env).Success? <==> FromFeatures(s, env)
    ensures Outcome(AfterVocab(s, env)) == FirstErrorFromFeatures(s, env)
  {
    var r := FeatureStage(s);
    if r.Success? {
      var t := r.value;
      assert t.task == s.task && t.data == s.data && t.rates == s.rates && t.network == s.network && t.split == s.split;
      AfterFeaturesIff(t, env);
      FromLearningRatesReads(t, s, env);
    }
  }

  lemma AfterFeaturesIff(s: Args, env: Env)
    requires s.rates.lrScaler.Some?
    ensures AfterFeatures(s, env).Success? <==> FromLearningRates(s, env)
    ensures Outcome(AfterFeatures(s, env)) == FirstErrorFromLearningRates(s, env)
  {
    var l := s.rates;
    var n := NumLrs(l.separateFfnLr || s.task.datasetType == Unsupervised);
    var lists := [l.initLr, l.maxLr, l.finalLr, l.lrScaler.value, l.warmupEpochs, l.weightDecay];
    assert lists[0] == l.initLr && lists[1] == l.maxLr && lists[2] == l.finalLr;
    assert lists[3] == l.lrScaler.value && lists[4] == l.warmupEpochs && lists[5] == l.weightDecay;
    assert RatesOk(s) <==> forall k :: 0 <= k < 6 ==> GroupCountOk(lists[k], n);
    var r := LearningRateStage(s);
    if r.Success? {
      var t := r.value;
      assert t.data == s.data && t.network == s.network && t.split == s.split;
      AfterLearningRatesIff(t, env);
      FromFfnReads(t, s, env);
    }
  }

  lemma AfterLearningRatesIff(s: Args, env: Env)
    ensures AfterLearningRates(s, env).Success? <==> FromFfn(s, env)
    ensures Outcome(AfterLearningRates(s, env)) == FirstErrorFromFfn(s, env)
  {
    var r := FfnStage(s);
    if r.Success? {
      var t := r.value;
      assert t.data == s.data && t.split == s.split;
      AfterFfnIff(t, env);
    }
  }

  lemma AfterFfnIff(s: Args, env: Env)
    ensures AfterFfn(s, env).Success? <==> SplitOk(s) && ChunkOk(s, env)
    ensures Outcome(AfterFfn(s, env)) ==
      if !SplitOk(s) then SplitError(s.split.splitType, s.split.scaffoldOverlap, s.split.foldsFile, s.split.testFoldIndex)
      else if !ChunkOk(s, env) then Some(ChunkDirHasNoFiles(s.data.dataPath))
      else None
  {
    if SplitStage(s).Success? {
      assert SplitStage(s).value == s;
      assert TestStage(s).data.dataPath == s.data.dataPath;
    }
  }

  /** The namespaces a successful resolution passes through, one per stage. */
  lemma Trace(s: Args, env: Env) returns (a: Args, b: Args, c: Args, d: Args, e: Args, f: Args, g: Args,
                                          h: Args, i: Args)
    requires IsParsed(s) && Resolve(s, env).Success?
    ensures a == SwitchStage(SaveDirStage(s, env), env)
    ensures MetricDefaultStage(a) == Success(b) && b.task.metric.Some?
    ensures MetricCheckStage(b) == Success(c)
    ensures CheckpointStage(c, env) == Success(d)
    ensures VocabStage(d, env) == Success(e)
    ensures FeatureStage(e) == Success(f) && f.rates.lrScaler.Some?
    ensures LearningRateStage(f) == Success(g)
    ensures FfnStage(g) == Success(h)
    ensures SplitStage(h) == Success(i)
    ensures ChunkStage(TestStage(i), env) == Resolve(s, env)
  {
    a := SwitchStage(SaveDirStage(s, env), env);
    assert Resolve(s, env) == AfterSwitches(a, env);
    b := MetricDefaultStage(a).value;
    assert Resolve(s, env) == AfterMetricDefault(b, env);
    c := MetricCheckStage(b).value;
    assert Resolve(s, env) == AfterMetricCheck(c, env);
    d := CheckpointStage(c, env).value;
    assert Resolve(s, env) == AfterCheckpoints(d, env);
    e := VocabStage(d, env).value;
    assert Resolve(s, env) == AfterVocab(e, env);
    f := FeatureStage(e).value;
    assert Resolve(s, env) == AfterFeatures(f, env);
    g := LearningRateStage(f).value;
    assert Resolve(s, env) == AfterLearningRates(g, env);
    h := FfnStage(g).value;
    assert Resolve(s, env) == AfterFfn(h, env);
    i := SplitStage(h).value;
  }

  /** A successful resolution deletes the negative switches and the scale list and sets
      the save directory, the metric and the feed-forward settings. */
  lemma ResolvedShape(s: Args, env: Env)
    requires IsParsed(s) && Resolve(s, env).Success?
    ensures IsResolved(Resolve(s, env).value)
  {
    var a, b, c, d, e, f, g, h, i := Trace(s, env);
  }

  /** The save directory is the given one or the fresh temporary directory, and each
      positive switch is the negation of the negative one; CUDA also needs a GPU. */
  lemma ResolvedDirAndSwitches(s: Args, env: Env)
    requires IsParsed(s) && Resolve(s, env).Success?
    ensures var t := Resolve(s, env).value;
      && t.data.saveDir == (if s.data.saveDir.Some? then s.data.saveDir else Some(env.tempDirName))
      && t.switches.cuda == (!s.switches.noCuda.value && env.gpuAvailable)
      && t.switches.targetScaling == !s.switches.noTargetScaling.value
      && t.switches.featuresScaling == !s.switches.noFeaturesScaling.value
  {
    var a, b, c, d, e, f, g, h, i := Trace(s, env);
  }

  /** A given metric is kept; a missing one takes the dataset type's default. The metric
      in force is accepted for the dataset type, and lower scores are better exactly for
      the error metrics. */
  lemma ResolvedMetric(s: Args, env: Env)
    requires IsParsed(s) && Resolve(s, env).Success?
    ensures var t := Resolve(s, env).value;
      && t.task.metric.Some?
      && (s.task.metric.Some? ==> t.task.metric == s.task.metric)
      && (s.task.metric.None? ==>
            t.task.metric == Some(DefaultMetric(s.task.datasetType, None, s.task.bertVocabFunc, s.task.kernelFunc).value))
      && MetricAccepted(t.task.datasetType, t.task.metric.value)
      && (t.task.minimizeScore <==> t.task.metric.value in {Rmse, Mae, LogLoss})
  {
    var a, b, c, d, e, f, g, h, i := Trace(s, env);
  }

  /** Without a checkpoint directory there are no checkpoint paths and the ensemble size
      is kept; with one, the paths are the `model.pt` files of its walk, in walk order,
      and the ensemble size is their number. */
  lemma ResolvedCheckpoints(s: Args, env: Env)
    requires IsParsed(s) && Resolve(s, env).Success?
    ensures var t := Resolve(s, env).value;
      && (s.data.checkpointDir.None? ==>
            t.data.checkpointPaths.None? && t.data.ensembleSize == s.data.ensembleSize)
      && (s.data.checkpointDir.Some? ==>
            var walk := Walk(env, s.data.checkpointDir.value);
            && t.data.checkpointPaths == Some(CheckpointPaths(walk))
            && t.data.ensembleSize == ModelFileCount(walk) > 0)
  {
    var a, b, c, d, e, f, g, h, i := Trace(s, env);
  }

  /** Features are predicted when asked for, alone or with the task; input features are
      used exactly when a source is given, no features are predicted, the kernel does
      not compare features and the task is not BERT pretraining. */
  lemma ResolvedFeatureUse(s: Args, env: Env)
    requires IsParsed(s) && Resolve(s, env).Success?
    ensures var t := Resolve(s, env).value;
      && t.features.predictFeatures == (s.features.predictFeatures || s.features.predictFeaturesAndTask)
      && (t.features.useInputFeatures <==>
            && HasFeatureSource(s.features.featuresGenerator, s.features.featuresPath)
            && !t.features.predictFeatures
            && !FeatureKernel(s.task.kernelFunc)
            && s.task.datasetType != BertPretraining)
  {
    var a, b, c, d, e, f, g, h, i := Trace(s, env);
  }

  /** The rate lists the learning-rate stage leaves, in terms of the lists it is given:
      every given list has one entry or one per group, the initial, maximum and final
      rates are scaled group by group and the warm-up and weight decay are broadcast. */
  predicate RatesResolvedFrom(datasetType: DatasetType, l: RateOptions, t: RateOptions)
    requires l.lrScaler.Some?
  {
    var scaler := l.lrScaler.value;
    && t.separateFfnLr == (l.separateFfnLr || datasetType == Unsupervised)
    && t.numLrs == NumLrs(t.separateFfnLr)
    && t.lrScaler.None?
    && GroupCountOk(l.initLr, t.numLrs) && GroupCountOk(l.maxLr, t.numLrs)
    && GroupCountOk(l.finalLr, t.numLrs) && GroupCountOk(scaler, t.numLrs)
    && GroupCountOk(l.warmupEpochs, t.numLrs) && GroupCountOk(l.weightDecay, t.numLrs)
    && t.initLr == ScaledByGroup(l.initLr, scaler, t.separateFfnLr)
    && t.maxLr == ScaledByGroup(l.maxLr, scaler, t.separateFfnLr)
    && t.finalLr == ScaledByGroup(l.finalLr, scaler, t.separateFfnLr)
    && t.warmupEpochs == Broadcast(l.warmupEpochs, t.separateFfnLr)
    && t.weightDecay == Broadcast(l.weightDecay, t.separateFfnLr)
  }

  /** What the learning-rate stage leaves when it succeeds. */
  lemma LearningRateStageValues(f: Args)
    requires f.rates.lrScaler.Some? && LearningRateStage(f).Success?
    ensures RatesResolvedFrom(f.task.datasetType, f.rates, LearningRateStage(f).value.rates)
  {
    var l := f.rates;
    var groups := LearningRateGroups(f.task.datasetType, l.separateFfnLr, l.initLr, l.maxLr, l.finalLr,
                                     l.lrScaler.value, l.warmupEpochs, l.weightDecay);
    var r := groups.value;
    assert LearningRateStage(f).value.rates == RateOptions(r.separateFfnLr, r.numLrs, r.initLr, r.maxLr,
                                                           r.finalLr, None, r.warmupEpochs, r.weightDecay);
  }

  /** Unsupervised training gets a separate feed-forward optimizer; every list has one
      entry or one per group, and the resolved lists are scaled and broadcast group by
      group, so each group's initial, maximum and final rates are its entry (or the only
      entry) times its scale. */
  lemma ResolvedLearningRates(s: Args, env: Env)
    requires IsParsed(s) && Resolve(s, env).Success?
    ensures RatesResolvedFrom(s.task.datasetType, s.rates, Resolve(s, env).value.rates)
  {
    var a, b, c, d, e, f, g, h, k := Trace(s, env);
    assert f.rates == s.rates && f.task.datasetType == s.task.datasetType;
    LearningRateStageValues(f);
    assert Resolve(s, env).value.rates == g.rates;
  }

  /** Each unset feed-forward size or dropout inherits the message-passing one. */
  lemma ResolvedNetwork(s: Args, env: Env)
    requires IsParsed(s) && Resolve(s, env).Success?
    ensures var t := Resolve(s, env).value;
      var n := s.network;
      && t.network.ffnHiddenSize == Some(n.ffnHiddenSize.GetOr(n.hiddenSize))
      && t.network.ffnInputDropout == Some(n.ffnInputDropout.GetOr(n.dropout))
      && t.network.ffnDropout == Some(n.ffnDropout.GetOr(n.dropout))
  {
    var a, b, c, d, e, f, g, h, i := Trace(s, env);
  }

  /** A test-only run trains for no epochs; otherwise the epoch count is kept. */
  lemma ResolvedEpochs(s: Args, env: Env)
    requires IsParsed(s) && Resolve(s, env).Success?
    ensures Resolve(s, env).value.data.epochs == if s.data.test then 0 else s.data.epochs
  {
    var a, b, c, d, e, f, g, h, i := Trace(s, env);
  }

  /** A data path that is not a directory is kept and there is no chunk directory. A
      directory becomes the chunk directory and the data path becomes the first file of
      the first entry of its walk, which must have one; in a well-formed environment that
      is a file directly inside the directory. */
  lemma ResolvedChunks(s: Args, env: Env)
    requires IsParsed(s) && Resolve(s, env).Success?
    ensures var t := Resolve(s, env).value;
      var d := s.data.dataPath;
      && (d !in env.directories ==> t.data.dataPath == d && t.data.prespecifiedChunkDir.None?)
      && (d in env.directories ==> t.data.prespecifiedChunkDir == Some(d))
      && (d in env.directories && Walk(env, d) == [] ==> t.data.dataPath == d)
      && (d in env.directories && Walk(env, d) != [] ==> Walk(env, d)[0].files != [])
      && (d in env.directories && Walk(env, d) != [] && Walk(env, d)[0].files != [] ==>
            t.data.dataPath == Join(Walk(env, d)[0].root, Walk(env, d)[0].files[0]))
      && (d in env.directories && WellFormed(env) ==>
            exists name :: name in Walk(env, d)[0].files && t.data.dataPath == Join(d, name))
  {
    var a, b, c, d, e, f, g, h, i := Trace(s, env);
  }

  /** Nothing the resolution step does not set changes. */
  lemma ResolvedKeepsTheRest(s: Args, env: Env)
    requires IsParsed(s) && Resolve(s, env).Success?
    ensures var t := Resolve(s, env).value;
      && t.data.test == s.data.test && t.data.checkpointDir == s.data.checkpointDir
      && t.task.(metric := s.task.metric, minimizeScore := s.task.minimizeScore) == s.task
      && t.features.(predictFeatures := s.features.predictFeatures,
                     useInputFeatures := s.features.useInputFeatures) == s.features
      && t.split == s.split
      && t.network.(ffnHiddenSize := s.network.ffnHiddenSize, ffnInputDropout := s.network.ffnInputDropout,
                    ffnDropout := s.network.ffnDropout) == s.network
  {
    var a, b, c, d, e, f, g, h, i := Trace(s, env);
  }

  /** The options that stand for a resolved configuration: its positive switches as
      negative ones, unit group scales, and the chunk directory as the data path. */
  function Unresolve(t: Args): (s: Args)
    ensures IsParsed(s)
  {
    t.(data := t.data.(dataPath := t.data.prespecifiedChunkDir.GetOr(t.data.dataPath)),
       switches := t.switches.(noCuda := Some(!t.switches.cuda), noTargetScaling := Some(!t.switches.targetScaling),
                               noFeaturesScaling := Some(!t.switches.featuresScaling)),
       rates := t.rates.(lrScaler := Some(UnitScaler(t.rates.numLrs))))
  }

  /** The options standing for a successful resolution's result read the original data
      path back. */
  lemma UnresolveDataPath(s: Args, env: Env)
    requires IsParsed(s) && Resolve(s, env).Success?
    ensures Unresolve(Resolve(s, env).value).data.dataPath == s.data.dataPath
  {
    ResolvedChunks(s, env);
  }

  /** The options standing for a successful resolution's result pass every check. */
  lemma UnresolveAdmissible(s: Args, env: Env)
    requires IsParsed(s) && Resolve(s, env).Success?
    ensures Admissible(Unresolve(Resolve(s, env).value), env)
  {
    var t := Resolve(s, env).value;
    var u := Unresolve(t);
    ResolveSucceedsIff(s, env);
    ResolvedMetric(s, env);
    ResolvedFeatureUse(s, env);
    ResolvedLearningRates(s, env);
    ResolvedKeepsTheRest(s, env);
    UnresolveDataPath(s, env);
    assert MetricOk(u);
    assert CheckpointsOk(u, env) && VocabOk(u, env);
    assert FeaturesOk(u);
    assert RatesOk(u);
    assert FromFfn(u, env);
  }

  lemma IdempotentData(s: Args, env: Env)
    requires IsParsed(s) && Resolve(s, env).Success? && Resolve(Unresolve(Resolve(s, env).value), env).Success?
    ensures Resolve(Unresolve(Resolve(s, env).value), env).value.data == Resolve(s, env).value.data
  {
    var u := Unresolve(Resolve(s, env).value);
    UnresolveDataPath(s, env);
    ResolvedDirAndSwitches(s, env);
    ResolvedDirAndSwitches(u, env);
    ResolvedCheckpoints(s, env);
    ResolvedCheckpoints(u, env);
    ResolvedEpochs(s, env);
    ResolvedEpochs(u, env);
    ResolvedChunks(s, env);
    ResolvedChunks(u, env);
    ResolvedKeepsTheRest(s, env);
    ResolvedKeepsTheRest(u, env);
  }

  lemma IdempotentTask(s: Args, env: Env)
    requires IsParsed(s) && Resolve(s, env).Success? && Resolve(Unresolve(Resolve(s, env).value), env).Success?
    ensures Resolve(Unresolve(Resolve(s, env).value), env).value.task == Resolve(s, env).value.task
  {
    var u := Unresolve(Resolve(s, env).value);
    ResolvedMetric(s, env);
    ResolvedMetric(u, env);
    ResolvedKeepsTheRest(s, env);
    ResolvedKeepsTheRest(u, env);
  }

  lemma IdempotentFeatures(s: Args, env: Env)
    requires IsParsed(s) && Resolve(s, env).Success? && Resolve(Unresolve(Resolve(s, env).value), env).Success?
    ensures Resolve(Unresolve(Resolve(s, env).value), env).value.features == Resolve(s, env).value.features
  {
    var u := Unresolve(Resolve(s, env).value);
    ResolvedFeatureUse(s, env);
    ResolvedFeatureUse(u, env);
    ResolvedKeepsTheRest(s, env);
    ResolvedKeepsTheRest(u, env);
  }

  lemma IdempotentSwitchesAndNetwork(s: Args, env: Env)
    requires IsParsed(s) && Resolve(s, env).Success? && Resolve(Unresolve(Resolve(s, env).value), env).Success?
    ensures var t := Resolve(s, env).value;
      var t' := Resolve(Unresolve(t), env).value;
      t'.split == t.split && t'.switches == t.switches && t'.network == t.network
  {
    var u := Unresolve(Resolve(s, env).value);
    ResolvedShape(s, env);
    ResolvedShape(u, env);
    ResolvedDirAndSwitches(s, env);
    ResolvedDirAndSwitches(u, env);
    ResolvedNetwork(s, env);
    ResolvedNetwork(u, env);
    ResolvedKeepsTheRest(s, env);
    ResolvedKeepsTheRest(u, env);
  }

  lemma IdempotentRates(s: Args, env: Env)
    requires IsParsed(s) && Resolve(s, env).Success? && Resolve(Unresolve(Resolve(s, env).value), env).Success?
    ensures Resolve(Unresolve(Resolve(s, env).value), env).value.rates == Resolve(s, env).value.rates
  {
    var t := Resolve(s, env).value;
    var u := Unresolve(t);
    ResolvedLearningRates(s, env);
    ResolvedLearningRates(u, env);
    ResolvedKeepsTheRest(s, env);
    var r := t.rates;
    ScaledByGroupUnit(r.initLr, r.separateFfnLr);
    ScaledByGroupUnit(r.maxLr, r.separateFfnLr);
    ScaledByGroupUnit(r.finalLr, r.separateFfnLr);
    BroadcastFull(r.warmupEpochs, r.separateFfnLr);
    BroadcastFull(r.weightDecay, r.separateFfnLr);
  }

  /** Resolving is idempotent: a resolved configuration, given back as options,
      resolves to itself. */
  lemma ResolveIdempotent(s: Args, env: Env)
    requires IsParsed(s) && Resolve(s, env).Success?
    ensures Resolve(Unresolve(Resolve(s, env).value), env) == Resolve(s, env)
  {
    var u := Unresolve(Resolve(s, env).value);
    UnresolveAdmissible(s, env);
    ResolveSucceedsIff(u, env);
    IdempotentData(s, env);
    IdempotentTask(s, env);
    IdempotentFeatures(s, env);
    IdempotentSwitchesAndNetwork(s, env);
    IdempotentRates(s, env);
  }
}
