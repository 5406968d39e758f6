/** What the resolution step returns on the namespace the parser produces when only the
    data path and the dataset type are given, and on small variations of it. */
module ResolutionScenarios {
  import opened Wrappers
  import opened Choices
  import opened Host
  import opened Checkpoints
  import opened LearningRates
  import opened Options
  import opened Resolution
  import opened ResolutionProperties

  /** A host with no GPU, no files and no directories. */
  const Bare := Env(gpuAvailable := false, tempDirName := "/tmp/run", existing := {}, directories := {},
                    walks := map[])

  /** Classification by default: scored by AUC, higher is better, one rate group, the
      temporary directory as save directory and every scaling switch on. */
  lemma ClassificationDefaults()
    ensures var r := Resolve(Defaults("data.csv", Classification), Bare);
      && r.Success?
      && r.value.task.metric == Some(Auc) && !r.value.task.minimizeScore
      && r.value.data.saveDir == Some("/tmp/run") && r.value.data.epochs == 30
      && !r.value.switches.cuda && r.value.switches.targetScaling && r.value.switches.featuresScaling
      && r.value.rates.numLrs == 1 && r.value.rates.initLr == [0.0001] && r.value.rates.maxLr == [0.001]
      && r.value.network.ffnHiddenSize == Some(300) && r.value.network.ffnDropout == Some(0.0)
      && !r.value.features.useInputFeatures && r.value.data.prespecifiedChunkDir.None?
  {
    var s := Defaults("data.csv", Classification);
    ResolveSucceedsIff(s, Bare);
    ResolvedMetric(s, Bare);
    ResolvedDirAndSwitches(s, Bare);
    ResolvedEpochs(s, Bare);
    ResolvedLearningRates(s, Bare);
    ResolvedNetwork(s, Bare);
    ResolvedFeatureUse(s, Bare);
    ResolvedChunks(s, Bare);
    OneEntryGroups(0.0001, false);
    OneEntryGroups(0.001, false);
  }

  /** A one-entry rate list under the default scale of one: one copy per group. */
  lemma OneEntryGroups(x: real, separateFfnLr: bool)
    ensures var groups := if separateFfnLr then [x, x] else [x];
      ScaledByGroup([x], [1.0], separateFfnLr) == groups && Broadcast([x], separateFfnLr) == groups
  {
    var r := ScaledByGroup([x], [1.0], separateFfnLr);
    assert r[0] == x * 1.0;
    assert separateFfnLr ==> r[1] == x * 1.0;
  }

  /** Unsupervised training: log loss, lower is better, and every rate list repeated for a
      separate feed-forward group. */
  lemma UnsupervisedDefaults()
    ensures var r := Resolve(Defaults("data.csv", Unsupervised), Bare);
      && r.Success?
      && r.value.task.metric == Some(LogLoss) && r.value.task.minimizeScore
      && r.value.rates.separateFfnLr && r.value.rates.numLrs == 2
      && r.value.rates.initLr == [0.0001, 0.0001] && r.value.rates.maxLr == [0.001, 0.001]
      && r.value.rates.finalLr == [0.0001, 0.0001]
      && r.value.rates.warmupEpochs == [2.0, 2.0] && r.value.rates.weightDecay == [0.0, 0.0]
  {
    var s := Defaults("data.csv", Unsupervised);
    ResolveSucceedsIff(s, Bare);
    ResolvedMetric(s, Bare);
    ResolvedLearningRates(s, Bare);
    OneEntryGroups(0.0001, true);
    OneEntryGroups(0.001, true);
    OneEntryGroups(2.0, true);
    OneEntryGroups(0.0, true);
  }

  /** BERT pretraining on the feature-vector vocabulary is scored by RMSE. */
  lemma BertDefaults()
    ensures var r := Resolve(Defaults("data.csv", BertPretraining), Bare);
      r.Success? && r.value.task.metric == Some(Rmse)
  {
    var s := Defaults("data.csv", BertPretraining);
    ResolveSucceedsIff(s, Bare);
    ResolvedMetric(s, Bare);
  }

  /** BERT pretraining on any other vocabulary is scored by log loss. */
  lemma BertAtomDefaults()
    ensures var s := Defaults("data.csv", BertPretraining);
      var r := Resolve(s.(task := s.task.(bertVocabFunc := Atom)), Bare);
      r.Success? && r.value.task.metric == Some(LogLoss)
  {
    var s := Defaults("data.csv", BertPretraining);
    var s' := s.(task := s.task.(bertVocabFunc := Atom));
    ResolveSucceedsIff(s', Bare);
    ResolvedMetric(s', Bare);
  }

  /** A kernel dataset without a kernel function has no default metric. */
  lemma KernelWithoutFunction()
    ensures Resolve(Defaults("data.csv", Kernel), Bare) == Failure(UnsupportedKernelFunction(None))
  {
    ResolveReportsFirstError(Defaults("data.csv", Kernel), Bare);
  }

  /** A classification dataset cannot be scored by RMSE. */
  lemma ClassificationWithRmse()
    ensures var s := Defaults("data.csv", Classification);
      Resolve(s.(task := s.task.(metric := Some(Rmse))), Bare) == Failure(IncompatibleMetric(Rmse, Classification))
  {
    var s := Defaults("data.csv", Classification);
    var s' := s.(task := s.task.(metric := Some(Rmse)));
    assert !MetricOk(s') by { assert !MetricAccepted(Classification, Rmse); }
    assert FirstError(s', Bare) == Some(IncompatibleMetric(Rmse, Classification));
    ResolveReportsFirstError(s', Bare);
  }

  /** A checkpoint directory that does not exist, so that its walk yields nothing, holds
      no checkpoints. */
  lemma MissingCheckpointDir()
    ensures var s := Defaults("data.csv", Regression);
      Resolve(s.(data := s.data.(checkpointDir := Some("ckpt"))), Bare) == Failure(NoCheckpointsFound("ckpt"))
  {
    var s := Defaults("data.csv", Regression);
    ResolveReportsFirstError(s.(data := s.data.(checkpointDir := Some("ckpt"))), Bare);
  }

  /** A checkpoint directory with a model file at its top and one in a subdirectory. */
  const TwoModelWalk := [WalkEntry("ckpt", ["a"], ["model.pt"]), WalkEntry("ckpt/a", [], ["log.txt", "model.pt"])]

  const TwoModelHost := Bare.(walks := map["ckpt" := TwoModelWalk])

  lemma TopEntryPaths()
    ensures EntryCheckpoints("ckpt", ["model.pt"]) == ["ckpt/model.pt"]
  {
    assert ["model.pt"][..0] == [];
    assert Join("ckpt", "model.pt") == "ckpt/model.pt";
  }

  lemma SubdirectoryEntryPaths()
    ensures EntryCheckpoints("ckpt/a", ["log.txt", "model.pt"]) == ["ckpt/a/model.pt"]
  {
    assert ["log.txt", "model.pt"][..1] == ["log.txt"];
    assert ["log.txt"][..0] == [];
    assert Join("ckpt/a", "model.pt") == "ckpt/a/model.pt";
  }

  /** Its checkpoint paths, in walk order. */
  lemma TwoModelPaths()
    ensures CheckpointPaths(TwoModelWalk) == ["ckpt/model.pt", "ckpt/a/model.pt"]
    ensures ModelFileCount(TwoModelWalk) == 2
  {
    TopEntryPaths();
    SubdirectoryEntryPaths();
    assert TwoModelWalk[..1] == [TwoModelWalk[0]];
    assert TwoModelWalk[..1][..0] == [];
    CheckpointPathsCount(TwoModelWalk);
  }

  /** Options naming that checkpoint directory pass every check. */
  lemma TwoCheckpointsAdmissible()
    ensures var s := Defaults("data.csv", Regression);
      Admissible(s.(data := s.data.(checkpointDir := Some("ckpt"))), TwoModelHost)
  {
    var s := Defaults("data.csv", Regression);
    var s' := s.(data := s.data.(checkpointDir := Some("ckpt")));
    assert Walk(TwoModelHost, "ckpt") == TwoModelWalk;
    assert HasModelFile(TwoModelWalk) by { assert ModelFileName in TwoModelWalk[0].files; }
    assert CheckpointsOk(s', TwoModelHost);
    assert FromVocab(s', TwoModelHost);
  }

  /** Those two checkpoints form an ensemble of two. */
  lemma TwoCheckpoints()
    ensures var s := Defaults("data.csv", Regression);
      var r := Resolve(s.(data := s.data.(checkpointDir := Some("ckpt"))), TwoModelHost);
      r.Success? && r.value.data.checkpointPaths == Some(["ckpt/model.pt", "ckpt/a/model.pt"]) &&
      r.value.data.ensembleSize == 2
  {
    var s := Defaults("data.csv", Regression);
    var s' := s.(data := s.data.(checkpointDir := Some("ckpt")));
    TwoCheckpointsAdmissible();
    ResolveSucceedsIff(s', TwoModelHost);
    assert Walk(TwoModelHost, "ckpt") == TwoModelWalk;
    TwoModelPaths();
    ResolvedCheckpoints(s', TwoModelHost);
  }

  /** Junction-tree mode without a vocabulary path fails on the existence test. */
  lemma JtnnWithoutVocab()
    ensures var s := Defaults("data.csv", Regression);
      Resolve(s.(task := s.task.(jtnn := true)), Bare) == Failure(VocabPathNone)
  {
    var s := Defaults("data.csv", Regression);
    ResolveReportsFirstError(s.(task := s.task.(jtnn := true)), Bare);
  }

  /** Predicting features and the task together needs a regression dataset. */
  lemma FeaturesAndTaskOnClassification()
    ensures var s := Defaults("data.csv", Classification);
      Resolve(s.(features := s.features.(predictFeaturesAndTask := true)), Bare) ==
        Failure(PredictFeaturesAndTaskNeedsRegression(Classification))
  {
    var s := Defaults("data.csv", Classification);
    ResolveReportsFirstError(s.(features := s.features.(predictFeaturesAndTask := true)), Bare);
  }

  /** Predicting features needs a feature source. */
  lemma PredictFeaturesWithoutSource()
    ensures var s := Defaults("data.csv", Regression);
      Resolve(s.(features := s.features.(predictFeatures := true)), Bare) == Failure(MissingFeatureSource)
  {
    var s := Defaults("data.csv", Regression);
    ResolveReportsFirstError(s.(features := s.features.(predictFeatures := true)), Bare);
  }

  /** Two initial rates without a separate feed-forward group are too many. */
  lemma TooManyRates()
    ensures var s := Defaults("data.csv", Regression);
      Resolve(s.(rates := s.rates.(initLr := [0.001, 0.002])), Bare) == Failure(InvalidLrGroupCount(InitLr, 2, 1))
  {
    var s := Defaults("data.csv", Regression);
    ResolveReportsFirstError(s.(rates := s.rates.(initLr := [0.001, 0.002])), Bare);
  }

  /** A predetermined split with a folds file but no test fold index is rejected. */
  lemma PredeterminedWithoutFoldIndex()
    ensures var s := Defaults("data.csv", Regression);
      Resolve(s.(split := SplitOptions(Predetermined, None, Some("folds.pkl"), None)), Bare) ==
        Failure(PredeterminedSplitMismatch(Predetermined, Some("folds.pkl"), None))
  {
    var s := Defaults("data.csv", Regression);
    var s' := s.(split := SplitOptions(Predetermined, None, Some("folds.pkl"), None));
    var e := Some(PredeterminedSplitMismatch(Predetermined, Some("folds.pkl"), None));
    assert FirstErrorFromFfn(s', Bare) == e;
    assert FirstErrorFromLearningRates(s', Bare) == e by { assert RatesOk(s'); }
    assert FirstErrorFromFeatures(s', Bare) == e;
    assert FirstErrorFromCheckpoints(s', Bare) == e;
    assert FirstError(s', Bare) == e;
    ResolveReportsFirstError(s', Bare);
  }

  /** A test-only run trains for no epochs. */
  lemma TestRun()
    ensures var s := Defaults("data.csv", Regression);
      var r := Resolve(s.(data := s.data.(test := true)), Bare);
      r.Success? && r.value.data.epochs == 0
  {
    var s := Defaults("data.csv", Regression);
    var s' := s.(data := s.data.(test := true));
    ResolveSucceedsIff(s', Bare);
    ResolvedEpochs(s', Bare);
  }

  /** A host with one directory of two chunk files. */
  const ChunkHost := Bare.(directories := {"chunks"}, existing := {"chunks"},
                           walks := map["chunks" := [WalkEntry("chunks", [], ["a.csv", "b.csv"])]])

  /** Options naming that directory as the data path pass every check. */
  lemma ChunkDirectoryAdmissible()
    ensures Admissible(Defaults("chunks", Regression), ChunkHost)
  {
    var s := Defaults("chunks", Regression);
    assert Walk(ChunkHost, "chunks") == [WalkEntry("chunks", [], ["a.csv", "b.csv"])];
    assert ChunkOk(s, ChunkHost);
    assert FromFfn(s, ChunkHost);
    assert FromLearningRates(s, ChunkHost);
  }

  lemma ChunkFileJoin()
    ensures Join("chunks", "a.csv") == "chunks/a.csv"
  {
    assert "chunks" + "/" + "a.csv" == "chunks/a.csv";
  }

  /** A directory data path is read as chunks: the first file of the walk's first entry. */
  lemma ChunkDirectory()
    ensures var r := Resolve(Defaults("chunks", Regression), ChunkHost);
      r.Success? && r.value.data.dataPath == "chunks/a.csv" && r.value.data.prespecifiedChunkDir == Some("chunks")
  {
    var s := Defaults("chunks", Regression);
    ChunkDirectoryAdmissible();
    ResolveSucceedsIff(s, ChunkHost);
    assert Walk(ChunkHost, "chunks") == [WalkEntry("chunks", [], ["a.csv", "b.csv"])];
    ChunkFileJoin();
    ResolvedChunks(s, ChunkHost);
  }
}
