/** The training options the resolution step reads or writes, grouped by what they
    configure. Options the parser may leave unset are `Option`s; the three negative
    switches and the scale list are `None` once the resolution step has deleted them;
    the attributes the step adds hold placeholder values until it sets them. */
module Options {
  import opened Wrappers
  import opened Choices

  /** Where the data, the checkpoints and the outputs are, and how long to train. */
  datatype DataOptions = DataOptions(
    dataPath: string,
    test: bool,
    saveDir: Option<string>,
    checkpointDir: Option<string>,
    checkpointPaths: Option<seq<string>>,    // added
    ensembleSize: int,
    epochs: int,
    prespecifiedChunkDir: Option<string>)    // added

  /** What is learned and how it is scored. */
  datatype TaskOptions = TaskOptions(
    datasetType: DatasetType,
    metric: Option<Metric>,
    minimizeScore: bool,                     // added
    bertVocabFunc: BertVocabFunc,
    kernelFunc: Option<KernelFunc>,
    jtnn: bool,
    vocabPath: Option<string>)

  /** Which molecule-level features are used or predicted. */
  datatype FeatureOptions = FeatureOptions(
    featuresOnly: bool,
    featuresGenerator: Option<seq<FeaturesGenerator>>,
    featuresPath: Option<string>,
    predictFeatures: bool,
    predictFeaturesAndTask: bool,
    useInputFeatures: bool)                  // added

  /** How the data is split. */
  datatype SplitOptions = SplitOptions(
    splitType: SplitType,
    scaffoldOverlap: Option<real>,
    foldsFile: Option<string>,
    testFoldIndex: Option<int>)

  /** The negative switches the parser declares and the positive ones that replace them. */
  datatype SwitchOptions = SwitchOptions(
    noCuda: Option<bool>,
    cuda: bool,                              // added
    noTargetScaling: Option<bool>,
    targetScaling: bool,                     // added
    noFeaturesScaling: Option<bool>,
    featuresScaling: bool)                   // added

  /** The optimizer's per-group rate lists. */
  datatype RateOptions = RateOptions(
    separateFfnLr: bool,
    numLrs: nat,                             // added
    initLr: seq<real>,
    maxLr: seq<real>,
    finalLr: seq<real>,
    lrScaler: Option<seq<real>>,
    warmupEpochs: seq<real>,
    weightDecay: seq<real>)

  /** The message-passing and feed-forward network sizes and dropouts. */
  datatype NetworkOptions = NetworkOptions(
    hiddenSize: int,
    dropout: real,
    ffnNumLayers: int,
    ffnHiddenSize: Option<int>,
    ffnInputDropout: Option<real>,
    ffnDropout: Option<real>)

  /** The argument namespace as a value. */
  datatype Args = Args(
    data: DataOptions,
    task: TaskOptions,
    features: FeatureOptions,
    split: SplitOptions,
    switches: SwitchOptions,
    rates: RateOptions,
    network: NetworkOptions)

  /** As the parser leaves the namespace: the attributes to be deleted exist. */
  predicate IsParsed(s: Args) {
    && s.switches.noCuda.Some? && s.switches.noTargetScaling.Some? && s.switches.noFeaturesScaling.Some?
    && s.rates.lrScaler.Some?
  }

  /** As a successful resolution leaves it: the negative switches and the scale list are
      deleted, and the save directory, the metric and the feed-forward settings are set. */
  predicate IsResolved(s: Args) {
    && s.switches.noCuda.None? && s.switches.noTargetScaling.None? && s.switches.noFeaturesScaling.None?
    && s.rates.lrScaler.None?
    && s.data.saveDir.Some? && s.task.metric.Some?
    && s.network.ffnHiddenSize.Some? && s.network.ffnInputDropout.Some? && s.network.ffnDropout.Some?
  }

  /** The namespace the parser produces when only the two required options are given:
      every other option takes its declared default. */
  function Defaults(dataPath: string, datasetType: DatasetType): (s: Args)
    ensures IsParsed(s)
    ensures s.data.dataPath == dataPath && s.task.datasetType == datasetType
  {
    Args(
      data := DataOptions(dataPath := dataPath, test := false, saveDir := None, checkpointDir := None,
                          checkpointPaths := None, ensembleSize := 1, epochs := 30, prespecifiedChunkDir := None),
      task := TaskOptions(datasetType := datasetType, metric := None, minimizeScore := false,
                          bertVocabFunc := FeatureVector, kernelFunc := None, jtnn := false, vocabPath := None),
      features := FeatureOptions(featuresOnly := false, featuresGenerator := None, featuresPath := None,
                                 predictFeatures := false, predictFeaturesAndTask := false, useInputFeatures := false),
      split := SplitOptions(splitType := Random, scaffoldOverlap := None, foldsFile := None, testFoldIndex := None),
      switches := SwitchOptions(noCuda := Some(false), cuda := false, noTargetScaling := Some(false),
                                targetScaling := false, noFeaturesScaling := Some(false), featuresScaling := false),
      rates := RateOptions(separateFfnLr := false, numLrs := 0, initLr := [0.0001], maxLr := [0.001],
                           finalLr := [0.0001], lrScaler := Some([1.0]), warmupEpochs := [2.0], weightDecay := [0.0]),
      network := NetworkOptions(hiddenSize := 300, dropout := 0.0, ffnNumLayers := 2, ffnHiddenSize := None,
                                ffnInputDropout := None, ffnDropout := None))
  }
}
