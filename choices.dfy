/** The `choices` sets that the training-argument parser declares: one enumeration per
    choice-constrained option that the resolution step reads. */
module Choices {

  /** `--dataset_type` */
  datatype DatasetType =
    | Classification
    | Regression
    | RegressionWithBinning
    | Unsupervised
    | BertPretraining
    | Kernel

  /** `--split_type` */
  datatype SplitType = Random | Scaffold | ScaffoldOne | ScaffoldOverlap | Predetermined

  /** `--metric` */
  datatype Metric =
    | Auc
    | PrcAuc
    | Rmse
    | Mae
    | R2
    | Accuracy
    | ArgmaxAccuracy
    | LogLoss
    | MajorityBaselineAccuracy

  /** `--bert_vocab_func` */
  datatype BertVocabFunc = Atom | AtomFeatures | FeatureVector | Substructure

  /** `--kernel_func` */
  datatype KernelFunc = Features | FeaturesDot | WL

  /** The elements of the `--features_generator` list. */
  datatype FeaturesGenerator = Morgan | MorganCount | Rdkit2d | Mordred
}
