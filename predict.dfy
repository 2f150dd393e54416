/**
 * The "Predict Crop" button handler end to end: the form's values are aligned to
 * the trained schema, the classifier scores them, and the three most probable
 * crops are kept. The classifier is a parameter: its classes_ and the
 * predict_proba row it gives for the aligned frame.
 */
module Predict {
  import opened Vectorizer
  import opened Ranker

  method PredictCrop(sample: SoilSample, cols: seq<string>, classes: seq<string>, predictProba: Frame -> seq<real>)
    returns (features: Frame, top: seq<Pair>)
    ensures Names(features) == cols
    ensures forall i :: 0 <= i < |cols| ==> features[i].cell == Produced(sample, cols[i]).GetOr(Fill)
    ensures top == Top(Ranked(Zip(classes, predictProba(features))), TopK)
    ensures |top| == Min(TopK, Min(|classes|, |predictProba(features)|))
    ensures SortedDesc(top)
  {
    features := Vectorize(sample, cols);
    var probs := predictProba(features);
    top := Recommend(classes, probs);
  }
}
