/**
 * The two machine-learning predictors (`predict_lifestyle`, `predict_clinical`)
 * are not modelled; their answers enter the model as values or as predictor
 * functions passed in by the caller.
 */
module Predictions {

  /** A class label as the predictors return it: `int(proba >= 0.5)`. */
  type Bit = b: int | 0 <= b <= 1

  /** `(pred, proba)`: the predicted class and the probability of the positive class. */
  datatype Prediction = Prediction(pred: Bit, proba: real)
}
