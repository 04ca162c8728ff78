/** Outcomes shared by the evaluator: every way a run of the evaluation script aborts. */
module Errors {

  /** The exceptions that stop the evaluation run. None of them is caught by the script. */
  datatype Error =
    | EmptyScores           // np.argmax over a prediction with an empty probability vector
    | LabelRowWidth         // a label row that is not `class x y w h`
    | ClassIndexOutOfRange  // the class column indexes outside the one-hot vector
    | ZeroGroundTruth       // running recall divides by zero ground-truth boxes
    | NoImages              // the image directory holds no .jpg file

  datatype Result<T> = Ok(value: T) | Err(error: Error)

  datatype Option<T> = None | Some(value: T)
}
