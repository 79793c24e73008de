/** Success/failure results for the operations that throw an
    IllegalArgumentException in the trainer's Java code. */
module Wrappers {

  /** The configuration errors the core raises. */
  datatype Error =
    | LengthMismatch        // predictions and targets differ in length (MeanSquaredError)
    | GradientCountMismatch // gradient list size differs from the layer count (NeuralNetwork)

  datatype Option<+T> = None | Some(value: T)

  datatype Result<+T> = Success(value: T) | Failure(error: Error)

  datatype Outcome = Pass | Fail(error: Error)
}
