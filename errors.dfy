/** The error conditions raised by the strain toolkit and the elastic-constant script,
    and the Success/Failure wrapper that carries them instead of an exception. */
module Errors {

  datatype Error =
    | NotThreeByThree        // ValueError: the input matrix is not 3x3
    | ShapeMismatch          // np.dot: the cell does not have three rows
    | InvalidAxis            // ValueError: strain axis not in {0, 1, 2}
    | NegativeAbsoluteValue  // ValueError: maximum strain below zero
    | ZeroStep               // np.arange with a zero step
    | InvalidAxisSelector    // ValueError: AXIS not in {0, 1, 10}

  datatype Result<T> = Success(value: T) | Failure(error: Error)
}
