/** Outcome types shared by the loader model: the Python exceptions the loader
    can raise become `Err` values instead of preconditions. */
module Results {

  datatype Option<+T> = None | Some(value: T)

  /** The failures of the loader, named by their cause. */
  datatype Error =
    | SampleSizeInvalid   // random.sample with k < 0 or k larger than the population (ValueError)
    | IndexOutOfRange     // list indexing outside [-n, n) (IndexError)
    | EmptyRandomRange    // random.randint(a, b) with b < a (ValueError)
    | EmptyStack          // np.stack of an empty list (ValueError)
    | ShapeMismatch       // np.stack of arrays whose shapes differ (ValueError)
    | EmptyResize         // cv2.resize to a size with a zero side (cv2.error)

  datatype Result<+T> = Ok(value: T) | Err(error: Error)
}
