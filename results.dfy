/** Error values and failure-carrying results shared by the simulator's modules.
    Each error stands for the Python exception the original code raises. */
module Results {

  datatype Error =
    | InvalidDistribution  // ValueError from np.random.choice: bad prob vector or empty sample space
    | MissingData          // AttributeError: get_array/get_cum_array before any run()
    | ZeroDivision         // ZeroDivisionError in int(simulations / on_cpu)
    | NotFound             // FileNotFoundError from os.remove or open
    | Unreadable           // pickle.load refuses the file (empty, truncated or not a pickle)
    | NotReadable          // io.UnsupportedOperation: reading from a file opened for writing
    | EmptyDataset         // ValueError: np.concatenate of an empty list
    | ShapeMismatch        // ValueError: np.concatenate of arrays whose shapes do not line up

  datatype Option<T> = None | Some(value: T)

  /** The value a call returns, or the exception it raises. */
  datatype Result<T> = Ok(value: T) | Fail(error: Error)

  /** A call that returns nothing (Python's None) or raises. */
  datatype Outcome = Pass | Failed(error: Error)
}
