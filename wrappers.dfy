/** Small datatypes shared by the whole model. */
module Wrappers {

  /** Python's `Optional[...]`: `None` or a value. */
  datatype Option<+T> = None | Some(value: T)

  /** A computation that either produced a value or raised. */
  datatype Result<+R, +E> = Success(value: R) | Failure(error: E)

  /** A key of a keyword-argument dictionary that is either missing or present. */
  datatype Field<+T> = Absent | Given(value: T)

  /** The outcome of a call into a collaborator the model does not see (a language model, a
      prompt chain): the text it returned, or an exception. */
  datatype Reply = Ok(text: string) | Fail
}
