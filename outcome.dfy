/** The exceptions the source throws (enum values of each class's ERROR) become
    an explicit result: success, or the error that would have been thrown. */
module Outcomes {

  datatype Outcome<E> = Pass | Fail(error: E)
}
