/** The parts of a thrown JavaScript error that the classifiers look at. */
module JsErrors {
  import opened Wrappers

  /** `name`, `message` and `stack` are the empty string when the error has none
      (the classifiers read them through `|| ''`); `status` is the HTTP status
      an SDK attaches to API errors, when there is one. */
  datatype ErrorInfo = ErrorInfo(name: string, message: string, stack: string, status: Option<int>)

  /** `error.status` is truthy: present and not 0. */
  predicate HasStatus(e: ErrorInfo) {
    e.status.Some? && e.status.value != 0
  }

  /** The text `(Error ID: <id>)` that closes every client and stream message. */
  function ErrorIdTag(errorId: string): string {
    "(Error ID: " + errorId + ")"
  }
}
