/** The job state machine: the constant edge table and its lookup. */
module JobTransitions {
  import opened Dds

  predicate Allowed(from: JobStatus, to: JobStatus) {
    match from
    case JobPending => to == JobRunning || to == JobCleaning
    case JobRunning => to == JobCleaning
    case JobCleaning => to == JobCompleted || to == JobFailed || to == JobCancelled
    case JobCompleted => false
    case JobFailed => false
    case JobCancelled => false
  }

  predicate Terminal(s: JobStatus) {
    s == JobCompleted || s == JobFailed || s == JobCancelled
  }

  /** A dead job takes no further work: Cleaning or a terminal state. */
  predicate Dead(s: JobStatus) {
    s != JobPending && s != JobRunning
  }
}
