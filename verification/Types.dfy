/** Vocabulary shared by every module of the model. */
module Types {

  datatype Option<+T> = None | Some(value: T)

  /** ModelArts task ids and OBS object names are plain strings. */
  type TaskId = string
  type Path = string

  /** Task states reported to the cloud. */
  datatype Status = PENDING | RUNNING | SUCCEEDED | FAILED

  predicate Terminal(status: Status) {
    status == SUCCEEDED || status == FAILED
  }

  /** Terminal statuses modelbox reports for one of its tasks. */
  datatype Kind = ABNORMAL | STOPPED | FINISHED

  /** What the ModelArts task becomes when a modelbox task ends this way. */
  function StatusOf(kind: Kind): Status {
    match kind
    case ABNORMAL => FAILED
    case STOPPED => SUCCEEDED
    case FINISHED => SUCCEEDED
  }

  /** HTTP answers of the task interface. */
  datatype Http = OK200 | CREATED201 | ACCEPTED202 | BAD400 | MISSING404 | ERROR500
}
