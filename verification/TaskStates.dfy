/** The states of a task of the runtime writer. */
module TaskStates {
  datatype State = QUEUED | RUNNING | SUCCEEDED | FAILED | CANCELLED | UNKNOWN | NOT_APPLIED
}
