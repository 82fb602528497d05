/** Session states and the frozen transition table. */
module Lifecycle {

  datatype SessionState =
    | Pending | Running | Pausing | Paused | Canceling | Completed | Failed | Canceled | Refused | Interrupted

  predicate IsTerminal(s: SessionState) {
    s in {Completed, Failed, Canceled, Refused}
  }

  function Successors(s: SessionState): set<SessionState> {
    match s
    case Pending => {Running, Canceling, Failed}
    case Running => {Pausing, Canceling, Completed, Failed, Canceled, Refused}
    case Pausing => {Paused, Canceling, Completed, Failed, Canceled, Refused}
    case Paused => {Pending, Canceling}
    case Canceling => {Completed, Failed, Canceled, Refused}
    case Completed => {}
    case Failed => {}
    case Canceled => {}
    case Refused => {}
    case Interrupted => {Pending, Canceling}
  }

  predicate Legal(current: SessionState, requested: SessionState) {
    requested in Successors(current)
  }
}
