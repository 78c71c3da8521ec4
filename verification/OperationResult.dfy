/** The result codes every operation reports. */
module OperationResult {

  datatype Code =
    | Success | NoChanges | InvalidArguments | ProfileBusy | TargetNotFound | MigrationRequired | InvalidProfile
    | ToolUnavailable | BackupFailed | JobFailed | VerificationFailed | RestoreFailed | Cancelled | PartialSuccess

  predicate IsSuccessful(c: Code) { c == Success || c == NoChanges }

  function ExitCode(c: Code): (exit: int)
    ensures exit == 0 <==> IsSuccessful(c)
    ensures exit == 2 <==> c == InvalidArguments
    ensures exit == 3 <==> c == ProfileBusy
    ensures exit == 4 <==> c == TargetNotFound
    ensures exit == 5 <==> c == MigrationRequired || c == InvalidProfile
    ensures exit == 6 <==> c == BackupFailed || c == JobFailed || c == VerificationFailed
    ensures exit == 7 <==> c == RestoreFailed
    ensures exit == 8 <==> c == ToolUnavailable
    ensures exit == 9 <==> c == Cancelled
    ensures exit == 10 <==> c == PartialSuccess
  {
    match c
    case Success => 0
    case NoChanges => 0
    case InvalidArguments => 2
    case ProfileBusy => 3
    case TargetNotFound => 4
    case MigrationRequired => 5
    case InvalidProfile => 5
    case BackupFailed => 6
    case JobFailed => 6
    case VerificationFailed => 6
    case RestoreFailed => 7
    case ToolUnavailable => 8
    case Cancelled => 9
    case PartialSuccess => 10
  }
}
