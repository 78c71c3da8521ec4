/** What an observer of a serve process sees and demands: requests polled, replies sent, operations opened, begun,
    ended and reaped. */
module ServeProtocol {
  import opened Names
  import opened OperationResult

  datatype RequestKind = Probe | Status | Stop | Cancel | Execute

  /** One polled request. `generated` is the identifier made up for it when it brings none. */
  datatype Exchange = Exchange(connection: nat, requestId: string, kind: RequestKind, operationId: string, generated: string)
  {
    function Id(): string { if operationId == "" then generated else operationId }
  }

  datatype Report = Report(accepting: bool, active: map<string, bool>)

  datatype Reply = Reply(accepted: bool, operationId: string, exitCode: int, error: string, report: Option<Report>)

  function Accepted(id: string, exit: int): Reply { Reply(true, id, exit, "", None) }

  /** How a command body ends. */
  datatype Outcome = Returned(code: Code) | Threw

  datatype Event =
    | Polled(x: Exchange)
    | Answered(x: Exchange, reply: Reply)
    | Closing
    | CancelAsked(id: string)
    | AllCancelled
    | Opened(id: string, x: Exchange)
    | Began(id: string)
    | Ended(id: string, outcome: Outcome, exit: int)
    | Reaped(id: string, x: Exchange, reply: Reply)

  datatype Stage = NotBegun | Begun | Over(exit: int)

  datatype Seen = Seen(x: Exchange, cancelled: bool, stage: Stage)

  /** What the observer knows: everything polled so far, what of it is still unanswered, the operations still open,
      and which one is running. */
  datatype Monitor = Monitor(
    closing: bool,
    polled: multiset<Exchange>,
    waiting: multiset<Exchange>,
    active: map<string, Seen>,
    busy: Option<string>)

  const NEW_MONITOR := Monitor(false, multiset{}, multiset{}, map[], None)

  function AllAsked(active: map<string, Seen>): map<string, Seen> { map id | id in active :: active[id].(cancelled := true) }

  function Marks(active: map<string, Seen>): map<string, bool> { map id | id in active :: active[id].cancelled }

  /** The immediate reply a request is due, given what the observer saw. */
  predicate Right(m: Monitor, x: Exchange, r: Reply)
  {
    match x.kind
    case Probe => r == Accepted(x.operationId, 0)
    case Status => r == Accepted(x.operationId, 0).(report := Some(Report(!m.closing, Marks(m.active))))
    case Stop => r == Accepted(x.operationId, 0) && m.closing && m.active == AllAsked(m.active)
    case Cancel =>
      if x.operationId in m.active then r == Accepted(x.operationId, 0) && m.active[x.operationId].cancelled
      else r == Reply(false, x.operationId, 4, "operation_not_found", None)
    case Execute =>
      if m.closing then r == Reply(false, x.Id(), 5, "serve_stopping", None)
      else x.Id() in m.active && r == Reply(false, x.Id(), 5, "operation_id_conflict", None)
  }

  /** The exit code due for a command: 6 when its body threw, that of the code it returned otherwise, except that a
      success after a request to cancel counts as cancelled, 9. */
  predicate DueExit(outcome: Outcome, cancelled: bool, exit: int)
  {
    match outcome
    case Threw => exit == 6
    case Returned(code) =>
      if code == Success || code == NoChanges then exit == (if cancelled then 9 else 0) else exit == ExitCode(code)
  }

  /** One observed event; None is a violation of the protocol. */
  function Watch(m: Monitor, e: Event): Option<Monitor>
  {
    match e
    case Polled(x) => Some(m.(waiting := m.waiting + multiset{x}, polled := m.polled + multiset{x}))
    case Answered(x, r) =>
      if x in m.waiting && Right(m, x, r) then Some(m.(waiting := m.waiting - multiset{x})) else None
    case Closing => Some(m.(closing := true))
    case CancelAsked(id) =>
      if id in m.active then Some(m.(active := m.active[id := m.active[id].(cancelled := true)])) else None
    case AllCancelled => Some(m.(active := AllAsked(m.active)))
    case Opened(id, x) =>
      if m.closing || id in m.active || x !in m.waiting || x.kind != Execute || id != x.Id() then None
      else Some(m.(waiting := m.waiting - multiset{x}, active := m.active[id := Seen(x, false, NotBegun)]))
    case Began(id) =>
      if m.busy.Some? || id !in m.active || m.active[id].stage != NotBegun then None
      else Some(m.(busy := Some(id), active := m.active[id := m.active[id].(stage := Begun)]))
    case Ended(id, outcome, exit) =>
      if m.busy != Some(id) || id !in m.active || !DueExit(outcome, m.active[id].cancelled, exit) then None
      else Some(m.(busy := None, active := m.active[id := m.active[id].(stage := Over(exit))]))
    case Reaped(id, x, r) =>
      if id !in m.active || m.active[id].x != x || !m.active[id].stage.Over? || r != Accepted(id, m.active[id].stage.exit)
      then None
      else Some(m.(active := m.active - {id}))
  }

  function Watched(m: Monitor, log: seq<Event>): Option<Monitor>
    decreases log
  {
    if log == [] then Some(m)
    else
      var n := Watch(m, log[0]);
      if n.None? then None else Watched(n.value, log[1..])
  }

  lemma {:induction false} WatchedStep(m: Monitor, log: seq<Event>, e: Event)
    ensures Watched(m, log + [e]) == if Watched(m, log).None? then None else Watch(Watched(m, log).value, e)
    decreases log
  {
    if log == [] {
      assert [] + [e] == [e] && [e][1..] == [];
    } else {
      assert (log + [e])[1..] == log[1..] + [e];
      var n := Watch(m, log[0]);
      if n.Some? { WatchedStep(n.value, log[1..], e); }
    }
  }

  // ---- what every accepted log satisfies ----

  /** How often a request was polled. */
  function Polls(log: seq<Event>, x: Exchange): nat
    decreases log
  {
    if log == [] then 0 else (if log[0] == Polled(x) then 1 else 0) + Polls(log[1..], x)
  }

  /** The observer counts right. */
  lemma {:induction false} PolledCounts(m: Monitor, log: seq<Event>, x: Exchange)
    requires Watched(m, log).Some?
    ensures Watched(m, log).value.polled[x] == m.polled[x] + Polls(log, x)
    decreases log
  {
    if log != [] { PolledCounts(Watch(m, log[0]).value, log[1..], x); }
  }

  function Replies(log: seq<Event>, x: Exchange): nat
    decreases log
  {
    if log == [] then 0
    else (if (log[0].Answered? || log[0].Reaped?) && log[0].x == x then 1 else 0) + Replies(log[1..], x)
  }

  /** The open operations that stand for a request. */
  function OpenIn(active: map<string, Seen>, x: Exchange): set<string> { set id | id in active && active[id].x == x }

  function Owed(m: Monitor, x: Exchange): nat { m.waiting[x] + |OpenIn(m.active, x)| }

  lemma OpenedOwes(m: Monitor, id: string, y: Exchange, x: Exchange)
    requires Watch(m, Opened(id, y)).Some?
    ensures Owed(Watch(m, Opened(id, y)).value, x) == Owed(m, x)
  {
    OpenedJoins(m.active, id, y, x);
  }

  lemma OpenedJoins(active: map<string, Seen>, id: string, y: Exchange, x: Exchange)
    requires id !in active
    ensures var more := active[id := Seen(y, false, NotBegun)];
            |OpenIn(more, x)| == |OpenIn(active, x)| + if y == x then 1 else 0
  {
    var more := active[id := Seen(y, false, NotBegun)];
    assert OpenIn(more, x) == if y == x then OpenIn(active, x) + {id} else OpenIn(active, x);
  }

  lemma ReapedPays(m: Monitor, e: Event, x: Exchange)
    requires e.Reaped? && Watch(m, e).Some?
    ensures Owed(Watch(m, e).value, x) == Owed(m, x) - if e.x == x then 1 else 0
  {
    var n := Watch(m, e).value;
    if e.x == x {
      assert OpenIn(m.active, x) == OpenIn(n.active, x) + {e.id};
    } else {
      assert OpenIn(n.active, x) == OpenIn(m.active, x);
    }
  }

  lemma SameOpen(m: Monitor, n: Monitor, x: Exchange)
    requires m.active.Keys == n.active.Keys && forall id | id in m.active :: m.active[id].x == n.active[id].x
    ensures OpenIn(m.active, x) == OpenIn(n.active, x)
  {
  }

  lemma OwedStep(m: Monitor, e: Event, x: Exchange)
    requires Watch(m, e).Some?
    ensures Owed(Watch(m, e).value, x)
         == Owed(m, x) + (if e == Polled(x) then 1 else 0) - (if (e.Answered? || e.Reaped?) && e.x == x then 1 else 0)
  {
    match e
    case Opened(id, y) => OpenedOwes(m, id, y, x);
    case Reaped(_, _, _) => ReapedPays(m, e, x);
    case _ => SameOpen(m, Watch(m, e).value, x);
  }

  /** Every poll is answered once, except those still owed. */
  lemma {:induction false} OneReplyEach(m: Monitor, log: seq<Event>, x: Exchange)
    requires Watched(m, log).Some?
    ensures Owed(m, x) + Polls(log, x) == Replies(log, x) + Owed(Watched(m, log).value, x)
    decreases log
  {
    if log != [] {
      OwedStep(m, log[0], x);
      OneReplyEach(Watch(m, log[0]).value, log[1..], x);
    }
  }

  /** Once closing, always closing: no operation is opened after a stop. */
  lemma {:induction false} NothingOpensAfterClosing(m: Monitor, log: seq<Event>, i: nat, j: nat)
    requires Watched(m, log).Some? && i < j < |log| && log[i] == Closing
    ensures !log[j].Opened?
    decreases log
  {
    var n := Watch(m, log[0]).value;
    if i == 0 { ClosedOpensNothing(n, log[1..], j - 1); } else { NothingOpensAfterClosing(n, log[1..], i - 1, j - 1); }
  }

  lemma {:induction false} ClosedOpensNothing(m: Monitor, log: seq<Event>, j: nat)
    requires m.closing && Watched(m, log).Some? && j < |log|
    ensures !log[j].Opened?
    decreases log
  {
    if j > 0 { ClosedOpensNothing(Watch(m, log[0]).value, log[1..], j - 1); }
  }

  /** Two command bodies never overlap: between two beginnings the first one ends. */
  lemma {:induction false} BodiesNeverOverlap(m: Monitor, log: seq<Event>, i: nat, j: nat) returns (k: nat)
    requires Watched(m, log).Some? && i < j < |log| && log[i].Began? && log[j].Began?
    ensures i < k < j && log[k].Ended? && log[k].id == log[i].id
    decreases log
  {
    var n := Watch(m, log[0]).value;
    if i == 0 {
      k := BusyUntilEnded(n, log[1..], j - 1);
    } else {
      k := BodiesNeverOverlap(n, log[1..], i - 1, j - 1);
    }
    k := k + 1;
  }

  lemma {:induction false} BusyUntilEnded(m: Monitor, log: seq<Event>, j: nat) returns (k: nat)
    requires m.busy.Some? && Watched(m, log).Some? && j < |log| && log[j].Began?
    ensures k < j && log[k].Ended? && log[k].id == m.busy.value
    decreases log
  {
    if log[0].Ended? { return 0; }
    k := BusyUntilEnded(Watch(m, log[0]).value, log[1..], j - 1);
    k := k + 1;
  }

  /** An identifier is used again only after its first operation was answered. */
  lemma {:induction false} ActiveIdsDistinct(m: Monitor, log: seq<Event>, i: nat, j: nat) returns (k: nat)
    requires Watched(m, log).Some? && i < j < |log| && log[i].Opened? && log[j].Opened? && log[i].id == log[j].id
    ensures i < k < j && log[k].Reaped? && log[k].id == log[i].id
    decreases log
  {
    var n := Watch(m, log[0]).value;
    if i == 0 {
      k := ActiveUntilReaped(n, log[1..], log[i].id, j - 1);
    } else {
      k := ActiveIdsDistinct(n, log[1..], i - 1, j - 1);
    }
    k := k + 1;
  }

  lemma {:induction false} ActiveUntilReaped(m: Monitor, log: seq<Event>, id: string, j: nat) returns (k: nat)
    requires id in m.active && Watched(m, log).Some? && j < |log| && log[j].Opened? && log[j].id == id
    ensures k < j && log[k].Reaped? && log[k].id == id
    decreases log
  {
    if log[0].Reaped? && log[0].id == id { return 0; }
    k := ActiveUntilReaped(Watch(m, log[0]).value, log[1..], id, j - 1);
    k := k + 1;
  }

  /** A body that ends after its operation was asked to cancel never reports success. */
  lemma {:induction false} CancelledNeverSucceeds(m: Monitor, log: seq<Event>, i: nat, j: nat)
    requires Watched(m, log).Some? && i < j < |log| && log[i].CancelAsked? && log[j].Ended? && log[i].id == log[j].id
    requires forall k | i < k < j :: !(log[k].Reaped? && log[k].id == log[i].id)
    ensures log[j].exit != 0
    decreases log
  {
    var n := Watch(m, log[0]).value;
    if i == 0 {
      CancelledEndsBadly(n, log[1..], log[i].id, j - 1);
    } else {
      CancelledNeverSucceeds(n, log[1..], i - 1, j - 1);
    }
  }

  lemma StaysCancelled(m: Monitor, e: Event, id: string)
    requires id in m.active && m.active[id].cancelled && Watch(m, e).Some? && !(e.Reaped? && e.id == id)
    ensures id in Watch(m, e).value.active && Watch(m, e).value.active[id].cancelled
  {}

  lemma {:induction false} CancelledEndsBadly(m: Monitor, log: seq<Event>, id: string, j: nat)
    requires id in m.active && m.active[id].cancelled && Watched(m, log).Some?
    requires j < |log| && log[j].Ended? && log[j].id == id
    requires forall k | 0 <= k < j :: !(log[k].Reaped? && log[k].id == id)
    ensures log[j].exit != 0
    decreases log
  {
    if j > 0 {
      StaysCancelled(m, log[0], id);
      CancelledEndsBadly(Watch(m, log[0]).value, log[1..], id, j - 1);
    }
  }

  // ---- what a reaped reply says about the body ----

  /** Whether the operation last opened under an identifier was asked to cancel, by itself or with all others. */
  function AskedToCancel(log: seq<Event>, id: string): bool
    decreases |log|
  {
    if log == [] then false
    else
      var e := log[|log| - 1];
      if e.Opened? && e.id == id then false
      else e == CancelAsked(id) || e == AllCancelled || AskedToCancel(log[..|log| - 1], id)
  }

  lemma {:induction false} WatchedPrefix(m: Monitor, log: seq<Event>, i: nat)
    requires Watched(m, log).Some? && i < |log|
    ensures Watched(m, log[..i]).Some? && Watch(Watched(m, log[..i]).value, log[i]).Some?
    ensures Watched(m, log[..i + 1]) == Watch(Watched(m, log[..i]).value, log[i])
    decreases |log| - i
  {
    var front, e := log[..|log| - 1], log[|log| - 1];
    assert log == front + [e];
    WatchedStep(m, front, e);
    if i < |log| - 1 {
      WatchedPrefix(m, front, i);
      assert front[..i] == log[..i] && front[..i + 1] == log[..i + 1];
    } else {
      assert log[..i] == front && log[..i + 1] == log;
    }
  }

  lemma MarkStep(m: Monitor, e: Event, id: string)
    requires Watch(m, e).Some? && id in Watch(m, e).value.active
    ensures !(e.Opened? && e.id == id) ==> id in m.active
    ensures Watch(m, e).value.active[id].cancelled
         == if e.Opened? && e.id == id then false
            else e == CancelAsked(id) || e == AllCancelled || m.active[id].cancelled
  {}

  lemma AskedStep(front: seq<Event>, e: Event, id: string)
    ensures AskedToCancel(front + [e], id)
         == if e.Opened? && e.id == id then false else e == CancelAsked(id) || e == AllCancelled || AskedToCancel(front, id)
  {
    var log := front + [e];
    assert log[|log| - 1] == e && log[..|log| - 1] == front;
  }

  /** The observer's mark is what the log says. */
  lemma {:induction false} MarkIsAsked(log: seq<Event>, id: string)
    requires Watched(NEW_MONITOR, log).Some? && id in Watched(NEW_MONITOR, log).value.active
    ensures Watched(NEW_MONITOR, log).value.active[id].cancelled == AskedToCancel(log, id)
    decreases |log|
  {
    if log != [] {
      var front, e := log[..|log| - 1], log[|log| - 1];
      assert log == front + [e];
      WatchedStep(NEW_MONITOR, front, e);
      MarkStep(Watched(NEW_MONITOR, front).value, e, id);
      AskedStep(front, e, id);
      if id in Watched(NEW_MONITOR, front).value.active { MarkIsAsked(front, id); }
    }
  }

  predicate Concerns(e: Event, id: string) { (e.Opened? || e.Began? || e.Ended? || e.Reaped?) && e.id == id }

  lemma OverStep(m: Monitor, e: Event, id: string)
    requires Watch(m, e).Some? && id in Watch(m, e).value.active && Watch(m, e).value.active[id].stage.Over?
    ensures if e.Ended? && e.id == id then Watch(m, e).value.active[id].stage == Over(e.exit)
            else id in m.active && m.active[id].stage == Watch(m, e).value.active[id].stage && !Concerns(e, id)
  {}

  /** Of an operation whose body is over, the log holds its end, and nothing about it since. */
  lemma {:induction false} EndOf(log: seq<Event>, id: string) returns (i: nat)
    requires Watched(NEW_MONITOR, log).Some? && id in Watched(NEW_MONITOR, log).value.active
    requires Watched(NEW_MONITOR, log).value.active[id].stage.Over?
    ensures i < |log| && log[i].Ended? && log[i].id == id
    ensures Watched(NEW_MONITOR, log).value.active[id].stage.exit == log[i].exit
    ensures forall k | i < k < |log| :: !Concerns(log[k], id)
    decreases |log|
  {
    var front, e := log[..|log| - 1], log[|log| - 1];
    assert log == front + [e];
    WatchedStep(NEW_MONITOR, front, e);
    OverStep(Watched(NEW_MONITOR, front).value, e, id);
    if e.Ended? && e.id == id { return |log| - 1; }
    i := EndOf(front, id);
    forall k | i < k < |log| ensures !Concerns(log[k], id) { assert k < |front| ==> log[k] == front[k]; }
  }

  /** The reply a client gets for its command: exit code 0 exactly when the body returned a success and nobody had asked
      to cancel by then, 9 for a success after such a request, 6 for a body that threw, and otherwise the exit code,
      never 0, of what the body returned. */
  lemma ReplyTellsOutcome(log: seq<Event>, j: nat) returns (i: nat)
    requires Watched(NEW_MONITOR, log).Some? && j < |log| && log[j].Reaped?
    ensures i < j && log[i].Ended? && log[i].id == log[j].id
    ensures forall k | i < k < j :: !Concerns(log[k], log[j].id)
    ensures log[j].reply.accepted && log[j].reply.operationId == log[j].id
    ensures var exit, cancelled := log[j].reply.exitCode, AskedToCancel(log[..i], log[j].id);
      match log[i].outcome
      case Threw => exit == 6
      case Returned(code) =>
        && (exit == 0 <==> (code == Success || code == NoChanges) && !cancelled)
        && (code == Success || code == NoChanges ==> exit == if cancelled then 9 else 0)
        && (code != Success && code != NoChanges ==> exit == ExitCode(code))
  {
    var id := log[j].id;
    WatchedPrefix(NEW_MONITOR, log, j);
    i := EndOf(log[..j], id);
    assert log[..j][i] == log[i];
    forall k | i < k < j ensures !Concerns(log[k], id) { assert log[..j][k] == log[k]; }
    WatchedPrefix(NEW_MONITOR, log, i);
    MarkIsAsked(log[..i], id);
  }
}
