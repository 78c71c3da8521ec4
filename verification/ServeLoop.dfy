/** The serve loop: a main thread polls, answers and reaps; worker threads run one command body at a time. */
module ServeLoop {
  import opened Names
  import opened OperationResult
  import opened ServeProtocol

  datatype Phase = Waiting | Running | Finished(exit: int) | Completed(exit: int)

  datatype Operation = Operation(exchange: Exchange, cancelled: bool, phase: Phase)

  datatype WorkerStep = Acquire(id: string) | Finish(id: string, outcome: Outcome) | Publish(id: string)

  type Operations = map<string, Operation>

  /** `holder` is the operation whose worker holds the execution mutex. */
  datatype Server = Server(operations: Operations, stopping: bool, holder: Option<string>, log: seq<Event>)
  {
    function Log(e: Event): Server { this.(log := log + [e]) }

    function With(id: string, op: Operation): Server { this.(operations := operations[id := op]) }
  }

  const NEW_SERVER := Server(map[], false, None, [])

  function CancelEach(ops: Operations): Operations { map id | id in ops :: ops[id].(cancelled := true) }

  function CancelMarks(ops: Operations): map<string, bool> { map id | id in ops :: ops[id].cancelled }

  function CancelOne(s: Server, id: string): Server
    requires id in s.operations
  {
    s.With(id, s.operations[id].(cancelled := true)).Log(CancelAsked(id))
  }

  function Signalled(s: Server): Server { s.(stopping := true).Log(Closing) }

  function CancelledAll(s: Server): Server { s.(operations := CancelEach(s.operations)).Log(AllCancelled) }

  function StatusReply(s: Server, x: Exchange): Reply
  {
    Accepted(x.operationId, 0).(report := Some(Report(!s.stopping, CancelMarks(s.operations))))
  }

  /** The main thread's answer to one request. */
  function Handled(s: Server, x: Exchange): Server
  {
    match x.kind
    case Probe => s.Log(Answered(x, Accepted(x.operationId, 0)))
    case Status => s.Log(Answered(x, StatusReply(s, x)))
    case Stop => CancelledAll(Signalled(s)).Log(Answered(x, Accepted(x.operationId, 0)))
    case Cancel =>
      if x.operationId in s.operations then CancelOne(s, x.operationId).Log(Answered(x, Accepted(x.operationId, 0)))
      else s.Log(Answered(x, Reply(false, x.operationId, 4, "operation_not_found", None)))
    case Execute =>
      var id := x.Id();
      if s.stopping then s.Log(Answered(x, Reply(false, id, 5, "serve_stopping", None)))
      else if id in s.operations then s.Log(Answered(x, Reply(false, id, 5, "operation_id_conflict", None)))
      else s.With(id, Operation(x, false, Waiting)).Log(Opened(id, x))
  }

  function FinalCode(op: Operation, outcome: Outcome): Code
  {
    match outcome
    case Returned(code) => if op.cancelled && IsSuccessful(code) then Cancelled else code
    case Threw => JobFailed
  }

  /** One step of a worker thread; a step that its thread cannot take changes nothing. */
  function Stepped(s: Server, w: WorkerStep): Server
  {
    if w.id !in s.operations then s
    else
      var id, op := w.id, s.operations[w.id];
      match w
      case Acquire(_) =>
        if op.phase == Waiting && s.holder.None? then s.With(id, op.(phase := Running)).(holder := Some(id)).Log(Began(id))
        else s
      case Finish(_, outcome) =>
        if op.phase == Running then
          var exit := ExitCode(FinalCode(op, outcome));
          s.With(id, op.(phase := Finished(exit))).(holder := None).Log(Ended(id, outcome, exit))
        else s
      case Publish(_) =>
        if op.phase.Finished? then s.With(id, op.(phase := Completed(op.phase.exit))) else s
  }

  function Reap(s: Server, id: string): Server
  {
    if id in s.operations && s.operations[id].phase.Completed? then
      var op := s.operations[id];
      s.(operations := s.operations - {id}).Log(Reaped(id, op.exchange, Accepted(id, op.phase.exit)))
    else s
  }

  // ---- every step keeps to the protocol ----

  function StageOf(p: Phase): Stage
  {
    match p
    case Waiting => NotBegun
    case Running => Begun
    case Finished(exit) => Over(exit)
    case Completed(exit) => Over(exit)
  }

  function SeenOf(op: Operation): Seen { Seen(op.exchange, op.cancelled, StageOf(op.phase)) }

  function SeenAll(ops: Operations): map<string, Seen> { map id | id in ops :: SeenOf(ops[id]) }

  /** The server as its observer should see it. */
  function Picture(s: Server, waiting: multiset<Exchange>, total: multiset<Exchange>): Monitor
  {
    Monitor(s.stopping, total, waiting, SeenAll(s.operations), s.holder)
  }

  ghost predicate LockHeld(ops: Operations, holder: Option<string>)
  {
    && (forall id | id in ops :: ops[id].phase == Running <==> holder == Some(id))
    && (holder.Some? ==> holder.value in ops)
  }

  /** The log is accepted, and leaves the observer with a true picture: `waiting` is still unanswered of the `total`
      polled. */
  ghost predicate Follows(s: Server, waiting: multiset<Exchange>, total: multiset<Exchange>)
  {
    Watched(NEW_MONITOR, s.log) == Some(Picture(s, waiting, total)) && LockHeld(s.operations, s.holder)
  }

  /** A step follows the protocol when the observer's picture moves along with it. */
  lemma StepFollows(s: Server, t: Server, e: Event, before: multiset<Exchange>, after: multiset<Exchange>,
                    total: multiset<Exchange>)
    requires Follows(s, before, total) && t.log == s.log + [e] && LockHeld(t.operations, t.holder)
    requires Watch(Picture(s, before, total), e) == Some(Picture(t, after, total))
    ensures Follows(t, after, total)
  {
    WatchedStep(NEW_MONITOR, s.log, e);
  }

  lemma SeenUpdate(ops: Operations, id: string, op: Operation)
    ensures SeenAll(ops[id := op]) == SeenAll(ops)[id := SeenOf(op)]
  {
  }

  lemma SeenCancelled(ops: Operations)
    ensures SeenAll(CancelEach(ops)) == AllAsked(SeenAll(ops)) && Marks(SeenAll(ops)) == CancelMarks(ops)
    ensures AllAsked(AllAsked(SeenAll(ops))) == AllAsked(SeenAll(ops))
  {
  }

  lemma PollFollows(s: Server, x: Exchange, waiting: multiset<Exchange>, total: multiset<Exchange>)
    requires Follows(s, waiting, total)
    ensures Follows(s.Log(Polled(x)), waiting + multiset{x}, total + multiset{x})
  {
    WatchedStep(NEW_MONITOR, s.log, Polled(x));
  }

  /** A reply that needs no change of state. */
  lemma AnswerFollows(s: Server, x: Exchange, reply: Reply, waiting: multiset<Exchange>, total: multiset<Exchange>)
    requires Follows(s, waiting, total) && x in waiting && Right(Picture(s, waiting, total), x, reply)
    ensures Follows(s.Log(Answered(x, reply)), waiting - multiset{x}, total)
  {
    StepFollows(s, s.Log(Answered(x, reply)), Answered(x, reply), waiting, waiting - multiset{x}, total);
  }

  lemma CancelAllFollows(s: Server, waiting: multiset<Exchange>, total: multiset<Exchange>)
    requires Follows(s, waiting, total)
    ensures Follows(CancelledAll(s), waiting, total)
  {
    SeenCancelled(s.operations);
    StepFollows(s, CancelledAll(s), AllCancelled, waiting, waiting, total);
  }

  lemma SignalFollows(s: Server, waiting: multiset<Exchange>, total: multiset<Exchange>)
    requires Follows(s, waiting, total)
    ensures Follows(Signalled(s), waiting, total)
  {
    StepFollows(s, Signalled(s), Closing, waiting, waiting, total);
  }

  lemma CancelFollows(s: Server, id: string, waiting: multiset<Exchange>, total: multiset<Exchange>)
    requires Follows(s, waiting, total) && id in s.operations
    ensures Follows(CancelOne(s, id), waiting, total)
  {
    SeenUpdate(s.operations, id, s.operations[id].(cancelled := true));
    StepFollows(s, CancelOne(s, id), CancelAsked(id), waiting, waiting, total);
  }

  lemma OpenFollows(s: Server, x: Exchange, waiting: multiset<Exchange>, total: multiset<Exchange>)
    requires Follows(s, waiting, total) && x in waiting && x.kind == Execute && !s.stopping && x.Id() !in s.operations
    ensures Follows(Handled(s, x), waiting - multiset{x}, total)
  {
    SeenUpdate(s.operations, x.Id(), Operation(x, false, Waiting));
    StepFollows(s, Handled(s, x), Opened(x.Id(), x), waiting, waiting - multiset{x}, total);
  }

  lemma StopFollows(s: Server, x: Exchange, waiting: multiset<Exchange>, total: multiset<Exchange>)
    requires Follows(s, waiting, total) && x in waiting && x.kind == Stop
    ensures Follows(Handled(s, x), waiting - multiset{x}, total)
  {
    SignalFollows(s, waiting, total);
    CancelAllFollows(Signalled(s), waiting, total);
    SeenCancelled(s.operations);
    AnswerFollows(CancelledAll(Signalled(s)), x, Accepted(x.operationId, 0), waiting, total);
  }

  lemma CancelRequestFollows(s: Server, x: Exchange, waiting: multiset<Exchange>, total: multiset<Exchange>)
    requires Follows(s, waiting, total) && x in waiting && x.kind == Cancel
    ensures Follows(Handled(s, x), waiting - multiset{x}, total)
  {
    var id := x.operationId;
    if id in s.operations {
      CancelFollows(s, id, waiting, total);
      AnswerFollows(CancelOne(s, id), x, Accepted(id, 0), waiting, total);
    } else {
      AnswerFollows(s, x, Reply(false, id, 4, "operation_not_found", None), waiting, total);
    }
  }

  /** Handling one polled request settles exactly that request. */
  lemma HandleFollows(s: Server, x: Exchange, waiting: multiset<Exchange>, total: multiset<Exchange>)
    requires Follows(s, waiting, total) && x in waiting
    ensures Follows(Handled(s, x), waiting - multiset{x}, total)
  {
    match x.kind
    case Probe => AnswerFollows(s, x, Accepted(x.operationId, 0), waiting, total);
    case Status =>
      SeenCancelled(s.operations);
      AnswerFollows(s, x, StatusReply(s, x), waiting, total);
    case Stop => StopFollows(s, x, waiting, total);
    case Cancel => CancelRequestFollows(s, x, waiting, total);
    case Execute =>
      if s.stopping {
        AnswerFollows(s, x, Reply(false, x.Id(), 5, "serve_stopping", None), waiting, total);
      } else if x.Id() in s.operations {
        AnswerFollows(s, x, Reply(false, x.Id(), 5, "operation_id_conflict", None), waiting, total);
      } else {
        OpenFollows(s, x, waiting, total);
      }
  }

  lemma AcquireFollows(s: Server, id: string, waiting: multiset<Exchange>, total: multiset<Exchange>)
    requires Follows(s, waiting, total)
    ensures Follows(Stepped(s, Acquire(id)), waiting, total)
  {
    var t := Stepped(s, Acquire(id));
    if t != s {
      SeenUpdate(s.operations, id, t.operations[id]);
      StepFollows(s, t, Began(id), waiting, waiting, total);
    }
  }

  lemma FinishFollows(s: Server, id: string, outcome: Outcome, waiting: multiset<Exchange>, total: multiset<Exchange>)
    requires Follows(s, waiting, total)
    ensures Follows(Stepped(s, Finish(id, outcome)), waiting, total)
  {
    var t := Stepped(s, Finish(id, outcome));
    if t != s {
      var op := s.operations[id];
      SeenUpdate(s.operations, id, t.operations[id]);
      StepFollows(s, t, Ended(id, outcome, ExitCode(FinalCode(op, outcome))), waiting, waiting, total);
    }
  }

  lemma PublishFollows(s: Server, id: string, waiting: multiset<Exchange>, total: multiset<Exchange>)
    requires Follows(s, waiting, total)
    ensures Follows(Stepped(s, Publish(id)), waiting, total)
  {
    var t := Stepped(s, Publish(id));
    if t != s {
      SeenUpdate(s.operations, id, t.operations[id]);
      assert SeenAll(s.operations)[id := SeenOf(s.operations[id])] == SeenAll(s.operations);
    }
  }

  /** So does any step of any worker. */
  lemma WorkerFollows(s: Server, w: WorkerStep, waiting: multiset<Exchange>, total: multiset<Exchange>)
    requires Follows(s, waiting, total)
    ensures Follows(Stepped(s, w), waiting, total)
  {
    match w
    case Acquire(id) => AcquireFollows(s, id, waiting, total);
    case Finish(id, outcome) => FinishFollows(s, id, outcome, waiting, total);
    case Publish(id) => PublishFollows(s, id, waiting, total);
  }

  function PolledEvents(polled: seq<Exchange>): seq<Event>
  {
    if polled == [] then [] else PolledEvents(polled[..|polled| - 1]) + [Polled(polled[|polled| - 1])]
  }

  lemma {:induction false} PollAllFollows(s: Server, polled: seq<Exchange>, total: multiset<Exchange>)
    requires Follows(s, multiset{}, total)
    ensures Follows(s.(log := s.log + PolledEvents(polled)), multiset(polled), total + multiset(polled))
  {
    if polled == [] {
      assert s.log + [] == s.log && total + multiset(polled) == total;
    } else {
      var front, last := polled[..|polled| - 1], polled[|polled| - 1];
      assert polled == front + [last];
      PollAllFollows(s, front, total);
      var mid := s.(log := s.log + PolledEvents(front));
      PollFollows(mid, last, multiset(front), total + multiset(front));
      PolledEventsLast(s.log, polled);
      assert total + multiset(front) + multiset{last} == total + multiset(polled);
    }
  }

  lemma PolledEventsLast(log: seq<Event>, polled: seq<Exchange>)
    requires polled != []
    ensures log + PolledEvents(polled)
         == log + PolledEvents(polled[..|polled| - 1]) + [Polled(polled[|polled| - 1])]
  {
    AppendAssociates(log, PolledEvents(polled[..|polled| - 1]), [Polled(polled[|polled| - 1])]);
  }

  lemma AppendAssociates(a: seq<Event>, b: seq<Event>, c: seq<Event>)
    ensures a + (b + c) == a + b + c
  {
  }

  /** The log holds exactly the polls, and owes exactly what the operations stand for. */
  lemma Settlement(s: Server, total: multiset<Exchange>)
    requires Follows(s, multiset{}, total)
    ensures forall x: Exchange :: Polls(s.log, x) == total[x]
    ensures forall x: Exchange :: total[x] == Replies(s.log, x) + Owed(Picture(s, multiset{}, total), x)
    ensures s.operations == map[] ==> forall x: Exchange :: total[x] == Replies(s.log, x)
  {
    forall x: Exchange
      ensures Polls(s.log, x) == total[x]
      ensures total[x] == Replies(s.log, x) + Owed(Picture(s, multiset{}, total), x)
      ensures s.operations == map[] ==> Owed(Picture(s, multiset{}, total), x) == 0
    {
      PolledCounts(NEW_MONITOR, s.log, x);
      OneReplyEach(NEW_MONITOR, s.log, x);
      assert OpenIn(NEW_MONITOR.active, x) == {};
      assert s.operations == map[] ==> OpenIn(SeenAll(s.operations), x) == {};
    }
  }

  /** Workers neither open nor close operations, cancel none, and never take back a completion. */
  ghost predicate WorkersOnly(a: Operations, b: Operations)
  {
    && a.Keys == b.Keys
    && forall id | id in a :: b[id].cancelled == a[id].cancelled && (a[id].phase.Completed? ==> b[id].phase.Completed?)
  }

  lemma WorkerKeeps(s: Server, w: WorkerStep)
    ensures WorkersOnly(s.operations, Stepped(s, w).operations) && Stepped(s, w).stopping == s.stopping
  {
  }

  lemma WorkersTransitive(a: Operations, b: Operations, c: Operations)
    requires WorkersOnly(a, b) && WorkersOnly(b, c)
    ensures WorkersOnly(a, c)
  {
  }

  ghost predicate AllCancelling(ops: Operations) { forall id | id in ops :: ops[id].cancelled }

  /** How far reaping has come: nothing new, no mark changed, and none of `done` that was complete is left. */
  ghost predicate Reaping(a: Operations, b: Operations, done: set<string>)
  {
    && b.Keys <= a.Keys
    && forall id | id in b ::
         && b[id].cancelled == a[id].cancelled
         && (a[id].phase.Completed? ==> b[id].phase.Completed? && id !in done)
  }

  lemma ReapingStep(a: Operations, b: Operations, c: Operations, done: set<string>, id: string)
    requires Reaping(a, b, done) && Reaping(b, c, {id})
    ensures Reaping(a, c, done + {id})
  {
  }

  lemma HandleKeeps(s: Server, x: Exchange)
    ensures s.stopping ==> Handled(s, x).stopping && Handled(s, x).operations.Keys == s.operations.Keys
    ensures Handled(s, x).stopping && (s.stopping ==> AllCancelling(s.operations)) ==> AllCancelling(Handled(s, x).operations)
  {
  }

  lemma ReapFollows(s: Server, id: string, waiting: multiset<Exchange>, total: multiset<Exchange>)
    requires Follows(s, waiting, total)
    ensures Follows(Reap(s, id), waiting, total)
  {
    var t := Reap(s, id);
    if t != s {
      var op := s.operations[id];
      assert SeenAll(t.operations) == SeenAll(s.operations) - {id};
      StepFollows(s, t, Reaped(id, op.exchange, Accepted(id, op.phase.exit)), waiting, waiting, total);
    }
  }

  // ---- the loop itself ----

  /** What happens outside the main thread: which worker steps fall between its n-th and next action. */
  type Schedule = nat -> seq<WorkerStep>

  /** One turn of the loop: whether a termination signal came, and what was polled. */
  datatype Round = Round(signal: bool, polled: seq<Exchange>)

  /** Everything the rounds bring, as often as they bring it. */
  function AllPolled(rounds: seq<Round>): multiset<Exchange>
  {
    if rounds == [] then multiset{}
    else AllPolled(rounds[..|rounds| - 1]) + multiset(rounds[|rounds| - 1].polled)
  }

  class Loop {
    var operations: Operations
    var stopping: bool
    var holder: Option<string>
    var log: seq<Event>
    var clock: nat
    const schedule: Schedule

    ghost function Model(): Server
      reads this
    {
      Server(operations, stopping, holder, log)
    }

    constructor (schedule: Schedule)
      ensures Model() == NEW_SERVER
    {
      this.schedule := schedule;
      operations, stopping, holder, log, clock := map[], false, None, [], 0;
    }

    method CancelOperations()
      modifies this`operations, this`log
      ensures Model() == CancelledAll(old(Model()))
    {
      var left := operations.Keys;
      while left != {}
        invariant operations.Keys == old(operations).Keys && left <= operations.Keys && log == old(log)
        invariant forall id | id in operations ::
                    operations[id] == if id in left then old(operations)[id] else old(operations)[id].(cancelled := true)
        decreases |left|
      {
        var id :| id in left;
        operations := operations[id := operations[id].(cancelled := true)];
        left := left - {id};
      }
      assert operations == CancelEach(old(operations));
      log := log + [AllCancelled];
    }

    method Describe() returns (active: map<string, bool>)
      ensures active == CancelMarks(operations)
    {
      active := map[];
      var left := operations.Keys;
      while left != {}
        invariant left <= operations.Keys && active.Keys == operations.Keys - left
        invariant forall id | id in active :: active[id] == operations[id].cancelled
        decreases |left|
      {
        var id :| id in left;
        active := active[id := operations[id].cancelled];
        left := left - {id};
      }
    }

    method Send(x: Exchange, reply: Reply)
      modifies this`log
      ensures log == old(log) + [Answered(x, reply)]
    {
      log := log + [Answered(x, reply)];
    }

    method Handle(x: Exchange)
      modifies this`operations, this`stopping, this`log
      ensures Model() == Handled(old(Model()), x)
    {
      var response := Reply(false, x.operationId, 5, "", None);
      if x.kind == Probe {
        Send(x, response.(accepted := true, exitCode := 0));
        return;
      }
      if x.kind == Status {
        var active := Describe();
        Send(x, response.(accepted := true, exitCode := 0, report := Some(Report(!stopping, active))));
        return;
      }
      if x.kind == Stop {
        stopping, log := true, log + [Closing];
        CancelOperations();
        Send(x, response.(accepted := true, exitCode := 0));
        return;
      }
      if x.kind == Cancel {
        if x.operationId in operations {
          operations := operations[x.operationId := operations[x.operationId].(cancelled := true)];
          log := log + [CancelAsked(x.operationId)];
          Send(x, response.(accepted := true, exitCode := 0));
        } else {
          Send(x, response.(accepted := false, exitCode := 4, error := "operation_not_found"));
        }
        return;
      }
      var id := if x.operationId == "" then x.generated else x.operationId;
      if stopping || id in operations {
        Send(x, response.(operationId := id, error := if stopping then "serve_stopping" else "operation_id_conflict"));
        return;
      }
      operations := operations[id := Operation(x, false, Waiting)];
      log := log + [Opened(id, x)];
    }

    /** The worker steps that fall here. */
    method Interleave(ghost waiting: multiset<Exchange>, ghost total: multiset<Exchange>)
      requires Follows(Model(), waiting, total)
      modifies this
      ensures Follows(Model(), waiting, total) && stopping == old(stopping)
      ensures WorkersOnly(old(operations), operations)
    {
      var steps := schedule(clock);
      clock := clock + 1;
      for i := 0 to |steps|
        invariant Follows(Model(), waiting, total) && stopping == old(stopping)
        invariant WorkersOnly(old(operations), operations)
      {
        ghost var before := Model();
        Work(steps[i]);
        WorkerFollows(before, steps[i], waiting, total);
        WorkerKeeps(before, steps[i]);
        WorkersTransitive(old(operations), before.operations, operations);
      }
    }

    method Work(w: WorkerStep)
      modifies this`operations, this`holder, this`log
      ensures Model() == Stepped(old(Model()), w)
    {
      if w.id !in operations { return; }
      var op := operations[w.id];
      match w
      case Acquire(id) =>
        if op.phase == Waiting && holder.None? {
          holder, operations, log := Some(id), operations[id := op.(phase := Running)], log + [Began(id)];
        }
      case Finish(id, outcome) =>
        if op.phase == Running {
          var code := JobFailed;
          if outcome.Returned? {
            code := outcome.code;
            if op.cancelled && IsSuccessful(code) { code := Cancelled; }
          }
          var exit := ExitCode(code);
          holder, operations, log := None, operations[id := op.(phase := Finished(exit))], log + [Ended(id, outcome, exit)];
        }
      case Publish(id) =>
        if op.phase.Finished? { operations := operations[id := op.(phase := Completed(op.phase.exit))]; }
    }

    method Poll(polled: seq<Exchange>, ghost total: multiset<Exchange>)
      requires Follows(Model(), multiset{}, total)
      modifies this`log
      ensures Follows(Model(), multiset(polled), total + multiset(polled))
    {
      PollAllFollows(Model(), polled, total);
      log := log + PolledEvents(polled);
    }

    /** Polls one batch, then answers it request by request while the workers go on. */
    method PollAndHandle(polled: seq<Exchange>, ghost before: multiset<Exchange>)
      requires Follows(Model(), multiset{}, before)
      modifies this
      ensures Follows(Model(), multiset{}, before + multiset(polled)) && (old(stopping) ==> stopping)
      ensures stopping && !old(stopping) ==> AllCancelling(operations)
      ensures old(stopping) ==> operations.Keys == old(operations).Keys
    {
      Poll(polled, before);
      ghost var total := before + multiset(polled);
      assert polled[0..] == polled;
      for i := 0 to |polled|
        invariant Follows(Model(), multiset(polled[i..]), total) && (old(stopping) ==> stopping)
        invariant stopping && !old(stopping) ==> AllCancelling(operations)
        invariant old(stopping) ==> operations.Keys == old(operations).Keys
      {
        HandleNext(polled[i], multiset(polled[i + 1..]), polled[i..], total);
      }
    }

    method HandleNext(x: Exchange, ghost rest: multiset<Exchange>, ghost todo: seq<Exchange>, ghost total: multiset<Exchange>)
      requires todo != [] && x == todo[0] && rest == multiset(todo[1..])
      requires Follows(Model(), multiset(todo), total)
      modifies this
      ensures Follows(Model(), rest, total) && (old(stopping) ==> stopping && operations.Keys == old(operations).Keys)
      ensures stopping && (old(stopping) ==> AllCancelling(old(operations))) ==> AllCancelling(operations)
    {
      assert todo == [x] + todo[1..];
      Interleave(multiset(todo), total);
      HandleFollows(Model(), x, multiset(todo), total);
      HandleKeeps(Model(), x);
      assert multiset(todo) - multiset{x} == rest;
      Handle(x);
    }

    method ReapOne(id: string, ghost total: multiset<Exchange>)
      requires Follows(Model(), multiset{}, total)
      modifies this
      ensures Follows(Model(), multiset{}, total) && stopping == old(stopping)
      ensures Reaping(old(operations), operations, {id}) && old(operations).Keys - {id} <= operations.Keys
    {
      Interleave(multiset{}, total);
      ReapFollows(Model(), id, multiset{}, total);
      if id in operations && operations[id].phase.Completed? {
        var op := operations[id];
        operations, log := operations - {id}, log + [Reaped(id, op.exchange, Accepted(id, op.phase.exit))];
      }
    }

    /** Answers and removes every operation whose worker was done before. */
    method ReapCompleted(ghost total: multiset<Exchange>)
      requires Follows(Model(), multiset{}, total)
      modifies this
      ensures Follows(Model(), multiset{}, total) && stopping == old(stopping)
      ensures operations.Keys <= old(operations).Keys
      ensures forall id | id in operations ::
                operations[id].cancelled == old(operations)[id].cancelled && !old(operations)[id].phase.Completed?
    {
      var left := operations.Keys;
      while left != {}
        invariant left <= old(operations).Keys
        invariant Follows(Model(), multiset{}, total) && stopping == old(stopping)
        invariant Reaping(old(operations), operations, old(operations).Keys - left)
        decreases |left|
      {
        var id :| id in left;
        ghost var before := operations;
        ReapOne(id, total);
        ReapingStep(old(operations), before, operations, old(operations).Keys - left, id);
        left := left - {id};
        assert old(operations).Keys - left == old(operations).Keys - (left + {id}) + {id};
      }
    }

    /** One turn of the loop. */
    method Turn(round: Round, ghost before: multiset<Exchange>)
      requires Follows(Model(), multiset{}, before) && (stopping ==> AllCancelling(operations))
      modifies this
      ensures Follows(Model(), multiset{}, before + multiset(round.polled)) && (stopping ==> AllCancelling(operations))
      ensures old(stopping) || round.signal ==> stopping
    {
      ghost var total := before + multiset(round.polled);
      if round.signal {
        SignalFollows(Model(), multiset{}, before);
        stopping, log := true, log + [Closing];
      }
      PollAndHandle(round.polled, before);
      Interleave(multiset{}, total);
      ReapCompleted(total);
      if stopping {
        CancelAllFollows(Model(), multiset{}, total);
        CancelOperations();
      }
    }

    /** Runs until the loop's own condition fails or the given rounds are over; `turns` counts the rounds done. When it
        exits by its condition, every request ever polled has been answered exactly once and nothing is left running. */
    method RunServeLoop(rounds: seq<Round>) returns (exited: bool, turns: nat)
      requires Model() == NEW_SERVER
      modifies this
      ensures turns <= |rounds| && (!exited ==> turns == |rounds|)
      ensures Follows(Model(), multiset{}, AllPolled(rounds[..turns]))
      ensures forall x: Exchange :: Polls(log, x) == AllPolled(rounds[..turns])[x]
      ensures exited ==> stopping && operations == map[] && holder.None?
      ensures exited ==> forall x: Exchange :: Replies(log, x) == AllPolled(rounds[..turns])[x]
      ensures stopping ==> AllCancelling(operations)
      ensures (exists i :: 0 <= i < turns && rounds[i].signal) ==> stopping
    {
      turns := 0;
      while (!stopping || operations != map[]) && turns < |rounds|
        invariant 0 <= turns <= |rounds|
        invariant Follows(Model(), multiset{}, AllPolled(rounds[..turns]))
        invariant stopping ==> AllCancelling(operations)
        invariant forall i | 0 <= i < turns :: rounds[i].signal ==> stopping
      {
        Turn(rounds[turns], AllPolled(rounds[..turns]));
        assert rounds[..turns + 1][..turns] == rounds[..turns];
        turns := turns + 1;
      }
      exited := stopping && operations == map[];
      Settlement(Model(), AllPolled(rounds[..turns]));
    }
  }
}
