/** Restoring a world while the game holds it open: negotiate, ask it to save and leave, wait for the files to be
    free, restore, and bring the player back. */
module HotRestore {
  import opened Names
  import opened OperationResult

  datatype Handshake = Compatible | Incompatible | HandshakeTimedOut | HandshakeCancelled

  datatype Rejoin = NotRequested | RejoinSucceeded | RejoinFailed | RejoinTimedOut | RejoinCancelled

  datatype Message =
    | Hello
    | PreHotRestore
    | RestoreCancelled(reason: string)
    | RestoreFinished(success: bool, failure: Option<Code>)
    | RejoinWorld
    | HotRestoreComplete(status: string)

  /** What passes between the coordinator and its environment. */
  datatype Event =
    | Look(stop: bool)
    | Reset
    | Emitted(m: Message, delivered: bool)
    | Trusted
    | Handshook(status: Handshake)
    | SavedAndLeft(ok: bool)
    | Probed(occupied: bool)
    | Restored(code: Code)
    | Rejoined(answer: Option<bool>)

  // ---- the protocol, as an observer checks it ----

  /** `look` is what the last look at the stop token showed, as long as nothing was waited for since. */
  datatype Progress = Progress(
    look: Option<bool>,
    hello: Option<bool>,
    handshake: Option<Handshake>,
    request: Option<bool>,
    left: Option<bool>,
    released: bool,
    restored: Option<Code>,
    reason: Option<string>,
    finished: bool,
    rejoin: Option<bool>,
    answer: Option<Option<bool>>,
    completed: bool)

  const NEW_PROGRESS := Progress(None, None, None, None, None, false, None, None, false, None, None, false)

  predicate Succeeded(p: Progress) { p.restored.Some? && IsSuccessful(p.restored.value) }

  predicate Settled(p: Progress) { p.reason.Some? || p.finished }

  /** The reason a cancelled restore owes the player. */
  predicate RightReason(p: Progress, reason: string)
  {
    if p.look == Some(true) || p.handshake == Some(HandshakeCancelled) then reason == "cancelled"
    else if p.left == Some(false) then p.look == Some(false) && reason == "timeout"
    else p.look == Some(false) && p.left == Some(true) && !p.released && reason == "world_occupied"
  }

  /** The final status a completed hot restore owes, by how the request to rejoin went. */
  predicate RightStatus(p: Progress, status: string)
  {
    match p.rejoin
    case None => false
    case Some(false) => status == "restore_ok_rejoin_emit_failed"
    case Some(true) =>
      match p.answer
      case None => false
      case Some(answer) =>
        if p.look != Some(false) then p.look == Some(true) && status == "restore_ok_rejoin_cancelled"
        else if answer == None then status == "restore_ok_rejoin_timeout"
        else status == if answer == Some(true) then "full_success" else "restore_ok_rejoin_failed"
  }

  predicate MayEmit(p: Progress, m: Message)
  {
    match m
    case Hello => p.look == Some(false) && p.hello.None? && p.handshake.None? && !Settled(p)
    case PreHotRestore => p.look == Some(false) && p.handshake == Some(Compatible) && p.request.None? && !Settled(p)
    case RestoreCancelled(reason) => p.restored.None? && !Settled(p) && RightReason(p, reason)
    case RestoreFinished(success, failure) =>
      p.restored.Some? && !Settled(p) && success == Succeeded(p) && (failure == if success then None else p.restored)
    case RejoinWorld => Succeeded(p) && Settled(p) && p.rejoin.None?
    case HotRestoreComplete(status) => Succeeded(p) && Settled(p) && !p.completed && RightStatus(p, status)
  }

  function Emit(p: Progress, m: Message, delivered: bool): Progress
  {
    match m
    case Hello => p.(hello := Some(delivered))
    case PreHotRestore => p.(request := Some(delivered))
    case RestoreCancelled(reason) => p.(reason := Some(reason))
    case RestoreFinished(_, _) => p.(finished := true)
    case RejoinWorld => p.(rejoin := Some(delivered))
    case HotRestoreComplete(_) => p.(completed := true)
  }

  /** One observed event; None is a violation of the protocol. */
  function Watch(p: Progress, e: Event): Option<Progress>
  {
    match e
    case Look(stop) => Some(p.(look := Some(stop)))
    case Reset => if p == NEW_PROGRESS.(look := Some(false)) then Some(p) else None
    case Emitted(m, delivered) => if MayEmit(p, m) then Some(Emit(p, m, delivered)) else None
    case Trusted =>
      if p == NEW_PROGRESS.(look := Some(false)) then Some(p.(handshake := Some(Compatible), look := None)) else None
    case Handshook(status) =>
      if p == NEW_PROGRESS.(look := Some(false), hello := Some(true)) then Some(p.(handshake := Some(status), look := None))
      else None
    case SavedAndLeft(ok) =>
      if p.request == Some(true) && p.left.None? && !Settled(p) then Some(p.(left := Some(ok), look := None)) else None
    case Probed(occupied) =>
      if p.look == Some(false) && p.left == Some(true) && !p.released && !Settled(p) then Some(p.(released := !occupied, look := None))
      else None
    case Restored(code) =>
      if p.look == Some(false) && p.released && p.restored.None? && !Settled(p) then Some(p.(restored := Some(code))) else None
    case Rejoined(answer) =>
      if p.rejoin == Some(true) && p.answer.None? then Some(p.(answer := Some(answer), look := None)) else None
  }

  function Watched(p: Progress, log: seq<Event>): Option<Progress>
    decreases log
  {
    if log == [] then Some(p)
    else
      var n := Watch(p, log[0]);
      if n.None? then None else Watched(n.value, log[1..])
  }

  lemma {:induction false} WatchedStep(p: Progress, log: seq<Event>, e: Event)
    ensures Watched(p, log + [e]) == if Watched(p, log).None? then None else Watch(Watched(p, log).value, e)
    decreases log
  {
    if log == [] {
      assert [] + [e] == [e] && [e][1..] == [];
    } else {
      assert (log + [e])[1..] == log[1..] + [e];
      var n := Watch(p, log[0]);
      if n.Some? { WatchedStep(n.value, log[1..], e); }
    }
  }

  /** A run ends here: a delivered save request was settled, a successful restore was brought to its end, and a run
      without a restore has told the player, lost a message, met no compatible partner, or never begun. */
  predicate MayEnd(p: Progress)
  {
    && (p.request == Some(true) ==> Settled(p))
    && (p.restored.Some? ==> Settled(p))
    && (Succeeded(p) <==> p.completed)
    && (p.restored.None? ==>
          || p.reason.Some? || p.hello == Some(false) || p.request == Some(false)
          || p.handshake == Some(Incompatible) || p.handshake == Some(HandshakeTimedOut)
          || p.(look := None) == NEW_PROGRESS)
  }

  // ---- what every accepted log satisfies ----

  predicate Agreed(e: Event) { e == Trusted || e == Handshook(Compatible) }

  lemma {:induction false} RequestNeedsAgreement(p: Progress, log: seq<Event>, j: nat) returns (i: nat)
    requires Watched(p, log).Some? && p.handshake != Some(Compatible) && j < |log| && log[j].Emitted? && log[j].m == PreHotRestore
    ensures i < j && Agreed(log[i])
    decreases log
  {
    if Agreed(log[0]) { return 0; }
    i := RequestNeedsAgreement(Watch(p, log[0]).value, log[1..], j - 1);
    i := i + 1;
  }

  lemma {:induction false} LeavingNeedsRequest(p: Progress, log: seq<Event>, j: nat) returns (i: nat)
    requires Watched(p, log).Some? && p.request != Some(true) && j < |log| && log[j].SavedAndLeft?
    ensures i < j && log[i] == Emitted(PreHotRestore, true)
    decreases log
  {
    if log[0] == Emitted(PreHotRestore, true) { return 0; }
    i := LeavingNeedsRequest(Watch(p, log[0]).value, log[1..], j - 1);
    i := i + 1;
  }

  lemma {:induction false} ProbingNeedsLeaving(p: Progress, log: seq<Event>, j: nat) returns (i: nat)
    requires Watched(p, log).Some? && p.left != Some(true) && j < |log| && log[j].Probed?
    ensures i < j && log[i] == SavedAndLeft(true)
    decreases log
  {
    if log[0] == SavedAndLeft(true) { return 0; }
    i := ProbingNeedsLeaving(Watch(p, log[0]).value, log[1..], j - 1);
    i := i + 1;
  }

  lemma {:induction false} RestoringNeedsLook(p: Progress, log: seq<Event>, j: nat) returns (i: nat)
    requires Watched(p, log).Some? && p.look != Some(false) && j < |log| && log[j].Restored?
    ensures i < j && log[i] == Look(false)
    decreases log
  {
    if log[0] == Look(false) { return 0; }
    i := RestoringNeedsLook(Watch(p, log[0]).value, log[1..], j - 1);
    i := i + 1;
  }

  lemma {:induction false} RestoringNeedsRelease(p: Progress, log: seq<Event>, j: nat) returns (i: nat, look: nat)
    requires Watched(p, log).Some? && !p.released && j < |log| && log[j].Restored?
    ensures i < look < j && log[i] == Probed(false) && log[look] == Look(false)
    decreases log
  {
    if log[0] == Probed(false) {
      look := RestoringNeedsLook(Watch(p, log[0]).value, log[1..], j - 1);
      return 0, look + 1;
    }
    i, look := RestoringNeedsRelease(Watch(p, log[0]).value, log[1..], j - 1);
    i, look := i + 1, look + 1;
  }

  lemma RestoredStays(p: Progress, e: Event)
    requires Watch(p, e).Some? && p.restored.Some?
    ensures !e.Restored? && Watch(p, e).value.restored.Some?
  {
  }

  lemma {:induction false} NoSecondRestore(p: Progress, log: seq<Event>, j: nat)
    requires Watched(p, log).Some? && p.restored.Some? && j < |log|
    ensures !log[j].Restored?
    decreases log
  {
    RestoredStays(p, log[0]);
    if j > 0 { NoSecondRestore(Watch(p, log[0]).value, log[1..], j - 1); }
  }

  lemma {:induction false} RestoresOnce(p: Progress, log: seq<Event>, i: nat, j: nat)
    requires Watched(p, log).Some? && i < j < |log| && log[i].Restored?
    ensures !log[j].Restored?
    decreases log
  {
    var n := Watch(p, log[0]).value;
    if i == 0 { NoSecondRestore(n, log[1..], j - 1); } else { RestoresOnce(n, log[1..], i - 1, j - 1); }
  }

  /** A restore runs only after a compatible handshake, a delivered save request, the player's leaving, an
      observed free world and a look that showed no request to stop, in this order. */
  lemma RestoreHasItsReasons(log: seq<Event>, j: nat) returns (agreed: nat, request: nat, left: nat, free: nat, look: nat)
    requires Watched(NEW_PROGRESS, log).Some? && j < |log| && log[j].Restored?
    ensures agreed < request < left < free < look < j
    ensures Agreed(log[agreed]) && log[request] == Emitted(PreHotRestore, true)
    ensures log[left] == SavedAndLeft(true) && log[free] == Probed(false) && log[look] == Look(false)
  {
    free, look := RestoringNeedsRelease(NEW_PROGRESS, log, j);
    left := ProbingNeedsLeaving(NEW_PROGRESS, log, free);
    request := LeavingNeedsRequest(NEW_PROGRESS, log, left);
    agreed := RequestNeedsAgreement(NEW_PROGRESS, log, request);
  }

  predicate Settles(e: Event) { e.Emitted? && (e.m.RestoreCancelled? || e.m.RestoreFinished?) }

  function Settlements(log: seq<Event>): nat
    decreases log
  {
    if log == [] then 0 else (if Settles(log[0]) then 1 else 0) + Settlements(log[1..])
  }

  function One(b: bool): nat { if b then 1 else 0 }

  lemma SettledOnce(p: Progress, e: Event)
    requires Watch(p, e).Some?
    ensures One(Settled(p)) + One(Settles(e)) == One(Settled(Watch(p, e).value))
  {
  }

  lemma {:induction false} SettledCounts(p: Progress, log: seq<Event>)
    requires Watched(p, log).Some?
    ensures One(Settled(p)) + Settlements(log) == One(Settled(Watched(p, log).value))
    decreases log
  {
    if log != [] {
      SettledOnce(p, log[0]);
      SettledCounts(Watch(p, log[0]).value, log[1..]);
    }
  }

  lemma {:induction false} RequestedStays(p: Progress, log: seq<Event>, i: nat)
    requires Watched(p, log).Some?
    requires p.request == Some(true) || (i < |log| && log[i] == Emitted(PreHotRestore, true))
    ensures Watched(p, log).value.request == Some(true)
    decreases log
  {
    if log != [] { RequestedStays(Watch(p, log[0]).value, log[1..], if i == 0 then 0 else i - 1); }
  }

  /** Once the save request is delivered, exactly one message tells the player how it ended. */
  lemma ExactlyOneSettlement(log: seq<Event>, i: nat)
    requires Watched(NEW_PROGRESS, log).Some? && MayEnd(Watched(NEW_PROGRESS, log).value)
    requires i < |log| && log[i] == Emitted(PreHotRestore, true)
    ensures Settlements(log) == 1
  {
    RequestedStays(NEW_PROGRESS, log, i);
    SettledCounts(NEW_PROGRESS, log);
  }

  predicate BringsBack(e: Event) { e.Emitted? && (e.m.RejoinWorld? || e.m.HotRestoreComplete?) }

  lemma UnsuccessfulStays(p: Progress, e: Event)
    requires Watch(p, e).Some? && !Succeeded(p) && !(e.Restored? && IsSuccessful(e.code))
    ensures !Succeeded(Watch(p, e).value) && !BringsBack(e)
  {
  }

  /** The player is asked back, and completion announced, only after a successful restore. */
  lemma {:induction false} RejoinNeedsSuccess(p: Progress, log: seq<Event>, j: nat) returns (i: nat)
    requires Watched(p, log).Some? && !Succeeded(p) && j < |log| && BringsBack(log[j])
    ensures i < j && log[i].Restored? && IsSuccessful(log[i].code)
    decreases log
  {
    if log[0].Restored? && IsSuccessful(log[0].code) { return 0; }
    UnsuccessfulStays(p, log[0]);
    i := RejoinNeedsSuccess(Watch(p, log[0]).value, log[1..], j - 1);
    i := i + 1;
  }

  // ---- the coordinator ----

  /** Every answer the environment may give, by moment: nothing about it is assumed, not even that a requested
      stop stays requested. `polls` is the number of looks at the world that fit before the release deadline. */
  datatype Environment = Environment(
    stop: nat -> bool,
    delivers: nat -> bool,
    handshake: Handshake,
    leaves: bool,
    occupied: nat -> bool,
    polls: nat,
    restore: Code,
    rejoins: Option<bool>,
    hasTransport: bool,
    hasRuntime: bool)
  {
    ghost predicate NeverStops() { forall k: nat :: !stop(k) }

    ghost predicate AlwaysDelivers() { forall k: nat :: delivers(k) }

    ghost predicate FreesWorld() { exists k: nat :: k < polls && !occupied(k) }

    /** Nothing gets in the way of a restore. */
    ghost predicate Cooperates(handshakeComplete: bool)
    {
      && NeverStops() && AlwaysDelivers() && hasTransport && hasRuntime
      && (handshakeComplete || handshake == Compatible) && leaves && FreesWorld()
    }
  }

  datatype HotResult = HotResult(
    code: Code,
    restore: Option<Code>,
    handshake: Handshake,
    rejoin: Rejoin,
    saveAndExitCompleted: bool,
    worldReleased: bool)

  const NEW_RESULT := HotResult(RestoreFailed, None, HandshakeTimedOut, NotRequested, false, false)

  /** The result a run owes after what was observed. */
  function ResultDue(p: Progress): HotResult
  {
    HotResult(
      if Succeeded(p) then Success
      else if p.restored == Some(Cancelled) || p.reason == Some("cancelled")
              || (p.restored.None? && p.reason.None? && p.look == Some(true)) then Cancelled
      else RestoreFailed,
      p.restored,
      if p.handshake.Some? then p.handshake.value else HandshakeTimedOut,
      match p.rejoin
      case None => NotRequested
      case Some(false) => RejoinTimedOut
      case Some(true) =>
        (if p.look == Some(true) then RejoinCancelled
         else match p.answer
           case Some(Some(back)) => if back then RejoinSucceeded else RejoinFailed
           case _ => RejoinTimedOut),
      p.left == Some(true),
      p.released)
  }

  /** Ready to ask the player to save and leave. */
  function Ready(handshakeComplete: bool): Progress
  {
    NEW_PROGRESS.(look := Some(false), hello := if handshakeComplete then None else Some(true), handshake := Some(Compatible))
  }

  lemma ReasonEnds(p: Progress, reason: string)
    requires p.restored.None? && !Settled(p) && !p.completed && p.look.Some?
    requires reason == "cancelled" || p.look == Some(false)
    ensures var q := p.(reason := Some(reason));
      MayEnd(q) && ResultDue(q) == ResultDue(p).(code := if reason == "cancelled" then Cancelled else RestoreFailed)
  {}

  lemma RejoinEnds(p: Progress, q: Progress)
    requires p.rejoin == Some(true) && Succeeded(p) && p.finished && q.answer.Some? && q.look.Some?
    requires q == p.(answer := q.answer, look := q.look, completed := true)
    ensures MayEnd(q)
    ensures ResultDue(q) == ResultDue(p.(rejoin := None)).(rejoin :=
              if q.look == Some(true) then RejoinCancelled
              else if q.answer.value.None? then RejoinTimedOut
              else if q.answer.value.value then RejoinSucceeded else RejoinFailed)
  {}

  class Coordinator {
    const env: Environment
    var log: seq<Event>
    var clock: nat

    ghost function Seen(): Option<Progress>
      reads this
    {
      Watched(NEW_PROGRESS, log)
    }

    constructor (env: Environment)
      ensures this.env == env && log == []
    {
      this.env, log, clock := env, [], 0;
    }

    method Stopped() returns (stop: bool)
      modifies this
      ensures stop == env.stop(old(clock))
      ensures Seen() == if old(Seen()).None? then None else Some(old(Seen()).value.(look := Some(stop)))
    {
      stop := env.stop(clock);
      clock := clock + 1;
      Note(Look(stop));
    }

    method Note(e: Event)
      modifies this`log
      ensures log == old(log) + [e]
      ensures Seen() == if old(Seen()).None? then None else Watch(old(Seen()).value, e)
    {
      WatchedStep(NEW_PROGRESS, log, e);
      log := log + [e];
    }

    method Send(m: Message) returns (ok: bool)
      requires env.hasTransport
      modifies this
      ensures ok == env.delivers(old(clock))
      ensures Seen() == if old(Seen()).None? then None else Watch(old(Seen()).value, Emitted(m, ok))
    {
      ok := env.delivers(clock);
      clock := clock + 1;
      Note(Emitted(m, ok));
    }

    /** What was observed is what the environment answered. */
    ghost predicate Truthful(handshakeComplete: bool, p: Progress)
    {
      && (p.handshake.Some? ==> p.handshake.value == if handshakeComplete then Compatible else env.handshake)
      && (p.left.Some? ==> p.left.value == env.leaves)
      && (p.released ==> env.FreesWorld())
      && (p.restored.Some? ==> p.restored.value == env.restore)
      && (p.answer.Some? ==> p.answer.value == env.rejoins)
    }

    /** The run is over and its result tells exactly what happened. */
    ghost predicate Concluded(handshakeComplete: bool, r: HotResult)
      reads this
    {
      && Seen().Some? && MayEnd(Seen().value) && Truthful(handshakeComplete, Seen().value)
      && r == ResultDue(Seen().value)
    }

    /** The exit every cancellation takes. */
    method Cancel(result: HotResult) returns (r: HotResult)
      requires Seen().Some? && Seen().value.restored.None? && !Settled(Seen().value)
      requires Seen().value.look == Some(true) || Seen().value.handshake == Some(HandshakeCancelled)
      modifies this
      ensures r == result.(code := Cancelled)
      ensures Seen() == Some(if env.hasTransport then old(Seen()).value.(reason := Some("cancelled")) else old(Seen()).value)
      ensures env.hasTransport && old(Seen()).value.look.Some? && !old(Seen()).value.completed ==>
                MayEnd(Seen().value) && ResultDue(Seen().value) == ResultDue(old(Seen()).value).(code := Cancelled)
    {
      if env.hasTransport { var _ := Send(RestoreCancelled("cancelled")); }
      if old(Seen()).value.look.Some? && !old(Seen()).value.completed { ReasonEnds(old(Seen()).value, "cancelled"); }
      r := result.(code := Cancelled);
    }

    /** Up to a compatible handshake and its pause. */
    method Negotiate(handshakeComplete: bool) returns (go: bool, result: HotResult)
      requires env.hasTransport && Seen() == Some(NEW_PROGRESS.(look := Some(false)))
      modifies this
      ensures go ==> Seen() == Some(Ready(handshakeComplete)) && result == NEW_RESULT.(handshake := Compatible)
      ensures go ==> handshakeComplete || env.handshake == Compatible
      ensures !go ==> Concluded(handshakeComplete, result) && Seen().value.restored.None?
      ensures !go ==> Seen().value.(look := None) != NEW_PROGRESS
      ensures env.Cooperates(handshakeComplete) ==> go
    {
      go, result := false, NEW_RESULT;
      Note(Reset);
      if handshakeComplete {
        Note(Trusted);
        result := result.(handshake := Compatible);
      } else {
        var sent := Send(Hello);
        if !sent { return; }
        Note(Handshook(env.handshake));
        result := result.(handshake := env.handshake);
      }
      var stop := Stopped();
      if stop || result.handshake == HandshakeCancelled { result := Cancel(result); return; }
      if result.handshake == Incompatible || result.handshake != Compatible { return; }
      if !handshakeComplete {
        stop := Stopped();
        if stop { result := Cancel(result); return; }
      }
      go := true;
    }

    /** Waits for the game to let go of the world, up to the deadline. */
    method AwaitRelease(ghost p: Progress) returns (released: bool)
      requires Seen() == Some(p) && p.left == Some(true) && !p.released && !Settled(p)
      modifies this
      ensures Seen().Some? && Seen().value.(look := None) == p.(released := released, look := None)
      ensures released ==> env.FreesWorld()
      ensures env.NeverStops() && env.FreesWorld() ==> released
    {
      released := false;
      var polls := 0;
      var stop := Stopped();
      while !stop && polls < env.polls
        invariant 0 <= polls <= env.polls && forall k: nat | k < polls :: env.occupied(k)
        invariant env.NeverStops() ==> !stop
        invariant Seen() == Some(p.(look := Some(stop)))
        decreases env.polls - polls
      {
        var occupied := env.occupied(polls);
        Note(Probed(occupied));
        if !occupied { return true; }
        polls := polls + 1;
        stop := Stopped();
      }
    }

    /** From the save request to the free world. */
    method Evacuate(handshakeComplete: bool, before: HotResult) returns (go: bool, result: HotResult)
      requires env.hasTransport && Seen() == Some(Ready(handshakeComplete))
      requires handshakeComplete || env.handshake == Compatible
      requires before == NEW_RESULT.(handshake := Compatible)
      modifies this
      ensures go ==> Seen() == Some(Ready(handshakeComplete).(request := Some(true), left := Some(true), released := true))
                     && env.leaves && env.FreesWorld()
      ensures go ==> result == before.(saveAndExitCompleted := true, worldReleased := true)
      ensures !go ==> Concluded(handshakeComplete, result) && Seen().value.restored.None? && Seen().value.handshake.Some?
      ensures env.Cooperates(true) ==> go
    {
      go, result := false, before;
      var sent := Send(PreHotRestore);
      if !sent { return; }
      Note(SavedAndLeft(env.leaves));
      result := result.(saveAndExitCompleted := env.leaves);
      var stop := Stopped();
      if stop { result := Cancel(result); return; }
      if !result.saveAndExitCompleted {
        result := Abandon("timeout", result);
        return;
      }
      var released := AwaitRelease(Seen().value);
      result := result.(worldReleased := released);
      stop := Stopped();
      if stop { result := Cancel(result); return; }
      if !released {
        result := Abandon("world_occupied", result);
        return;
      }
      go := true;
    }

    /** Tells the player why nothing is restored. */
    method Abandon(reason: string, result: HotResult) returns (r: HotResult)
      requires env.hasTransport && Seen().Some? && reason != "cancelled"
      requires var p := Seen().value;
        p.restored.None? && !Settled(p) && !p.completed && p.look == Some(false) && RightReason(p, reason)
      modifies this
      ensures r == result && Seen() == Some(old(Seen()).value.(reason := Some(reason)))
      ensures MayEnd(Seen().value) && ResultDue(Seen().value) == ResultDue(old(Seen()).value).(code := RestoreFailed)
    {
      ReasonEnds(Seen().value, reason);
      var _ := Send(RestoreCancelled(reason));
      r := result;
    }

    method Report(status: string)
      requires env.hasTransport && Seen().Some?
      requires var p := Seen().value; Succeeded(p) && Settled(p) && !p.completed && RightStatus(p, status)
      modifies this
      ensures Seen() == Some(old(Seen()).value.(completed := true))
    {
      var _ := Send(HotRestoreComplete(status));
    }

    /** Reports how the request to rejoin went. */
    method AwaitRejoin(handshakeComplete: bool, before: HotResult, ghost p: Progress) returns (result: HotResult)
      requires env.hasTransport && IsSuccessful(env.restore) && Truthful(handshakeComplete, p)
      requires Seen() == Some(p) && p.restored == Some(env.restore) && p.finished && p.rejoin == Some(true)
      requires p.answer.None? && !p.completed && before == ResultDue(p.(rejoin := None))
      modifies this
      ensures Concluded(handshakeComplete, result) && Seen().value.restored == Some(env.restore)
    {
      result := before;
      Note(Rejoined(env.rejoins));
      var stop := Stopped();
      ghost var q := p.(answer := Some(env.rejoins), look := Some(stop), completed := true);
      RejoinEnds(p, q);
      if stop {
        result := result.(rejoin := RejoinCancelled);
        Report("restore_ok_rejoin_cancelled");
        assert Seen() == Some(q);
        return;
      }
      if env.rejoins.None? {
        result := result.(rejoin := RejoinTimedOut);
        Report("restore_ok_rejoin_timeout");
      } else if env.rejoins.value {
        result := result.(rejoin := RejoinSucceeded);
        Report("full_success");
      } else {
        result := result.(rejoin := RejoinFailed);
        Report("restore_ok_rejoin_failed");
      }
      assert Seen() == Some(q);
    }

    /** Announces the finished restore and asks the player back. */
    method BringBack(handshakeComplete: bool, before: HotResult, ghost p: Progress) returns (result: HotResult)
      requires env.hasTransport && IsSuccessful(env.restore) && Truthful(handshakeComplete, p)
      requires Seen() == Some(p) && p.restored == Some(env.restore) && !Settled(p)
      requires p.rejoin.None? && p.answer.None? && !p.completed && before == ResultDue(p).(code := RestoreFailed)
      modifies this
      ensures Concluded(handshakeComplete, result) && Seen().value.restored == Some(env.restore)
    {
      result := before;
      var _ := Send(RestoreFinished(true, None));
      var sent := Send(RejoinWorld);
      result := result.(code := Success);
      if !sent {
        result := result.(rejoin := RejoinTimedOut);
        Report("restore_ok_rejoin_emit_failed");
        return;
      }
      result := AwaitRejoin(handshakeComplete, result, Seen().value);
    }

    /** One hot restore against any environment keeps to the protocol, ends where it may, and its result is the one due;
        it never begins only without a runtime, and when nothing gets in the way it does restore. */
    method Run(handshakeComplete: bool) returns (result: HotResult)
      requires log == [] && (env.hasRuntime ==> env.hasTransport)
      modifies this
      ensures Concluded(handshakeComplete, result)
      ensures env.hasRuntime ==> Seen().value.(look := None) != NEW_PROGRESS
      ensures env.Cooperates(handshakeComplete) ==> Seen().value.restored == Some(env.restore)
    {
      result := NEW_RESULT;
      var stop := Stopped();
      if stop { result := Cancel(result); return; }
      if !env.hasRuntime { return; }
      var go;
      go, result := Negotiate(handshakeComplete);
      if !go { return; }
      go, result := Evacuate(handshakeComplete, result);
      if !go { return; }
      Note(Restored(env.restore));
      result := result.(restore := Some(env.restore));
      if !IsSuccessful(env.restore) {
        result := result.(code := if env.restore == Cancelled then Cancelled else RestoreFailed);
        var _ := Send(RestoreFinished(false, Some(env.restore)));
        return;
      }
      result := BringBack(handshakeComplete, result, Seen().value);
    }
  }
}
