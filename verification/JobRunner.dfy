/** Staged jobs: the steps of a stage run in parallel, and a stage that does not succeed stops the job. */
module JobRunner {
  import opened Names
  import opened OperationResult

  // ---- folding step codes ----

  ghost predicate AnySuccess(codes: multiset<Code>) { exists c | c in codes :: IsSuccessful(c) }

  ghost predicate AnyFailure(codes: multiset<Code>) { exists c | c in codes :: !IsSuccessful(c) }

  /** The meaning of a fold, which sees only how often each code occurs. */
  ghost function Combined(codes: multiset<Code>): Code
  {
    if Cancelled in codes then Cancelled
    else if AnyFailure(codes) then if AnySuccess(codes) then PartialSuccess else JobFailed
    else if Success in codes then Success
    else NoChanges
  }

  /** Which result comes out of which codes: each of the five exactly when. */
  ghost predicate FoldIs(codes: seq<Code>, r: Code)
  {
    && (r == Cancelled <==> Cancelled in codes)
    && (r == PartialSuccess <==> Cancelled !in codes && (exists c :: c in codes && !IsSuccessful(c)) && (exists c :: c in codes && IsSuccessful(c)))
    && (r == JobFailed <==> Cancelled !in codes && codes != [] && forall c | c in codes :: !IsSuccessful(c))
    && (r == Success <==> Success in codes && forall c | c in codes :: c == Success || c == NoChanges)
    && (r == NoChanges <==> forall c | c in codes :: c == NoChanges)
  }

  lemma CombinedIs(codes: seq<Code>)
    ensures FoldIs(codes, Combined(multiset(codes)))
  {
    var all := multiset(codes);
    assert forall c :: c in codes <==> c in all;
    if codes != [] { assert codes[0] in codes; }
  }

  method Aggregate(codes: seq<Code>) returns (r: Code)
    ensures r == Combined(multiset(codes))
  {
    var success, changed, failure := false, false, false;
    for i := 0 to |codes|
      invariant Cancelled !in codes[..i]
      invariant success <==> AnySuccess(multiset(codes[..i]))
      invariant failure <==> AnyFailure(multiset(codes[..i]))
      invariant changed <==> Success in codes[..i]
    {
      assert codes[..i + 1] == codes[..i] + [codes[i]];
      assert forall c :: c in multiset(codes[..i + 1]) <==> c in multiset(codes[..i]) || c == codes[i];
      if codes[i] == Cancelled {
        assert codes[i] in multiset(codes);
        return Cancelled;
      }
      if IsSuccessful(codes[i]) {
        success := true;
        changed := changed || codes[i] != NoChanges;
      } else {
        failure := true;
      }
    }
    assert codes[..|codes|] == codes;
    if success && failure { return PartialSuccess; }
    if failure { return JobFailed; }
    return if changed then Success else NoChanges;
  }

  ghost predicate AllSuccessful(codes: seq<Code>) { forall c | c in codes :: IsSuccessful(c) }

  /** A fold succeeds just when every step did. */
  lemma CombinedSucceeds(codes: seq<Code>)
    ensures IsSuccessful(Combined(multiset(codes))) <==> AllSuccessful(codes)
  {
    if c :| c in codes && !IsSuccessful(c) { assert c in multiset(codes); }
  }

  // ---- one step ----

  datatype ProcessStatus = ProcessSucceeded | ProcessCancelled | ProcessTimedOut | ProcessFailed

  /** What the step's dependencies answer, should they be asked. */
  datatype Step =
    | ProcessStep(status: ProcessStatus)
    | BackupStep(hasRuntime: bool, found: bool, preflight: Option<Code>, backup: Code)
    | Throwing

  function StepCode(s: Step, stopped: bool): Code
  {
    match s
    case Throwing => if stopped then Cancelled else JobFailed
    case ProcessStep(status) =>
      if stopped || status == ProcessCancelled then Cancelled
      else if status == ProcessSucceeded then Success else JobFailed
    case BackupStep(hasRuntime, found, preflight, backup) =>
      if stopped then Cancelled
      else if !hasRuntime then InvalidProfile
      else if !found then TargetNotFound
      else if preflight.Some? && !IsSuccessful(preflight.value) then preflight.value
      else backup
  }

  /** No stop was seen and everything the step depends on went well: its process, or, for a backup,
      the runtime, the target, the preflight if there is one, and the backup itself. */
  predicate Completes(s: Step, stopped: bool)
  {
    && !stopped
    && match s
       case Throwing => false
       case ProcessStep(status) => status == ProcessSucceeded
       case BackupStep(hasRuntime, found, preflight, backup) =>
         hasRuntime && found && (preflight.Some? ==> IsSuccessful(preflight.value)) && IsSuccessful(backup)
  }

  /** A stop was seen, or the one dependency whose answer counts was cancelled. */
  predicate WasCancelled(s: Step, stopped: bool)
  {
    || stopped
    || (s.ProcessStep? && s.status == ProcessCancelled)
    || (s.BackupStep? && s.hasRuntime && s.found
        && (s.preflight == Some(Cancelled) || ((s.preflight.Some? ==> IsSuccessful(s.preflight.value)) && s.backup == Cancelled)))
  }

  /** The code of a step that was not cancelled. */
  predicate Answers(s: Step, code: Code)
  {
    match s
    case Throwing => code == JobFailed
    case ProcessStep(status) => code == (if status == ProcessSucceeded then Success else JobFailed)
    case BackupStep(hasRuntime, found, preflight, backup) =>
      && (!hasRuntime ==> code == InvalidProfile)
      && (hasRuntime && !found ==> code == TargetNotFound)
      && (hasRuntime && found && preflight.Some? && !IsSuccessful(preflight.value) ==> code == preflight.value)
      && (hasRuntime && found && (preflight.Some? ==> IsSuccessful(preflight.value)) ==> code == backup)
  }

  /** A step succeeds exactly when it completes, and reports a cancellation exactly when there was one. */
  lemma StepSucceedsIff(s: Step, stopped: bool)
    ensures !WasCancelled(s, stopped) ==> Answers(s, StepCode(s, stopped))
    ensures IsSuccessful(StepCode(s, stopped)) <==> Completes(s, stopped)
    ensures StepCode(s, stopped) == Cancelled <==> WasCancelled(s, stopped)
  {}

  method RunStep(s: Step, stopped: bool) returns (code: Code)
    ensures code == StepCode(s, stopped)
    ensures IsSuccessful(code) <==> Completes(s, stopped)
    ensures code == Cancelled <==> WasCancelled(s, stopped)
    ensures !WasCancelled(s, stopped) ==> Answers(s, code)
  {
    if stopped { return Cancelled; }
    match s
    case Throwing => code := JobFailed;
    case ProcessStep(status) =>
      code := if status == ProcessSucceeded then Success else if status == ProcessCancelled then Cancelled else JobFailed;
    case BackupStep(hasRuntime, found, preflight, backup) =>
      if !hasRuntime { return InvalidProfile; }
      if !found { return TargetNotFound; }
      if preflight.Some? && !IsSuccessful(preflight.value) { return preflight.value; }
      code := backup;
  }

  // ---- one stage ----

  /** A step together with whether its worker saw a stop request when it began. */
  datatype Scheduled = Scheduled(step: Step, stopped: bool)
  {
    function Code(): Code { StepCode(step, stopped) }
  }

  type Stage = seq<Scheduled>

  function Codes(stage: Stage): (r: seq<Code>)
    ensures |r| == |stage|
  {
    seq(|stage|, i requires 0 <= i < |stage| => stage[i].Code())
  }

  /** Every worker finishes once, in whatever order. */
  ghost predicate FinishingOrder(order: seq<nat>, n: nat)
  {
    && |order| == n
    && (forall k | 0 <= k < n :: order[k] < n)
    && (forall i: nat | i < n :: i in order)
  }

  /** The workers fill their own slots; when all have been joined the slots hold the codes in step order,
      whatever the order of finishing. */
  method RunWorkers(stage: Stage, order: seq<nat>) returns (slots: array<Code>)
    requires FinishingOrder(order, |stage|)
    ensures fresh(slots) && slots[..] == Codes(stage)
  {
    slots := new Code[|stage|](_ => JobFailed);
    for k := 0 to |order|
      invariant forall j | 0 <= j < k :: slots[order[j]] == stage[order[j]].Code()
    {
      var i := order[k];
      var code := RunStep(stage[i].step, stage[i].stopped);
      slots[i] := code;
    }
    forall i | 0 <= i < |stage| ensures slots[i] == stage[i].Code() {
      assert i in order;
    }
  }

  // ---- a whole job ----

  datatype StageResult = StageResult(skipped: bool, code: Code, steps: seq<Code>)

  /** `stops[i]` is whether a stop request was seen before stage i, `stopAtEnd` after the last. */
  datatype Job = Job(stages: seq<Stage>, stops: seq<bool>, stopAtEnd: bool)
  {
    ghost predicate Valid() { |stops| == |stages| }

    /** A stop request is never withdrawn. */
    ghost predicate StopsLatch() { forall i | 0 <= i < |stops| && stops[i] :: stopAtEnd }

    /** The stage does not let the job go on. */
    ghost predicate Blocks(i: nat)
      requires Valid() && i < |stages|
    {
      stops[i] || !AllSuccessful(Codes(stages[i]))
    }

    /** The first stage that blocks from `i` on, or the end. */
    ghost function Boundary(i: nat): (b: nat)
      requires Valid() && i <= |stages|
      ensures i <= b <= |stages|
      ensures forall k | i <= k < b :: !Blocks(k)
      ensures b < |stages| ==> Blocks(b)
      decreases |stages| - i
    {
      if i == |stages| || Blocks(i) then i else Boundary(i + 1)
    }

    /** What is reported of a stage. */
    ghost function Reported(i: nat): StageResult
      requires Valid() && i < |stages|
    {
      if i > Boundary(0) then StageResult(true, JobFailed, [])
      else if stops[i] then StageResult(false, Cancelled, [])
      else StageResult(false, Combined(multiset(Codes(stages[i]))), Codes(stages[i]))
    }

    /** The codes of the first n stages that ran their steps. */
    ghost function Executed(n: nat): seq<Code>
      requires Valid() && n <= |stages|
    {
      if n == 0 then [] else Executed(n - 1) + Reported(n - 1).steps
    }

    ghost function Verdict(): Code
      requires Valid()
    {
      var executed := Executed(|stages|);
      var code := if stopAtEnd then Cancelled else Combined(multiset(executed));
      if executed == [] && code != Cancelled then JobFailed else code
    }
  }

  /** One stage that is reached: `skip` says that the rest of the job is not. */
  method RunStage(job: Job, i: nat, order: seq<nat>) returns (r: StageResult, skip: bool)
    requires job.Valid() && i < |job.stages| && i <= job.Boundary(0) && FinishingOrder(order, |job.stages[i]|)
    ensures r == job.Reported(i) && (skip <==> job.Boundary(0) <= i)
  {
    if job.stops[i] {
      assert job.Blocks(i);
      return StageResult(false, Cancelled, []), true;
    }
    var slots := RunWorkers(job.stages[i], order);
    var stageCode := Aggregate(slots[..]);
    CombinedSucceeds(slots[..]);
    r, skip := StageResult(false, stageCode, slots[..]), !IsSuccessful(stageCode);
    assert skip <==> job.Blocks(i);
  }

  ghost predicate ReportedSoFar(job: Job, stages: seq<StageResult>)
    requires job.Valid()
  {
    |stages| <= |job.stages| && forall i | 0 <= i < |stages| :: stages[i] == job.Reported(i)
  }

  lemma SkippedReport(job: Job, i: nat)
    requires job.Valid() && job.Boundary(0) < i < |job.stages|
    ensures job.Reported(i) == StageResult(true, JobFailed, [])
  {
  }

  lemma ReportAppends(job: Job, stages: seq<StageResult>, r: StageResult)
    requires job.Valid() && |stages| < |job.stages| && ReportedSoFar(job, stages) && r == job.Reported(|stages|)
    ensures ReportedSoFar(job, stages + [r])
  {
    var more := stages + [r];
    forall i | 0 <= i < |more| ensures more[i] == job.Reported(i) { }
  }

  method NextStage(job: Job, i: nat, skip: bool, order: seq<nat>) returns (r: StageResult, next: bool)
    requires job.Valid() && i < |job.stages| && FinishingOrder(order, |job.stages[i]|) && (skip <==> job.Boundary(0) < i)
    ensures r == job.Reported(i) && (next <==> job.Boundary(0) <= i)
  {
    if skip {
      SkippedReport(job, i);
      return StageResult(true, JobFailed, []), true;
    }
    r, next := RunStage(job, i, order);
  }

  /** Runs the stages under any finishing order of the workers of each. */
  method RunStages(job: Job, orders: seq<seq<nat>>) returns (stages: seq<StageResult>, executed: seq<Code>)
    requires job.Valid() && |orders| == |job.stages|
    requires forall i | 0 <= i < |orders| :: FinishingOrder(orders[i], |job.stages[i]|)
    ensures |stages| == |job.stages| && ReportedSoFar(job, stages)
    ensures executed == job.Executed(|job.stages|)
  {
    var skip := false;
    stages, executed := [], [];
    for i := 0 to |job.stages|
      invariant |stages| == i && ReportedSoFar(job, stages)
      invariant skip <==> job.Boundary(0) < i
      invariant executed == job.Executed(i)
    {
      var r;
      r, skip := NextStage(job, i, skip, orders[i]);
      ReportAppends(job, stages, r);
      stages := stages + [r];
      executed := executed + r.steps;
    }
  }

  /** A stage whose steps do not all complete, or before which a stop was seen, ends the job. */
  ghost predicate EndsJob(job: Job, k: nat)
    requires job.Valid() && k < |job.stages|
  {
    job.stops[k] || exists j :: 0 <= j < |job.stages[k]| && !Completes(job.stages[k][j].step, job.stages[k][j].stopped)
  }

  predicate StepIs(s: Step, stopped: bool, code: Code)
  {
    (code == Cancelled <==> WasCancelled(s, stopped)) && (!WasCancelled(s, stopped) ==> Answers(s, code))
  }

  /** What is reported of a stage: it is skipped after one that ends the job, cancelled without running a step when a stop
      was seen before it, and otherwise folded from what its steps answered, in step order. */
  ghost predicate StageIs(job: Job, i: nat, r: StageResult)
    requires job.Valid() && i < |job.stages|
  {
    if exists k: nat :: k < i && EndsJob(job, k) then r.skipped && r.steps == []
    else if job.stops[i] then r == StageResult(false, Cancelled, [])
    else
      && !r.skipped && |r.steps| == |job.stages[i]| && FoldIs(r.steps, r.code)
      && forall j | 0 <= j < |r.steps| :: StepIs(job.stages[i][j].step, job.stages[i][j].stopped, r.steps[j])
  }

  lemma EndsIsBlocks(job: Job, k: nat)
    requires job.Valid() && k < |job.stages|
    ensures EndsJob(job, k) <==> job.Blocks(k)
  {
    StageSucceedsIff(job.stages[k]);
  }

  lemma EndedBefore(job: Job, i: nat)
    requires job.Valid() && i < |job.stages|
    ensures (exists k: nat :: k < i && EndsJob(job, k)) <==> i > job.Boundary(0)
  {
    var b := job.Boundary(0);
    if b < i { EndsIsBlocks(job, b); }
    forall k: nat | k < i && k < b ensures !EndsJob(job, k) { EndsIsBlocks(job, k); }
  }

  lemma StepsAre(stage: Stage)
    ensures forall j | 0 <= j < |stage| :: StepIs(stage[j].step, stage[j].stopped, Codes(stage)[j])
  {
    forall j | 0 <= j < |stage| ensures StepIs(stage[j].step, stage[j].stopped, Codes(stage)[j]) {
      StepSucceedsIff(stage[j].step, stage[j].stopped);
    }
  }

  lemma StageReport(job: Job, i: nat)
    requires job.Valid() && i < |job.stages|
    ensures StageIs(job, i, job.Reported(i))
  {
    EndedBefore(job, i);
    StepsAre(job.stages[i]);
    CombinedIs(Codes(job.stages[i]));
  }

  /** The code of a job: cancelled after a stop at its end, failed when nothing ran, otherwise that of the executed steps. */
  ghost predicate VerdictIs(job: Job, code: Code)
    requires job.Valid()
  {
    var executed := job.Executed(|job.stages|);
    if job.stopAtEnd then code == Cancelled else if executed == [] then code == JobFailed else FoldIs(executed, code)
  }

  method Run(job: Job, orders: seq<seq<nat>>) returns (code: Code, stages: seq<StageResult>)
    requires job.Valid() && |orders| == |job.stages|
    requires forall i | 0 <= i < |orders| :: FinishingOrder(orders[i], |job.stages[i]|)
    ensures |stages| == |job.stages| && ReportedSoFar(job, stages)
    ensures code == job.Verdict()
    ensures VerdictIs(job, code) && forall i | 0 <= i < |stages| :: StageIs(job, i, stages[i])
  {
    var executed;
    stages, executed := RunStages(job, orders);
    code := Aggregate(executed);
    CombinedIs(executed);
    forall i | 0 <= i < |stages| ensures StageIs(job, i, stages[i]) { StageReport(job, i); }
    if job.stopAtEnd { code := Cancelled; }
    if executed == [] && code != Cancelled { code := JobFailed; }
  }

  // ---- what the verdict says ----

  lemma UnblockedReport(job: Job, i: nat)
    requires job.Valid() && i < job.Boundary(0)
    ensures AllSuccessful(job.Reported(i).steps) && job.Reported(i).steps == Codes(job.stages[i])
  {
    assert !job.Blocks(i);
  }

  lemma SuccessesAppend(a: seq<Code>, b: seq<Code>)
    requires AllSuccessful(a) && AllSuccessful(b)
    ensures AllSuccessful(a + b)
  {
  }

  lemma {:induction false} UnblockedSucceeds(job: Job, n: nat)
    requires job.Valid() && n <= job.Boundary(0)
    ensures AllSuccessful(job.Executed(n))
  {
    if n > 0 {
      UnblockedSucceeds(job, n - 1);
      UnblockedReport(job, n - 1);
      SuccessesAppend(job.Executed(n - 1), job.Reported(n - 1).steps);
    }
  }

  /** How many steps the first n stages list. */
  function StepCount(stages: seq<Stage>, n: nat): nat
    requires n <= |stages|
  {
    if n == 0 then 0 else StepCount(stages, n - 1) + |stages[n - 1]|
  }

  ghost predicate RanAll(job: Job, i: nat)
    requires job.Valid() && i < |job.stages|
  {
    |job.Reported(i).steps| == |job.stages[i]|
  }

  lemma ExecutedNext(job: Job, n: nat, before: nat)
    requires job.Valid() && 0 < n <= |job.stages| && RanAll(job, n - 1)
    requires |job.Executed(n - 1)| == before
    ensures |job.Executed(n)| == before + |job.stages[n - 1]|
  {}

  lemma StepCountNext(stages: seq<Stage>, n: nat, before: nat)
    requires 0 < n <= |stages| && StepCount(stages, n - 1) == before
    ensures StepCount(stages, n) == before + |stages[n - 1]|
  {}

  lemma {:induction false} AllRan(job: Job, n: nat) returns (count: nat)
    requires job.Valid() && n <= |job.stages| && forall i | 0 <= i < n :: RanAll(job, i)
    ensures count == |job.Executed(n)| && count == StepCount(job.stages, n)
  {
    count := 0;
    for i := 0 to n
      invariant count == |job.Executed(i)| && count == StepCount(job.stages, i)
    {
      ExecutedNext(job, i + 1, count);
      StepCountNext(job.stages, i + 1, count);
      count := count + |job.stages[i]|;
    }
  }

  lemma UnblockedRunsAll(job: Job, n: nat)
    requires job.Valid() && n <= job.Boundary(0)
    ensures |job.Executed(n)| == StepCount(job.stages, n)
  {
    forall i | 0 <= i < n ensures RanAll(job, i) { UnblockedReport(job, i); }
    var _ := AllRan(job, n);
  }

  lemma {:induction false} ExecutedIncludes(job: Job, i: nat, n: nat, c: Code)
    requires job.Valid() && i < n <= |job.stages| && c in job.Reported(i).steps
    ensures c in job.Executed(n)
    decreases n
  {
    if i < n - 1 { ExecutedIncludes(job, i, n - 1, c); }
  }

  /** No stage after the first blocking one runs a step. */
  lemma {:induction false} NothingAfterBoundary(job: Job, n: nat)
    requires job.Valid() && job.Boundary(0) < n <= |job.stages|
    ensures job.Executed(n) == job.Executed(job.Boundary(0) + 1)
  {
    if n > job.Boundary(0) + 1 {
      NothingAfterBoundary(job, n - 1);
      SkippedAddsNothing(job, n - 1);
    }
  }

  lemma SkippedAddsNothing(job: Job, i: nat)
    requires job.Valid() && job.Boundary(0) < i < |job.stages|
    ensures job.Executed(i + 1) == job.Executed(i)
  {
    SkippedReport(job, i);
    assert job.Executed(i) + [] == job.Executed(i);
  }

  lemma VerdictSucceeds(job: Job)
    requires job.Valid()
    ensures var executed := job.Executed(|job.stages|);
            IsSuccessful(job.Verdict()) <==> !job.stopAtEnd && executed != [] && AllSuccessful(executed)
  {
    CombinedSucceeds(job.Executed(|job.stages|));
  }

  /** A job succeeds exactly when it has a step, no stop request was seen before a stage or at the end, and every
      step of every stage succeeded. */
  lemma JobSucceedsIff(job: Job)
    requires job.Valid() && job.StopsLatch()
    ensures IsSuccessful(job.Verdict())
       <==> && !job.stopAtEnd && (forall i | 0 <= i < |job.stages| :: !job.stops[i])
            && (forall i | 0 <= i < |job.stages| :: AllSuccessful(Codes(job.stages[i])))
            && StepCount(job.stages, |job.stages|) > 0
  {
    var b, n := job.Boundary(0), |job.stages|;
    VerdictSucceeds(job);
    if b == n {
      UnblockedSucceeds(job, n);
      UnblockedRunsAll(job, n);
      forall i | 0 <= i < n ensures !job.stops[i] && AllSuccessful(Codes(job.stages[i])) { assert !job.Blocks(i); }
    } else if !job.stops[b] {
      var c :| c in Codes(job.stages[b]) && !IsSuccessful(c);
      ExecutedIncludes(job, b, n, c);
    }
  }

  lemma StageSucceedsIff(stage: Stage)
    ensures AllSuccessful(Codes(stage)) <==> forall k | 0 <= k < |stage| :: Completes(stage[k].step, stage[k].stopped)
  {
    forall k | 0 <= k < |stage|
      ensures Codes(stage)[k] in Codes(stage) && (IsSuccessful(Codes(stage)[k]) <==> Completes(stage[k].step, stage[k].stopped))
    {
      StepSucceedsIff(stage[k].step, stage[k].stopped);
    }
  }

  /** In terms of what the steps asked: a job succeeds exactly when it has a step, no stop was ever
      seen, and every process, preflight and backup of every step went well. */
  lemma JobCompletesIff(job: Job)
    requires job.Valid() && job.StopsLatch()
    ensures IsSuccessful(job.Verdict())
       <==> && !job.stopAtEnd && (forall i | 0 <= i < |job.stages| :: !job.stops[i])
            && (forall i, k | 0 <= i < |job.stages| && 0 <= k < |job.stages[i]| ::
                  Completes(job.stages[i][k].step, job.stages[i][k].stopped))
            && StepCount(job.stages, |job.stages|) > 0
  {
    JobSucceedsIff(job);
    forall i | 0 <= i < |job.stages|
      ensures AllSuccessful(Codes(job.stages[i]))
         <==> forall k | 0 <= k < |job.stages[i]| :: Completes(job.stages[i][k].step, job.stages[i][k].stopped)
    {
      StageSucceedsIff(job.stages[i]);
    }
  }
}
