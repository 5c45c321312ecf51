/** What every reachable state and every step of the RDP workflow guarantees. */
module RdpTheorems {
  import opened Common
  import PushPolicy
  import opened RdpState
  import opened RdpSteps
  import opened RdpInvariant
  import opened RdpRuns

  // ----- recorded RDI ids -----

  /** Scheduling erases an id only after HOPE was asked, in this attempt, to reset that very id. */
  lemma SchedulingFollowsReset(s: State, e: Event, r: nat, x: string)
    requires RowsInv(s) && WorkersOk(s) && FirstScheduling(s, e, r) && s.rdps[r].rdi == Real(x)
    ensures (s.rdps[r].attempt.value, x) in s.resets
  {
    var a := s.rdps[r].attempt.value;
    if e.ScheduleBlock? {
      assert WorkerOk(s, s.workers[e.worker]);
      var j := PrepareJob(a, s.workers[e.worker].toReset);
      assert j in s.rdps[r].jobs;
    } else {
      var reset :| reset in s.resets && reset.0 == a;
      var j := PrepareJob(a, Some(reset.1));
      assert (reset.0, reset.1) in s.resets;
      assert j in s.rdps[r].jobs;
    }
  }

  /** A different merged id can only win after the attempt's data push was already scheduled. */
  lemma MergedWinsLate(s: State, e: Event, r: nat, x: string, y: string)
    requires RowsInv(s) && WorkersOk(s) && MergedAs(s, e, r, y) && s.rdps[r].rdi == Real(x) && y != x
    ensures DataJob(s.rdps[r].attempt.value) in s.rdps[r].jobs
  {
    assert WorkerOk(s, s.workers[e.worker]);
    var j := PrepareJob(s.workers[e.worker].attempt, Some(y));
    assert j in s.rdps[r].jobs;
  }

  /**
   * Over all runs: a step replaces the id recorded on an unfinished RDP if and only if it is the
   * first scheduling of the attempt's data push, after a requested reset of that id, or the late
   * answer that another id is merged. Cancelling, failing and retrying never do.
   */
  lemma {:induction false} RecordedIdForgotten(s0: State, events: seq<Event>, e: Event, r: nat, x: string)
    requires Initial(s0)
    requires var s := Run(s0, events); Recorded(s, r, x) && r in Apply(s, e).rdps
    ensures var s := Run(s0, events);
      && (Apply(s, e).rdps[r].rdi != Real(x) <==>
            FirstScheduling(s, e, r) || exists y :: y != x && MergedAs(s, e, r, y))
      && (FirstScheduling(s, e, r) ==> (s.rdps[r].attempt.value, x) in s.resets)
      && (forall y :: y != x && MergedAs(s, e, r, y) ==> DataJob(s.rdps[r].attempt.value) in s.rdps[r].jobs)
  {
    RunInv(s0, events);
    var s := Run(s0, events);
    ForgettingSteps(s, e, r, x);
    if FirstScheduling(s, e, r) {
      SchedulingFollowsReset(s, e, r, x);
    }
    forall y | y != x && MergedAs(s, e, r, y) ensures DataJob(s.rdps[r].attempt.value) in s.rdps[r].jobs {
      MergedWinsLate(s, e, r, x, y);
    }
  }

  /** A worker that created an RDI and ends its own attempt leaves that RDI recorded. */
  lemma {:induction false} CreatedIdSurvives(s0: State, events: seq<Event>, w: nat, x: string, failed: bool)
    requires Initial(s0)
    requires var s := Run(s0, events);
      && DataAt(s, w) && CreatedId(s.workers[w].data) == Some(x)
      && Current(s, s.workers[w].rdp, s.workers[w].attempt)
      && !Current(Apply(s, if failed then DataFailed(w) else CompleteBlock(w)), s.workers[w].rdp, s.workers[w].attempt)
    ensures var s := Run(s0, events); var r := s.workers[w].rdp;
      var t := Apply(s, if failed then DataFailed(w) else CompleteBlock(w));
      && r in t.rdps && t.rdps[r].rdi == Real(x)
      && t.rdps[r].status == (if failed then Failure else Success)
  {
    hide Inv, Run, Apply;
    RunInv(s0, events);
    if failed {
      FailingKeepsCreatedId(Run(s0, events), w, x);
    } else {
      CompletingKeepsCreatedId(Run(s0, events), w, x);
    }
  }

  lemma FailingKeepsCreatedId(s: State, w: nat, x: string)
    requires Inv(s) && DataAt(s, w) && CreatedId(s.workers[w].data) == Some(x)
    requires Current(s, s.workers[w].rdp, s.workers[w].attempt)
    requires !Current(Apply(s, DataFailed(w)), s.workers[w].rdp, s.workers[w].attempt)
    ensures var r, t := s.workers[w].rdp, Apply(s, DataFailed(w));
      r in t.rdps && t.rdps[r].rdi == Real(x) && t.rdps[r].status == Failure
  {
    assert WorkerOk(s, s.workers[w]);
  }

  lemma CompletingKeepsCreatedId(s: State, w: nat, x: string)
    requires DataAt(s, w) && CreatedId(s.workers[w].data) == Some(x)
    requires Current(s, s.workers[w].rdp, s.workers[w].attempt)
    requires !Current(Apply(s, CompleteBlock(w)), s.workers[w].rdp, s.workers[w].attempt)
    ensures var r, t := s.workers[w].rdp, Apply(s, CompleteBlock(w));
      r in t.rdps && t.rdps[r].rdi == Real(x) && t.rdps[r].status == Success
  {
  }

  // ----- operations -----

  /**
   * Past PENDING every operation has succeeded, and an operation runs only while its RDP is
   * PENDING, although any worker may fail or complete a run that is not its own.
   */
  lemma {:induction false} OperationsSettle(s0: State, events: seq<Event>, r: nat, k: Kind)
    requires Initial(s0)
    requires var s := Run(s0, events); HasOperation(s, r, k)
    ensures var s := Run(s0, events); var row := s.rdps[r];
      && (row.status in {ReviewPending, PushPending, Failure, Success} ==> row.operations[k].status == Succeeded)
      && (row.operations[k].status == Running ==> row.status == Pending)
  {
    RunInv(s0, events);
    var row := Run(s0, events).rdps[r];
    assert row.operations[k].status == Running ==> AnyRunning(row.operations);
  }

  /** Outside cleanup, a pending RDP with nothing left to run has an evaluation job. */
  lemma NoLostWakeUp(s0: State, events: seq<Event>, r: nat)
    requires Initial(s0)
    requires var s := Run(s0, events);
      && r in s.rdps && s.rdps[r].status == Pending && AllSucceeded(s.rdps[r].operations)
      && !CleanupInProgress(s, s.rdps[r].program)
    ensures EvaluateJob in Run(s0, events).rdps[r].jobs
  {
    RunInv(s0, events);
  }

  /** An operation that has never run can still be started by a job that exists. */
  lemma WaitingOperationsHaveJobs(s0: State, events: seq<Event>, r: nat, k: Kind)
    requires Initial(s0)
    requires var s := Run(s0, events);
      && HasOperation(s, r, k) && s.rdps[r].status == Pending && s.rdps[r].operations[k].status == Waiting
    ensures var s := Run(s0, events);
      OperationJob(k) in s.rdps[r].jobs || AwaitsRejection(s, s.rdps[r].program, r)
  {
    RunInv(s0, events);
  }

  // ----- one step -----

  /** What a step may do to a row that is there before and after. */
  ghost predicate RowSafe(s: State, e: Event, t: State, r: nat)
    requires r in s.rdps && r in t.rdps
  {
    var row, after := s.rdps[r], t.rdps[r];
    && after.program == row.program
    && (row.status == Cancelled ==> after.status == Cancelled)
    && (row.status == Success ==> after.status == Success || (e == ResetBlock(r) && after.status == Cancelled))
    && (after.attempt.Some? ==> after.attempt == row.attempt || after.attempt == Some(|s.attempts|))
    && (forall k :: k in row.operations ==>
          && k in after.operations && after.operations[k].threshold == row.operations[k].threshold
          && (row.operations[k].status == Succeeded ==> after.operations[k].status == Succeeded))
  }

  ghost predicate StepSafe(s: State, e: Event, t: State) {
    && |s.attempts| <= |t.attempts| && t.attempts[..|s.attempts|] == s.attempts
    && (forall r :: r in s.rdps && r in t.rdps ==> RowSafe(s, e, t, r))
    && (forall r :: r in t.rdps && r !in s.rdps ==>
          r == s.nextRdp && t.rdps[r].attempt == None && !CleanupInProgress(s, t.rdps[r].program))
    && (forall r :: r in s.rdps ==> r < t.nextRdp) && s.nextRdp <= t.nextRdp
    && (forall r :: r in s.rdps && r !in t.rdps ==> CleanupInProgress(s, s.rdps[r].program))
  }

  /** A block that writes one row is judged by that row alone. */
  lemma OneRowSafe(s: State, e: Event, t: State, r: nat)
    requires RowsOk(s) && r in s.rdps && r in t.rdps && t.rdps == s.rdps[r := t.rdps[r]]
    requires t.nextRdp == s.nextRdp
    requires t.attempts == s.attempts || t.attempts == s.attempts + [r]
    requires RowSafe(s, e, t, r)
    ensures StepSafe(s, e, t)
  {
  }

  lemma SameTableSafe(s: State, e: Event, t: State)
    requires RowsOk(s) && t.rdps == s.rdps && t.nextRdp == s.nextRdp && t.attempts == s.attempts
    ensures StepSafe(s, e, t)
  {
  }

  lemma InsertSafe(s: State, e: Event, row: Rdp)
    requires RowsOk(s) && row.attempt == None && !CleanupInProgress(s, row.program)
    ensures StepSafe(s, e, Insert(s, row))
  {
  }

  lemma CreateCleanSafe(s: State, r: nat, valid: bool, pushDate: int)
    requires RowsOk(s)
    ensures StepSafe(s, CleanBlock(r, valid, pushDate), CreateClean(s, r, valid, pushDate))
  {
    hide CleanSelection, Selectable, MeetsNoOther, CleanThresholds, NewOperations, HasUnfinished;
    var t, e := CreateClean(s, r, valid, pushDate), CleanBlock(r, valid, pushDate);
    if t == s {
      SameTableSafe(s, e, t);
    } else {
      var s1 := t.(rdps := t.rdps - {s.nextRdp}, nextRdp := s.nextRdp);
      assert s1.rdps == s.rdps[r := t.rdps[r]];
      OneRowSafe(s, e, s1, r);
      assert t.rdps == s1.rdps[s.nextRdp := t.rdps[s.nextRdp]];
    }
  }

  lemma CreateSafe(s: State, e: Event)
    requires RowsOk(s) && e.CreateBlock?
    ensures StepSafe(s, e, Apply(s, e))
  {
    hide StepSafe;
    var t := Apply(s, e);
    if t == s {
      SameTableSafe(s, e, t);
    } else {
      InsertSafe(s, e, NewRdp(e.program, e.selection, e.thresholds, e.pushDate, FirstJobs(e.thresholds)));
    }
  }

  lemma LifecycleSafe(s: State, e: Event)
    requires RowsOk(s) && (e.ResetBlock? || e.CancelBlock? || e.ReplacementBlock?)
    ensures StepSafe(s, e, Apply(s, e))
  {
    hide StepSafe;
    WrittenRowSafe(s, e, Apply(s, e), if e.ReplacementBlock? then e.replacement else e.rdp);
  }

  lemma RecordStepsSafe(s: State, e: Event)
    requires RowsOk(s) && IsRecordEvent(e)
    ensures StepSafe(s, e, Apply(s, e))
  {
    hide StepSafe;
    match e {
      case CleanBlock(r, valid, date) => CreateCleanSafe(s, r, valid, date);
      case Deleted(h, i) => DeleteSafe(s, h, i);
      case CreateBlock(_, _, _, _) => CreateSafe(s, e);
      case Imported(_, _) => SameTableSafe(s, e, Apply(s, e));
      case _ => LifecycleSafe(s, e);
    }
  }

  /** Either nothing happened to the table or one row was written safely. */
  lemma WrittenRowSafe(s: State, e: Event, t: State, r: nat)
    requires RowsOk(s) && t.nextRdp == s.nextRdp
    requires t.rdps != s.rdps || t.attempts != s.attempts ==>
      && r in s.rdps && r in t.rdps && t.rdps == s.rdps[r := t.rdps[r]]
      && (t.attempts == s.attempts || t.attempts == s.attempts + [r])
      && RowSafe(s, e, t, r)
    ensures StepSafe(s, e, t)
  {
    if t.rdps != s.rdps || t.attempts != s.attempts {
      OneRowSafe(s, e, t, r);
    } else {
      SameTableSafe(s, e, t);
    }
  }

  lemma DeleteSafe(s: State, households: set<nat>, individuals: set<nat>)
    requires RowsOk(s)
    ensures StepSafe(s, Deleted(households, individuals), Delete(s, households, individuals))
  {
  }

  lemma OperationStepsSafe(s: State, e: Event)
    requires RowsOk(s) && IsOperationEvent(e)
    ensures StepSafe(s, e, Apply(s, e))
  {
    hide StepSafe;
    if e.EvaluateBlock? || e.ReviewBlock? || e.RetryBlock? || e.StuckBlock? {
      PushStepsSafe(s, e);
    } else {
      WrittenRowSafe(s, e, Apply(s, e), e.rdp);
    }
  }

  lemma PushStepsSafe(s: State, e: Event)
    requires RowsOk(s) && (e.EvaluateBlock? || e.ReviewBlock? || e.RetryBlock? || e.StuckBlock?)
    ensures StepSafe(s, e, Apply(s, e))
  {
    hide StepSafe;
    WrittenRowSafe(s, e, Apply(s, e), e.rdp);
  }

  lemma PreparationStepsSafe(s: State, e: Event)
    requires RowsOk(s) && IsPreparationEvent(e)
    ensures StepSafe(s, e, Apply(s, e))
  {
    hide StepSafe;
    var t := Apply(s, e);
    if e.CallbackBlock? || e.CallbackRaised? {
      CallbackSafe(s, e);
    } else if e.MergedBlock? || e.ScheduleBlock? || e.PreparationFailed? {
      PreparationWorkerSafe(s, e);
    } else {
      SameTableSafe(s, e, t);
    }
  }

  lemma CallbackSafe(s: State, e: Event)
    requires RowsOk(s) && (e.CallbackBlock? || e.CallbackRaised?)
    ensures StepSafe(s, e, Apply(s, e))
  {
    hide StepSafe;
    WrittenRowSafe(s, e, Apply(s, e), e.rdp);
  }

  lemma PreparationWorkerSafe(s: State, e: Event)
    requires RowsOk(s) && (e.MergedBlock? || e.ScheduleBlock? || e.PreparationFailed?)
    ensures StepSafe(s, e, Apply(s, e))
  {
    hide StepSafe;
    WorkerStepSafe(s, e, Apply(s, e), e.worker);
  }

  lemma WorkerStepSafe(s: State, e: Event, t: State, w: nat)
    requires RowsOk(s) && t.nextRdp == s.nextRdp && t.attempts == s.attempts
    requires t.rdps != s.rdps ==>
      && w < |s.workers| && var r := s.workers[w].rdp;
      && r in s.rdps && r in t.rdps && t.rdps == s.rdps[r := t.rdps[r]] && RowSafe(s, e, t, r)
    ensures StepSafe(s, e, t)
  {
    if t.rdps != s.rdps {
      OneRowSafe(s, e, t, s.workers[w].rdp);
    } else {
      SameTableSafe(s, e, t);
    }
  }

  lemma DataStepsSafe(s: State, e: Event)
    requires RowsOk(s) && IsDataEvent(e)
    ensures StepSafe(s, e, Apply(s, e))
  {
    hide StepSafe;
    var t := Apply(s, e);
    if e.ClaimBlock? || e.ClaimRaised? {
      ClaimSafe(s, e);
    } else if e.RecordBlock? || e.CompleteBlock? || e.DataFailed? {
      DataWorkerSafe(s, e);
    } else {
      SameTableSafe(s, e, t);
    }
  }

  lemma ClaimSafe(s: State, e: Event)
    requires RowsOk(s) && (e.ClaimBlock? || e.ClaimRaised?)
    ensures StepSafe(s, e, Apply(s, e))
  {
    hide StepSafe;
    WrittenRowSafe(s, e, Apply(s, e), e.rdp);
  }

  lemma DataWorkerSafe(s: State, e: Event)
    requires RowsOk(s) && (e.RecordBlock? || e.CompleteBlock? || e.DataFailed?)
    ensures StepSafe(s, e, Apply(s, e))
  {
    hide StepSafe;
    WorkerStepSafe(s, e, Apply(s, e), e.worker);
  }

  lemma CleanupStepsSafe(s: State, e: Event)
    requires RowsOk(s) && IsCleanupEvent(e)
    ensures StepSafe(s, e, Apply(s, e))
  {
    if e.RdpsPurged? {
      PurgeSafe(s, e.program);
    } else {
      SameTableSafe(s, e, Apply(s, e));
    }
  }

  lemma PurgeSafe(s: State, p: nat)
    requires RowsOk(s)
    ensures StepSafe(s, RdpsPurged(p), Purge(s, p))
  {
  }

  lemma {:induction false} StepIsSafe(s: State, e: Event)
    requires RowsOk(s)
    ensures StepSafe(s, e, Apply(s, e))
  {
    hide StepSafe;
    if IsRecordEvent(e) {
      RecordStepsSafe(s, e);
    } else if IsOperationEvent(e) {
      OperationStepsSafe(s, e);
    } else if IsPreparationEvent(e) {
      PreparationStepsSafe(s, e);
    } else if IsDataEvent(e) {
      DataStepsSafe(s, e);
    } else {
      CleanupStepsSafe(s, e);
    }
  }

  // ----- whole runs -----

  /** An attempt that is over: its RDP no longer carries it. */
  ghost predicate Over(s: State, a: nat) {
    a < |s.attempts| && !Current(s, s.attempts[a], a)
  }

  lemma OverStays(s: State, e: Event, a: nat)
    requires Inv(s) && Over(s, a)
    ensures Over(Apply(s, e), a)
  {
    hide Apply;
    var t := Apply(s, e);
    StepInv(s, e);
    StepIsSafe(s, e);
    assert t.attempts[a] == t.attempts[..|s.attempts|][a];
    var r := s.attempts[a];
    if r in s.rdps && r in t.rdps {
      assert RowSafe(s, e, t, r) && RowOk(s.rdps[r]);
    }
  }

  /** A finished attempt never becomes current again, whatever happens afterwards. */
  lemma {:induction false} FinishedAttemptStaysOver(s0: State, events: seq<Event>, more: seq<Event>, a: nat)
    requires Initial(s0) && Over(Run(s0, events), a)
    ensures Over(Run(s0, events + more), a)
    decreases |more|
  {
    if more == [] {
      assert events + more == events;
    } else {
      hide Run, Inv, Apply, Over;
      var n := |more| - 1;
      FinishedAttemptStaysOver(s0, events, more[..n], a);
      RunInv(s0, events + more[..n]);
      OverStays(Run(s0, events + more[..n]), more[n], a);
      RunMore(s0, events, more);
    }
  }

  /** The attempt that a job, a callback or a worker acts for. */
  ghost function ActsFor(s: State, e: Event): Option<nat> {
    if e.StuckBlock? || e.PreparationStarted? || e.CallbackBlock? || e.CallbackRaised? || e.ClaimBlock? || e.ClaimRaised?
    then Some(e.attempt)
    else if OfWorker(e) && e.worker < |s.workers| then Some(s.workers[e.worker].attempt)
    else None
  }

  predicate OfWorker(e: Event) {
    e.ResetAnswered? || e.MergedBlock? || e.ScheduleBlock? || e.PreparationRaised? || e.PreparationFailed? || e.Preflight?
    || e.CreateAnswered? || e.RecordBlock? || e.AllSent? || e.CompleteBlock? || e.DataRaised? || e.DataFailed?
  }

  /** Whatever is still running for a finished attempt changes neither RDPs nor beneficiaries. */
  lemma {:induction false} FinishedAttemptIsInert(s0: State, events: seq<Event>, e: Event, a: nat)
    requires Initial(s0) && Over(Run(s0, events), a) && ActsFor(Run(s0, events), e) == Some(a)
    ensures var s := Run(s0, events); var t := Apply(s, e);
      t.rdps == s.rdps && t.households == s.households && t.individuals == s.individuals
  {
    RunInv(s0, events);
    OverIsInert(Run(s0, events), e, a);
  }

  lemma OverIsInert(s: State, e: Event, a: nat)
    requires AttemptsOk(s) && WorkersOk(s) && Over(s, a) && ActsFor(s, e) == Some(a)
    ensures var t := Apply(s, e);
      t.rdps == s.rdps && t.households == s.households && t.individuals == s.individuals
  {
    assert forall r: nat :: !Current(s, r, a);
    if OfWorker(e) {
      StaleWorkerIsInert(s, e, a);
    } else {
      StaleJobIsInert(s, e, a);
    }
  }

  lemma StaleWorkerIsInert(s: State, e: Event, a: nat)
    requires OfWorker(e) && e.worker < |s.workers| && s.workers[e.worker].attempt == a
    requires !Current(s, s.workers[e.worker].rdp, a)
    ensures var t := Apply(s, e);
      t.rdps == s.rdps && t.households == s.households && t.individuals == s.individuals
  {
    if e.RecordBlock? || e.CompleteBlock? || e.DataFailed? {
      StaleDataWorkerIsInert(s, e, a);
    } else if e.MergedBlock? || e.ScheduleBlock? || e.PreparationFailed? {
      StalePreparationIsInert(s, e, a);
    }
  }

  lemma StalePreparationIsInert(s: State, e: Event, a: nat)
    requires (e.MergedBlock? || e.ScheduleBlock? || e.PreparationFailed?) && e.worker < |s.workers| && s.workers[e.worker].attempt == a
    requires !Current(s, s.workers[e.worker].rdp, a)
    ensures var t := Apply(s, e);
      t.rdps == s.rdps && t.households == s.households && t.individuals == s.individuals
  {
  }

  lemma StaleDataWorkerIsInert(s: State, e: Event, a: nat)
    requires (e.RecordBlock? || e.CompleteBlock? || e.DataFailed?) && e.worker < |s.workers| && s.workers[e.worker].attempt == a
    requires !Current(s, s.workers[e.worker].rdp, a)
    ensures var t := Apply(s, e);
      t.rdps == s.rdps && t.households == s.households && t.individuals == s.individuals
  {
  }

  lemma StaleJobIsInert(s: State, e: Event, a: nat)
    requires e.StuckBlock? || e.PreparationStarted? || e.CallbackBlock? || e.CallbackRaised? || e.ClaimBlock? || e.ClaimRaised?
    requires e.attempt == a && !Current(s, e.rdp, a)
    ensures var t := Apply(s, e);
      t.rdps == s.rdps && t.households == s.households && t.individuals == s.individuals
  {
  }

  lemma RunMore(s0: State, events: seq<Event>, more: seq<Event>)
    requires more != []
    ensures var n := |more| - 1; Run(s0, events + more) == Apply(Run(s0, events + more[..n]), more[n])
  {
    assert (events + more)[..|events + more| - 1] == events + more[..|more| - 1];
  }

  /** The RDP was cancelled, or cancelled and since deleted by a cleanup. */
  ghost predicate CancelledOrGone(s: State, r: nat) {
    r < s.nextRdp && (r in s.rdps ==> s.rdps[r].status == Cancelled)
  }

  lemma CancelledStays(s: State, e: Event, r: nat)
    requires Inv(s) && CancelledOrGone(s, r)
    ensures CancelledOrGone(Apply(s, e), r)
  {
    hide Apply;
    StepIsSafe(s, e);
    assert r in s.rdps && r in Apply(s, e).rdps ==> RowSafe(s, e, Apply(s, e), r);
  }

  /** CANCELLED is absorbing, and no later RDP takes the place of a deleted one. */
  lemma {:induction false} CancelledForever(s0: State, events: seq<Event>, more: seq<Event>, r: nat)
    requires Initial(s0) && r in Run(s0, events).rdps && Run(s0, events).rdps[r].status == Cancelled
    ensures CancelledOrGone(Run(s0, events + more), r)
    decreases |more|
  {
    if more == [] {
      assert events + more == events;
      RunInv(s0, events);
    } else {
      hide Run, Inv, Apply, CancelledOrGone;
      var n := |more| - 1;
      CancelledForever(s0, events, more[..n], r);
      RunInv(s0, events + more[..n]);
      CancelledStays(Run(s0, events + more[..n]), more[n], r);
      RunMore(s0, events, more);
    }
  }

  /** The RDP, while it exists, has this operation with this threshold. */
  ghost predicate HasThreshold(s: State, r: nat, k: Kind, threshold: PushPolicy.Threshold) {
    r < s.nextRdp && (r in s.rdps ==> k in s.rdps[r].operations && s.rdps[r].operations[k].threshold == threshold)
  }

  lemma ThresholdStays(s: State, e: Event, r: nat, k: Kind, threshold: PushPolicy.Threshold)
    requires Inv(s) && HasThreshold(s, r, k, threshold)
    ensures HasThreshold(Apply(s, e), r, k, threshold)
  {
    hide Apply;
    StepIsSafe(s, e);
    assert r in s.rdps && r in Apply(s, e).rdps ==> RowSafe(s, e, Apply(s, e), r);
  }

  /** No step of any run changes the threshold an RDP was created with. */
  lemma {:induction false} ThresholdForever(s0: State, events: seq<Event>, more: seq<Event>, r: nat, k: Kind,
                                            threshold: PushPolicy.Threshold)
    requires Initial(s0) && HasThreshold(Run(s0, events), r, k, threshold)
    ensures HasThreshold(Run(s0, events + more), r, k, threshold)
    decreases |more|
  {
    if more == [] {
      assert events + more == events;
    } else {
      hide Run, Inv, Apply, HasThreshold;
      var n := |more| - 1;
      ThresholdForever(s0, events, more[..n], r, k, threshold);
      RunInv(s0, events + more[..n]);
      ThresholdStays(Run(s0, events + more[..n]), more[n], r, k, threshold);
      RunMore(s0, events, more);
    }
  }

  lemma {:induction false} SuccessLeavesByReset(s0: State, events: seq<Event>, e: Event, r: nat)
    requires Initial(s0)
    requires var s := Run(s0, events);
      r in s.rdps && s.rdps[r].status == Success && r in Apply(s, e).rdps && Apply(s, e).rdps[r].status != Success
    ensures e == ResetBlock(r) && Apply(Run(s0, events), e).rdps[r].status == Cancelled
    ensures !LaterSuccess(Run(s0, events), r)
  {
    RunInv(s0, events);
    StepIsSafe(Run(s0, events), e);
    assert RowSafe(Run(s0, events), e, Apply(Run(s0, events), e), r);
  }

  /** PUSH_PENDING goes with an attempt id, and a programme has at most one unfinished RDP. */
  lemma {:induction false} AttemptsMatchStatus(s0: State, events: seq<Event>, r: nat, q: nat)
    requires Initial(s0) && r in Run(s0, events).rdps && q in Run(s0, events).rdps
    ensures var s := Run(s0, events);
      && (s.rdps[r].status == PushPending <==> s.rdps[r].attempt.Some?)
      && (s.rdps[r].program == s.rdps[q].program && s.rdps[r].status.Unfinished() && s.rdps[q].status.Unfinished()
          ==> r == q)
  {
    RunInv(s0, events);
  }

  // ----- programme cleanup -----

  /** While a programme is being cleaned none of its RDPs is being pushed and none appears. */
  lemma {:induction false} CleanupIsExclusive(s0: State, events: seq<Event>, e: Event, p: nat)
    requires Initial(s0) && CleanupInProgress(Run(s0, events), p)
    ensures var s := Run(s0, events); var t := Apply(s, e);
      && !PushIsPending(s, p)
      && (forall r :: r in t.rdps && t.rdps[r].program == p ==> r in s.rdps)
  {
    RunInv(s0, events);
    var s := Run(s0, events);
    StepIsSafe(s, e);
  }
}
