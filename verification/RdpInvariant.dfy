/** The inductive invariant of the RDP workflow and its preservation by every step. */
module RdpInvariant {
  import opened Common
  import opened RdpState
  import opened RdpSteps

  /** No successful RDP of the programme shares a beneficiary with this one. */
  ghost predicate NoOverlap(s: State, r: nat)
    requires r in s.rdps
  {
    forall o :: o in s.rdps && o != r && s.rdps[o].program == s.rdps[r].program && s.rdps[o].status == Success
      ==> s.rdps[o].selection !! s.rdps[r].selection
  }

  /** What one row satisfies by itself. */
  ghost predicate RowOk(row: Rdp) {
    && (row.status == PushPending <==> row.attempt.Some?)
    && (row.status in {ReviewPending, PushPending, Failure, Success} ==> AllSucceeded(row.operations))
    && (AnyRunning(row.operations) ==> row.status == Pending)
    && (row.status in {Pending, ReviewPending} ==> row.rdi == Unset)
    && (row.status in {Failure, Cancelled} ==> row.rdi != Unset)
    && (row.status == Success ==> row.rdi.Real?)
  }

  ghost predicate Owns(s: State, r: nat, attempt: nat) {
    attempt < |s.attempts| && s.attempts[attempt] == r
  }

  ghost predicate RowsOk(s: State) {
    forall r :: r in s.rdps ==>
      && r < s.nextRdp && s.rdps[r].program in s.programs && RowOk(s.rdps[r])
  }

  /** Attempts and their jobs belong to the RDP that started them. */
  ghost predicate AttemptsOk(s: State) {
    && (forall r :: r in s.rdps && s.rdps[r].attempt.Some? ==> Owns(s, r, s.rdps[r].attempt.value))
    && (forall r, j :: r in s.rdps && j in s.rdps[r].jobs && (j.PrepareJob? || j.DataJob?) ==> Owns(s, r, j.attempt))
  }

  /** Until the data push is scheduled, the preparation job names the recorded id. */
  ghost predicate PreparationsOk(s: State) {
    forall r, j ::
      && r in s.rdps && j in s.rdps[r].jobs
      && j.PrepareJob? && s.rdps[r].attempt == Some(j.attempt)
      ==>
      && (j.toReset.Some? ==> NoOverlap(s, r))
      && (DataJob(j.attempt) !in s.rdps[r].jobs ==> j.toReset == ToReset(s.rdps[r].rdi))
  }

  ghost predicate RealIdsClean(s: State) {
    forall r :: r in s.rdps && s.rdps[r].status.Unfinished() && s.rdps[r].rdi.Real? ==> NoOverlap(s, r)
  }

  ghost predicate OneUnfinished(s: State) {
    forall r, o ::
      && r in s.rdps && s.rdps[r].status.Unfinished()
      && o in s.rdps && s.rdps[o].status.Unfinished()
      && s.rdps[r].program == s.rdps[o].program
      ==> r == o
  }

  ghost predicate TablesOk(s: State) {
    && (forall r, b :: r in s.rdps && b in s.rdps[r].selection ==>
          if MasterDetail(s, s.rdps[r].program) then b in s.households && s.households[b].program == s.rdps[r].program
          else b in s.individuals && s.individuals[b].program == s.rdps[r].program)
    && (forall i :: i in s.individuals && s.individuals[i].household.Some? ==>
          && s.individuals[i].household.value in s.households
          && s.households[s.individuals[i].household.value].program == s.individuals[i].program)
  }

  ghost predicate SuccessesDisjoint(s: State) {
    forall r :: r in s.rdps && s.rdps[r].status == Success ==> NoOverlap(s, r)
  }

  /** Every beneficiary represented by the RDP is removed. */
  ghost predicate BeneficiariesRemoved(s: State, r: nat)
    requires r in s.rdps
  {
    var row := s.rdps[r];
    && (MasterDetail(s, row.program) ==>
          forall h :: h in row.selection && h in s.households ==> s.households[h].removed)
    && (forall i :: i in s.individuals
          && (if MasterDetail(s, row.program)
              then s.individuals[i].household.Some? && s.individuals[i].household.value in row.selection
              else i in row.selection)
          ==> s.individuals[i].removed)
  }

  ghost predicate SuccessesRemoved(s: State) {
    forall r :: r in s.rdps && s.rdps[r].status == Success ==> BeneficiariesRemoved(s, r)
  }

  ghost predicate WorkerOk(s: State, w: Worker) {
    && Owns(s, w.rdp, w.attempt)
    && (w.Preparation? ==>
          && (Current(s, w.rdp, w.attempt) ==> PrepareJob(w.attempt, w.toReset) in s.rdps[w.rdp].jobs)
          && (w.preparation == ReadyToSchedule && w.toReset.Some? ==> (w.attempt, w.toReset.value) in s.resets))
    && (w.DataPush? && Current(s, w.rdp, w.attempt) ==>
          var row := s.rdps[w.rdp];
          && DataJob(w.attempt) in row.jobs
          && match w.data
             case Claimed => row.rdi == NotAvailable
             case Checked => row.rdi == NotAvailable && NoOverlap(s, w.rdp)
             case Created(x) => row.rdi == NotAvailable && NoOverlap(s, w.rdp)
             case Pushing(x) => row.rdi == Real(x)
             case Pushed(x) => row.rdi == Real(x)
             case DataFailing(None) => row.rdi == NotAvailable
             case DataFailing(Some(x)) => row.rdi in {NotAvailable, Real(x)} && NoOverlap(s, w.rdp)
             case DataOver => false)
  }

  ghost predicate WorkersOk(s: State) {
    forall i :: 0 <= i < |s.workers| ==> WorkerOk(s, s.workers[i])
  }

  /** An attempt is claimed for data push by at most one worker. */
  ghost predicate ClaimedOnce(s: State) {
    forall i, j :: 0 <= i < j < |s.workers| && s.workers[i].DataPush? && s.workers[j].DataPush?
      ==> s.workers[i].attempt != s.workers[j].attempt
  }

  ghost predicate HasCreated(w: Worker, attempt: nat) {
    w.DataPush? && w.attempt == attempt && w.data !in {Claimed, Checked}
  }

  /** HOPE's create endpoint is called at most once per attempt, and only by the worker that claimed it. */
  ghost predicate CreationsOk(s: State) {
    && NoDuplicates(s.creations)
    && (forall a :: a in s.creations ==>
          exists i :: 0 <= i < |s.workers| && HasCreated(s.workers[i], a))
  }

  ghost predicate ResetsOk(s: State) {
    forall a, x :: (a, x) in s.resets ==>
      && a < |s.attempts|
      && (Current(s, s.attempts[a], a) ==> PrepareJob(a, Some(x)) in s.rdps[s.attempts[a]].jobs)
  }

  /** Outside cleanup, a pending RDP whose operations all succeeded has an evaluation job. */
  ghost predicate Awake(s: State) {
    forall r ::
      && r in s.rdps && s.rdps[r].status == Pending
      && AllSucceeded(s.rdps[r].operations) && !CleanupInProgress(s, s.rdps[r].program)
      ==> EvaluateJob in s.rdps[r].jobs
  }

  /** A cancelled RDP of the programme still holds the job that goes on to schedule r. */
  ghost predicate AwaitsRejection(s: State, program: nat, r: nat) {
    exists o :: o in s.rdps && s.rdps[o].status == Cancelled && s.rdps[o].program == program
      && RejectJob(Some(r)) in s.rdps[o].jobs
  }

  /** An operation that never ran has a job, or its RDP waits for the rejection of the set it replaces. */
  ghost predicate OperationsReachable(s: State) {
    forall r, k ::
      && r in s.rdps && s.rdps[r].status == Pending
      && k in s.rdps[r].operations && s.rdps[r].operations[k].status == Waiting
      ==> OperationJob(k) in s.rdps[r].jobs || AwaitsRejection(s, s.rdps[r].program, r)
  }

  ghost predicate CleanupOk(s: State) {
    forall r :: r in s.rdps && CleanupInProgress(s, s.rdps[r].program) ==>
      s.rdps[r].status != PushPending && !s.programs[s.rdps[r].program].purged
  }

  /** Everything that does not speak of workers. */
  ghost predicate RowsInv(s: State) {
    && RowsOk(s) && AttemptsOk(s) && PreparationsOk(s) && RealIdsClean(s) && OneUnfinished(s)
    && SuccessesDisjoint(s) && ResetsOk(s)
    && Awake(s) && OperationsReachable(s) && CleanupOk(s)
  }

  ghost predicate Inv(s: State) {
    && RowsInv(s)
    && TablesOk(s) && SuccessesRemoved(s)
    && WorkersOk(s) && ClaimedOnce(s) && CreationsOk(s)
  }

  lemma InitialInv(s: State)
    requires Initial(s)
    ensures Inv(s)
  {
  }


  // ----- changing one row -----

  ghost predicate SameRecords(s: State, t: State) {
    && t.households.Keys == s.households.Keys && t.individuals.Keys == s.individuals.Keys
    && (forall h :: h in s.households ==> t.households[h].program == s.households[h].program)
    && (forall i :: i in s.individuals ==>
          t.individuals[i].program == s.individuals[i].program
          && t.individuals[i].household == s.individuals[i].household)
  }

  /** How the row of an attempt may go on: a new attempt begins, or the present one continues. */
  ghost predicate AttemptGoesOn(row: Rdp, after: Rdp, next: nat) {
    after.attempt.Some? ==>
      var a := after.attempt.value;
      if a == next
      then after.jobs == row.jobs + {PrepareJob(a, ToReset(row.rdi))} && after.rdi == row.rdi
      else
        && row.attempt == after.attempt
        && (forall j :: j in after.jobs && j !in row.jobs && j.PrepareJob? ==> false)
        && (DataJob(a) in after.jobs || after.rdi == row.rdi)
  }

  /** The effect on one row of every block that does not create or delete an RDP. */
  ghost predicate RowStep(s: State, row: Rdp, after: Rdp, r: nat, next: nat) {
    && after.program == row.program && after.selection == row.selection
    && RowOk(after)
    && (after.status.Unfinished() ==> row.status.Unfinished())
    && (row.status == Cancelled ==> after.status == Cancelled)
    && row.jobs <= after.jobs
    && (forall j :: j in after.jobs && j !in row.jobs && (j.PrepareJob? || j.DataJob?) ==> after.attempt == Some(j.attempt))
    && AttemptGoesOn(row, after, next)
    && (after.status == Pending ==>
          && row.status == Pending
          && (forall k :: k in after.operations && after.operations[k].status == Waiting ==>
                k in row.operations && row.operations[k].status == Waiting)
          && (AllSucceeded(after.operations) && !CleanupInProgress(s, row.program) ==> EvaluateJob in after.jobs))
    && (after.status == PushPending ==> row.status == PushPending || !CleanupInProgress(s, row.program))
  }

  ghost predicate RowChange(s: State, t: State, r: nat) {
    && r in s.rdps && r in t.rdps && t.rdps == s.rdps[r := t.rdps[r]]
    && t.programs == s.programs && t.nextRdp == s.nextRdp && t.resets == s.resets
    && (t.attempts == s.attempts || (t.attempts == s.attempts + [r] && t.rdps[r].attempt == Some(|s.attempts|)))
    && (t.attempts == s.attempts ==> t.rdps[r].attempt != Some(|s.attempts|))
    && RowStep(s, s.rdps[r], t.rdps[r], r, |s.attempts|)
    && (t.rdps[r].status == Success || (t.rdps[r].status.Unfinished() && t.rdps[r].rdi.Real?) ==>
          s.rdps[r].status.Unfinished() && NoOverlap(s, r))
  }

  lemma RowChangeRows(s: State, t: State, r: nat)
    requires RowsOk(s) && AttemptsOk(s) && RowChange(s, t, r)
    ensures RowsOk(t) && AttemptsOk(t)
  {
  }

  lemma RowChangeOverlap(s: State, t: State, r: nat)
    requires OneUnfinished(s) && SuccessesDisjoint(s) && RealIdsClean(s) && RowChange(s, t, r)
    ensures OneUnfinished(t) && SuccessesDisjoint(t) && RealIdsClean(t)
  {
  }

  /** An unfinished RDP free of overlaps stays so. */
  lemma RowChangeKeepsFree(s: State, t: State, r: nat, q: nat)
    requires OneUnfinished(s) && RowChange(s, t, r)
    requires q in s.rdps && s.rdps[q].status.Unfinished() && NoOverlap(s, q)
    ensures NoOverlap(t, q)
  {
  }

  lemma RowChangePreparations(s: State, t: State, r: nat)
    requires RowsOk(s) && AttemptsOk(s) && OneUnfinished(s) && RealIdsClean(s) && PreparationsOk(s) && RowChange(s, t, r)
    ensures PreparationsOk(t)
  {
    forall q, j |
      && q in t.rdps && j in t.rdps[q].jobs
      && j.PrepareJob? && t.rdps[q].attempt == Some(j.attempt)
      ensures j.toReset.Some? ==> NoOverlap(t, q)
      ensures DataJob(j.attempt) !in t.rdps[q].jobs ==> j.toReset == ToReset(t.rdps[q].rdi)
    {
      if j.toReset.Some? {
        assert s.rdps[q].status.Unfinished() && NoOverlap(s, q);
        RowChangeKeepsFree(s, t, r, q);
      }
    }
  }

  lemma RowChangeResets(s: State, t: State, r: nat)
    requires RowsOk(s) && AttemptsOk(s) && ResetsOk(s) && RowChange(s, t, r)
    ensures ResetsOk(t)
  {
  }

  lemma RowChangeProgress(s: State, t: State, r: nat)
    requires Awake(s) && OperationsReachable(s) && CleanupOk(s) && RowChange(s, t, r)
    ensures Awake(t) && OperationsReachable(t) && CleanupOk(t)
  {
    forall a: nat, q: nat | AwaitsRejection(s, a, q) ensures AwaitsRejection(t, a, q) {
      var o :| o in s.rdps && s.rdps[o].status == Cancelled && s.rdps[o].program == a && RejectJob(Some(q)) in s.rdps[o].jobs;
      assert o in t.rdps && t.rdps[o].status == Cancelled && t.rdps[o].program == a && RejectJob(Some(q)) in t.rdps[o].jobs;
    }
  }

  lemma RowChangeInv(s: State, t: State, r: nat)
    requires RowsInv(s) && RowChange(s, t, r)
    ensures RowsInv(t)
  {
    RowChangeRows(s, t, r);
    RowChangeOverlap(s, t, r);
    RowChangePreparations(s, t, r);
    RowChangeResets(s, t, r);
    RowChangeProgress(s, t, r);
  }

  // ----- workers that a step does not touch -----

  /** Going from s to t disturbs no worker, except perhaps data workers of the attempt `touched`. */
  ghost predicate Keeps(s: State, t: State, touched: Option<nat>) {
    && |s.attempts| <= |t.attempts| && t.attempts[..|s.attempts|] == s.attempts
    && s.resets <= t.resets
    && (forall r, a: nat :: Current(t, r, a) && a < |s.attempts| ==>
          && Current(s, r, a)
          && s.rdps[r].jobs <= t.rdps[r].jobs
          && (NoOverlap(s, r) ==> NoOverlap(t, r))
          && (touched != Some(a) ==> t.rdps[r].rdi == s.rdps[r].rdi))
  }

  lemma WorkerKept(s: State, t: State, touched: Option<nat>, x: Worker)
    requires WorkerOk(s, x) && Keeps(s, t, touched)
    requires x.Preparation? || touched != Some(x.attempt)
    ensures WorkerOk(t, x)
  {
    assert t.attempts[x.attempt] == t.attempts[..|s.attempts|][x.attempt];
  }

  lemma RowChangeKeeps(s: State, t: State, r: nat, touched: Option<nat>)
    requires RowsOk(s) && AttemptsOk(s) && OneUnfinished(s) && RowChange(s, t, r)
    requires t.rdps[r].rdi == s.rdps[r].rdi || t.rdps[r].attempt == None || t.rdps[r].attempt == touched
    ensures Keeps(s, t, touched)
  {
    forall q, a: nat | Current(t, q, a) && a < |s.attempts|
      ensures Current(s, q, a) && s.rdps[q].jobs <= t.rdps[q].jobs
      ensures NoOverlap(s, q) ==> NoOverlap(t, q)
      ensures touched != Some(a) ==> t.rdps[q].rdi == s.rdps[q].rdi
    {
      if NoOverlap(s, q) {
        RowChangeKeepsFree(s, t, r, q);
      }
    }
  }

  lemma RowChangeTables(s: State, t: State, r: nat)
    requires TablesOk(s) && RowChange(s, t, r) && SameRecords(s, t)
    ensures TablesOk(t)
  {
  }

  /** A row change by a block that runs outside the workers. */
  lemma QuietInv(s: State, t: State, r: nat)
    requires Inv(s) && RowChange(s, t, r)
    requires t.households == s.households && t.individuals == s.individuals
    requires t.workers == s.workers && t.creations == s.creations
    requires t.rdps[r].rdi == s.rdps[r].rdi || t.rdps[r].attempt == None
    requires t.rdps[r].status != Success
    ensures Inv(t)
  {
    QuietRemoved(s, t, r);
    RowChangeTables(s, t, r);
    hide RowChange, SuccessesRemoved, TablesOk;
    RowChangeInv(s, t, r);
    RowChangeKeeps(s, t, r, None);
    KeptWorkers(s, t);
  }

  lemma QuietRemoved(s: State, t: State, r: nat)
    requires SuccessesRemoved(s) && RowChange(s, t, r)
    requires t.households == s.households && t.individuals == s.individuals
    requires t.rdps[r].status != Success
    ensures SuccessesRemoved(t)
  {
    forall q | q in t.rdps && t.rdps[q].status == Success ensures BeneficiariesRemoved(t, q) {
      assert BeneficiariesRemoved(s, q);
    }
  }

  // ----- blocks that change one row -----

  lemma {:induction false} CancelInv(s: State, r: nat, rejection: bool)
    requires Inv(s)
    ensures Inv(Cancel(s, r, rejection))
  {
    hide WorkersOk, ClaimedOnce, CreationsOk, TablesOk, SuccessesRemoved;
    if CancelAllowed(s, r) {
      QuietInv(s, Cancel(s, r, rejection), r);
    }
  }

  lemma {:induction false} ContinueReplacementInv(s: State, r: nat, replacement: nat)
    requires Inv(s)
    ensures Inv(ContinueReplacement(s, r, replacement))
  {
    hide WorkersOk, ClaimedOnce, CreationsOk, TablesOk, SuccessesRemoved;
    var t := ContinueReplacement(s, r, replacement);
    if t != s {
      QuietInv(s, t, replacement);
    }
  }

  lemma {:induction false} ClaimOperationInv(s: State, r: nat, k: Kind)
    requires Inv(s)
    ensures Inv(ClaimOperation(s, r, k))
  {
    hide WorkersOk, ClaimedOnce, CreationsOk, TablesOk, SuccessesRemoved;
    var t := ClaimOperation(s, r, k);
    if ClaimAllowed(s, r, k) {
      assert t.rdps[r].operations[k].status == Running;
      QuietInv(s, t, r);
    }
  }

  lemma {:induction false} FailOperationInv(s: State, r: nat, k: Kind)
    requires Inv(s)
    ensures Inv(FailOperation(s, r, k))
  {
    hide WorkersOk, ClaimedOnce, CreationsOk, TablesOk, SuccessesRemoved;
    var t := FailOperation(s, r, k);
    if IsRunning(s, r, k) {
      assert AnyRunning(s.rdps[r].operations);
      assert t.rdps[r].operations[k].status == Failed;
      QuietInv(s, t, r);
    }
  }

  lemma {:induction false} CompleteOperationInv(s: State, r: nat, k: Kind, findings: seq<Finding>)
    requires Inv(s)
    ensures Inv(CompleteOperation(s, r, k, findings))
  {
    hide WorkersOk, ClaimedOnce, CreationsOk, TablesOk, SuccessesRemoved;
    if IsRunning(s, r, k) {
      assert AnyRunning(s.rdps[r].operations);
      CompletedChange(s, r, k, findings);
      hide RowChange, RowsInv;
      QuietInv(s, CompleteOperation(s, r, k, findings), r);
    }
  }

  lemma CompletedChange(s: State, r: nat, k: Kind, findings: seq<Finding>)
    requires RowsInv(s) && IsRunning(s, r, k) && AnyRunning(s.rdps[r].operations)
    ensures RowChange(s, CompleteOperation(s, r, k, findings), r)
  {
  }

  lemma RetryOperationsInv(s: State, r: nat)
    requires Inv(s)
    ensures Inv(RetryOperations(s, r))
  {
    hide WorkersOk, ClaimedOnce, CreationsOk, TablesOk, SuccessesRemoved;
    var t := RetryOperations(s, r);
    if t != s {
      QuietInv(s, t, r);
    }
  }

  lemma StartPushInv(s: State, r: nat)
    requires Inv(s) && r in s.rdps
    requires s.rdps[r].status in {Pending, ReviewPending, Failure} && AllSucceeded(s.rdps[r].operations)
    requires !CleanupInProgress(s, s.rdps[r].program)
    ensures Inv(StartPush(s, r))
  {
    QuietInv(s, StartPush(s, r), r);
  }

  lemma {:induction false} EvaluateInv(s: State, r: nat)
    requires Inv(s)
    ensures Inv(Evaluate(s, r))
  {
    hide WorkersOk, ClaimedOnce, CreationsOk, TablesOk, SuccessesRemoved;
    match Verdict(s, r)
    case NotEvaluated =>
    case EvaluationError =>
    case Review => QuietInv(s, Evaluate(s, r), r);
    case PushNow => StartPushInv(s, r);
  }

  lemma {:induction false} ReviewPushInv(s: State, r: nat)
    requires Inv(s)
    ensures Inv(ReviewPush(s, r))
  {
    hide WorkersOk, ClaimedOnce, CreationsOk, TablesOk, SuccessesRemoved;
    if r in s.rdps && !CleanupInProgress(s, s.rdps[r].program) && s.rdps[r].status == ReviewPending {
      StartPushInv(s, r);
    }
  }

  lemma {:induction false} RetryPushInv(s: State, r: nat)
    requires Inv(s)
    ensures Inv(RetryPush(s, r))
  {
    hide WorkersOk, ClaimedOnce, CreationsOk, TablesOk, SuccessesRemoved;
    if r in s.rdps && !CleanupInProgress(s, s.rdps[r].program) && s.rdps[r].status == Failure
       && AllSucceeded(s.rdps[r].operations) {
      StartPushInv(s, r);
    }
  }

  lemma {:induction false} FailPendingPushInv(s: State, r: nat, a: nat, known: Option<string>)
    requires Inv(s)
    requires Current(s, r, a) && known.Some? ==> NoOverlap(s, r)
    ensures Inv(FailPendingPush(s, r, a, known))
  {
    hide WorkersOk, ClaimedOnce, CreationsOk, TablesOk, SuccessesRemoved;
    if Current(s, r, a) {
      QuietInv(s, FailPendingPush(s, r, a, known), r);
    }
  }

  lemma {:induction false} SchedulePushDataInv(s: State, r: nat, a: nat)
    requires Inv(s)
    ensures Inv(SchedulePushData(s, r, a))
  {
    var t := SchedulePushData(s, r, a);
    if t != s {
      ScheduledChange(s, r, a);
      QuietRemoved(s, t, r);
      RowChangeTables(s, t, r);
      ScheduledWorkers(s, r, a);
      hide RowChange, SuccessesRemoved, TablesOk, WorkersOk, CreationsOk;
      RowChangeInv(s, t, r);
    }
  }

  lemma ScheduledChange(s: State, r: nat, a: nat)
    requires RowsInv(s) && SchedulePushData(s, r, a) != s
    ensures RowChange(s, SchedulePushData(s, r, a), r)
  {
  }

  /** No data worker of the attempt exists before its data job does. */
  lemma ScheduledWorkers(s: State, r: nat, a: nat)
    requires RowsInv(s) && WorkersOk(s) && SchedulePushData(s, r, a) != s && RowChange(s, SchedulePushData(s, r, a), r)
    ensures WorkersOk(SchedulePushData(s, r, a))
  {
    var t := SchedulePushData(s, r, a);
    RowChangeKeeps(s, t, r, Some(a));
    hide RowChange;
    forall i | 0 <= i < |t.workers| ensures WorkerOk(t, t.workers[i]) {
      assert WorkerOk(s, s.workers[i]);
      WorkerKept(s, t, Some(a), s.workers[i]);
    }
  }

  lemma FailStuckInv(s: State, r: nat, a: nat)
    requires Inv(s)
    ensures Inv(FailStuck(s, r, a))
  {
    if FailStuck(s, r, a) != s {
      FailPendingPushInv(s, r, a, ToReset(s.rdps[r].rdi));
    }
  }

  lemma CallbackInv(s: State, r: nat, a: nat)
    requires Inv(s)
    ensures Inv(Callback(s, r, a)) && Inv(CallbackError(s, r, a))
  {
    if TokenIssued(s, r, a) {
      SchedulePushDataInv(s, r, a);
      FailPendingPushInv(s, r, a, None);
    }
  }

  // ----- steps of a worker -----

  ghost predicate SameRows(s: State, t: State) {
    && t.programs == s.programs && t.households == s.households && t.individuals == s.individuals
    && t.rdps == s.rdps && t.nextRdp == s.nextRdp && t.attempts == s.attempts
  }

  lemma SameRowsOverlap(s: State, t: State)
    requires SameRows(s, t)
    requires SuccessesDisjoint(s) && RealIdsClean(s) && PreparationsOk(s) && OneUnfinished(s)
    ensures SuccessesDisjoint(t) && RealIdsClean(t) && PreparationsOk(t) && OneUnfinished(t)
  {
  }

  lemma SameRowsProgress(s: State, t: State)
    requires SameRows(s, t)
    requires Awake(s) && OperationsReachable(s) && CleanupOk(s)
    ensures Awake(t) && OperationsReachable(t) && CleanupOk(t)
  {
    forall a: nat, q: nat | AwaitsRejection(s, a, q) ensures AwaitsRejection(t, a, q) {
      var o :| o in s.rdps && s.rdps[o].status == Cancelled && s.rdps[o].program == a && RejectJob(Some(q)) in s.rdps[o].jobs;
      assert o in t.rdps;
    }
  }

  lemma SameRowsTables(s: State, t: State)
    requires SameRows(s, t)
    requires RowsOk(s) && AttemptsOk(s) && TablesOk(s) && SuccessesRemoved(s)
    ensures RowsOk(t) && AttemptsOk(t) && TablesOk(t) && SuccessesRemoved(t)
  {
  }

  lemma SameRowsInv(s: State, t: State)
    requires RowsInv(s) && TablesOk(s) && SuccessesRemoved(s)
    requires SameRows(s, t) && ResetsOk(t)
    ensures RowsInv(t) && TablesOk(t) && SuccessesRemoved(t)
  {
    SameRowsOverlap(s, t);
    SameRowsProgress(s, t);
    SameRowsTables(s, t);
  }

  lemma RecordResetInv(s: State, t: State, a: nat, x: string)
    requires RowsInv(s) && TablesOk(s) && SuccessesRemoved(s) && WorkersOk(s)
    requires t == s.(resets := s.resets + {(a, x)})
    requires a < |s.attempts| && (Current(s, s.attempts[a], a) ==> PrepareJob(a, Some(x)) in s.rdps[s.attempts[a]].jobs)
    ensures RowsInv(t) && TablesOk(t) && SuccessesRemoved(t) && WorkersOk(t)
  {
    SameRowsInv(s, t);
    assert Keeps(s, t, None);
    forall i | 0 <= i < |t.workers| ensures WorkerOk(t, t.workers[i]) {
      WorkerKept(s, t, None, s.workers[i]);
    }
  }

  ghost predicate WorkersInv(s: State) {
    WorkersOk(s) && ClaimedOnce(s) && CreationsOk(s)
  }

  lemma NoDuplicatesSnoc(xs: seq<nat>, x: nat)
    requires NoDuplicates(xs)
    ensures x !in xs ==> NoDuplicates(xs + [x])
  {
  }

  /** One worker moves on; data stages only go forward past the creation of the RDI. */
  lemma MoveInv(s: State, t: State, w: nat, x: Worker)
    requires WorkersInv(s) && w < |s.workers|
    requires forall i :: 0 <= i < |s.workers| && i != w ==> WorkerOk(t, s.workers[i])
    requires WorkerOk(t, x)
    requires x.rdp == s.workers[w].rdp && x.attempt == s.workers[w].attempt
    requires x.DataPush? == s.workers[w].DataPush?
    requires t.workers == s.workers[w := x]
    requires x.DataPush? && s.workers[w].data !in {Claimed, Checked} ==> x.data !in {Claimed, Checked}
    requires t.creations == s.creations
      || (t.creations == s.creations + [x.attempt] && x.DataPush?
          && s.workers[w].data == Checked && x.data !in {Claimed, Checked})
    ensures WorkersInv(t)
  {
    forall a | a in s.creations ensures t.creations != s.creations ==> a != x.attempt {
      var i :| 0 <= i < |s.workers| && HasCreated(s.workers[i], a);
    }
    NoDuplicatesSnoc(s.creations, x.attempt);
    forall a | a in t.creations ensures exists i :: 0 <= i < |t.workers| && HasCreated(t.workers[i], a) {
      if a in s.creations {
        var i :| 0 <= i < |s.workers| && HasCreated(s.workers[i], a);
        assert HasCreated(t.workers[i], a);
      } else {
        assert HasCreated(t.workers[w], a);
      }
    }
  }

  /** A worker moves while the database stays as it is. */
  lemma IdleMoveInv(s: State, w: nat, x: Worker)
    requires Inv(s) && w < |s.workers| && WorkerOk(s, x)
    requires x.rdp == s.workers[w].rdp && x.attempt == s.workers[w].attempt
    requires x.DataPush? == s.workers[w].DataPush?
    requires x.DataPush? && s.workers[w].data !in {Claimed, Checked} ==> x.data !in {Claimed, Checked}
    ensures Inv(Move(s, w, x))
  {
    var t := Move(s, w, x);
    SameRowsInv(s, t);
    assert Keeps(s, t, None);
    forall i | 0 <= i < |s.workers| ensures WorkerOk(t, s.workers[i]) {
      WorkerKept(s, t, None, s.workers[i]);
    }
    WorkerKept(s, t, None, x);
    MoveInv(s, t, w, x);
  }

  lemma PreparationStartInv(s: State, r: nat, a: nat, toReset: Option<string>)
    requires Inv(s)
    ensures Inv(PreparationStart(s, r, a, toReset))
  {
    var t := PreparationStart(s, r, a, toReset);
    if t != s {
      SameRowsInv(s, t);
      assert Keeps(s, t, None);
      forall i | 0 <= i < |s.workers| ensures WorkerOk(t, t.workers[i]) {
        WorkerKept(s, t, None, s.workers[i]);
      }
      CreationsKept(s, t);
    }
  }

  lemma CreationsKept(s: State, t: State)
    requires CreationsOk(s) && t.creations == s.creations
    requires |s.workers| <= |t.workers| && forall i :: 0 <= i < |s.workers| ==> t.workers[i] == s.workers[i]
    ensures CreationsOk(t)
  {
    forall a | a in t.creations ensures exists i :: 0 <= i < |t.workers| && HasCreated(t.workers[i], a) {
      var i :| 0 <= i < |s.workers| && HasCreated(s.workers[i], a);
      assert HasCreated(t.workers[i], a);
    }
  }

  lemma PreparationResetInv(s: State, w: nat, answer: ResetAnswer)
    requires Inv(s)
    ensures Inv(PreparationReset(s, w, answer))
  {
    var t := PreparationReset(s, w, answer);
    if t != s {
      var x := s.workers[w];
      var s1 := s.(resets := s.resets + {(x.attempt, x.toReset.value)});
      RecordResetInv(s, s1, x.attempt, x.toReset.value);
      CreationsKept(s, s1);
      IdleMoveInv(s1, w, t.workers[w]);
    }
  }

  lemma PreparationErrorInv(s: State, w: nat)
    requires Inv(s)
    ensures Inv(PreparationError(s, w))
  {
    if PreparationError(s, w) != s {
      IdleMoveInv(s, w, s.workers[w].(preparation := PreparationFailing));
    }
  }

  lemma PreparationScheduleInv(s: State, w: nat)
    requires Inv(s)
    ensures Inv(PreparationSchedule(s, w))
  {
    if PreparationAt(s, w, ReadyToSchedule) {
      var x := s.workers[w];
      SchedulePushDataInv(s, x.rdp, x.attempt);
      IdleMoveInv(SchedulePushData(s, x.rdp, x.attempt), w, x.(preparation := PreparationOver));
    }
  }

  lemma PreparationFailInv(s: State, w: nat)
    requires Inv(s)
    ensures Inv(PreparationFail(s, w))
  {
    if PreparationAt(s, w, PreparationFailing) {
      var x := s.workers[w];
      FailPendingPushInv(s, x.rdp, x.attempt, x.toReset);
      IdleMoveInv(FailPendingPush(s, x.rdp, x.attempt, x.toReset), w, x.(preparation := PreparationOver));
    }
  }

  lemma {:induction false} DataClaimInv(s: State, r: nat, a: nat)
    requires Inv(s)
    ensures Inv(DataClaim(s, r, a))
  {
    var t := DataClaim(s, r, a);
    if t != s {
      DataClaimChange(s, r, a);
      QuietRemoved(s, t, r);
      RowChangeTables(s, t, r);
      DataClaimWorkers(s, r, a);
      hide RowChange, SuccessesRemoved, TablesOk, WorkersInv;
      RowChangeInv(s, t, r);
    }
  }

  lemma DataClaimErrorInv(s: State, r: nat, a: nat)
    requires Inv(s)
    ensures Inv(DataClaimError(s, r, a))
  {
    FailPendingPushInv(s, r, a, None);
  }

  lemma DataClaimChange(s: State, r: nat, a: nat)
    requires RowsInv(s) && DataClaim(s, r, a) != s
    ensures RowChange(s, DataClaim(s, r, a), r)
  {
  }

  lemma DataClaimWorkers(s: State, r: nat, a: nat)
    requires WorkersInv(s) && RowsInv(s) && DataClaim(s, r, a) != s && RowChange(s, DataClaim(s, r, a), r)
    ensures WorkersInv(DataClaim(s, r, a))
  {
    var t := DataClaim(s, r, a);
    RowChangeKeeps(s, t, r, Some(a));
    hide RowChange;
    forall i | 0 <= i < |s.workers|
      ensures WorkerOk(t, t.workers[i])
      ensures s.workers[i].DataPush? ==> s.workers[i].attempt != a
    {
      assert t.workers[i] == s.workers[i] && WorkerOk(s, s.workers[i]);
      WorkerKept(s, t, Some(a), s.workers[i]);
    }
    CreationsKept(s, t);
  }

  lemma DataPreflightInv(s: State, w: nat, valid: bool)
    requires Inv(s)
    ensures Inv(DataPreflight(s, w, valid))
  {
    var t := DataPreflight(s, w, valid);
    if t != s {
      IdleMoveInv(s, w, t.workers[w]);
    }
  }

  lemma DataCreateInv(s: State, w: nat, answer: Option<string>)
    requires Inv(s)
    ensures Inv(DataCreate(s, w, answer))
  {
    var t := DataCreate(s, w, answer);
    if t != s {
      SameRowsInv(s, t);
      assert Keeps(s, t, None);
      forall i | 0 <= i < |s.workers| ensures WorkerOk(t, s.workers[i]) {
        WorkerKept(s, t, None, s.workers[i]);
      }
      MoveInv(s, t, w, t.workers[w]);
    }
  }

  lemma RecordedInv(s: State, w: nat)
    requires Inv(s) && DataAt(s, w) && s.workers[w].data.Created?
    requires Current(s, s.workers[w].rdp, s.workers[w].attempt)
    ensures Inv(DataRecord(s, w))
  {
    var t, x := DataRecord(s, w), s.workers[w];
    assert NoOverlap(s, x.rdp);
    assert RowChange(s, t, x.rdp);
    RowChangeInv(s, t, x.rdp);
    RowChangeTables(s, t, x.rdp);
    RowChangeKeeps(s, t, x.rdp, Some(x.attempt));
    forall i | 0 <= i < |s.workers| && i != w ensures WorkerOk(t, s.workers[i]) {
      WorkerKept(s, t, Some(x.attempt), s.workers[i]);
    }
    MoveInv(s, t, w, t.workers[w]);
  }

  lemma DataRecordInv(s: State, w: nat)
    requires Inv(s)
    ensures Inv(DataRecord(s, w))
  {
    if DataAt(s, w) && s.workers[w].data.Created? {
      var x := s.workers[w];
      if Current(s, x.rdp, x.attempt) {
        RecordedInv(s, w);
      } else {
        IdleMoveInv(s, w, x.(data := DataFailing(Some(x.data.rdi))));
      }
    }
  }

  lemma DataSendInv(s: State, w: nat)
    requires Inv(s)
    ensures Inv(DataSend(s, w))
  {
    var t := DataSend(s, w);
    if t != s {
      IdleMoveInv(s, w, t.workers[w]);
    }
  }

  lemma DataErrorInv(s: State, w: nat)
    requires Inv(s)
    ensures Inv(DataError(s, w))
  {
    var t := DataError(s, w);
    if t != s {
      IdleMoveInv(s, w, t.workers[w]);
    }
  }

  lemma DataFailInv(s: State, w: nat)
    requires Inv(s)
    ensures Inv(DataFail(s, w))
  {
    if DataAt(s, w) && s.workers[w].data.DataFailing? {
      var x := s.workers[w];
      FailPendingPushInv(s, x.rdp, x.attempt, x.data.created);
      IdleMoveInv(FailPendingPush(s, x.rdp, x.attempt, x.data.created), w, x.(data := DataOver));
    }
  }

  // ----- blocks that set or clear `removed` -----

  lemma FinishSuccessfulPushInv(s: State, r: nat, id: string)
    requires Inv(s) && r in s.rdps && s.rdps[r].status == PushPending && NoOverlap(s, r)
    ensures Inv(FinishSuccessfulPush(s, r, id))
  {
    var t := FinishSuccessfulPush(s, r, id);
    FinishedChange(s, r, id);
    FinishedRemoved(s, r, id);
    RowChangeTables(s, t, r);
    hide RowChange, SuccessesRemoved, TablesOk;
    RowChangeInv(s, t, r);
    RowChangeKeeps(s, t, r, None);
    KeptWorkers(s, t);
  }

  lemma FinishedChange(s: State, r: nat, id: string)
    requires RowsInv(s) && r in s.rdps && s.rdps[r].status == PushPending && NoOverlap(s, r)
    ensures RowChange(s, FinishSuccessfulPush(s, r, id), r)
  {
  }

  lemma FinishedRemoved(s: State, r: nat, id: string)
    requires SuccessesRemoved(s) && r in s.rdps
    ensures SuccessesRemoved(FinishSuccessfulPush(s, r, id))
  {
    var t := FinishSuccessfulPush(s, r, id);
    forall q | q in t.rdps && t.rdps[q].status == Success ensures BeneficiariesRemoved(t, q) {
      assert q != r ==> BeneficiariesRemoved(s, q);
    }
  }

  lemma PreparationMergedInv(s: State, w: nat)
    requires Inv(s)
    ensures Inv(PreparationMerged(s, w))
  {
    if PreparationAt(s, w, AlreadyMerged) && s.workers[w].toReset.Some? {
      var x := s.workers[w];
      if Current(s, x.rdp, x.attempt) {
        FinishSuccessfulPushInv(s, x.rdp, x.toReset.value);
        IdleMoveInv(FinishSuccessfulPush(s, x.rdp, x.toReset.value), w, x.(preparation := PreparationOver));
      } else {
        IdleMoveInv(s, w, x.(preparation := PreparationOver));
      }
    }
  }

  lemma DataCompleteInv(s: State, w: nat)
    requires Inv(s)
    ensures Inv(DataComplete(s, w))
  {
    var t := DataComplete(s, w);
    if DataAt(s, w) && s.workers[w].data.Pushed? {
      var x := s.workers[w];
      if !Current(s, x.rdp, x.attempt) || s.rdps[x.rdp].rdi != Real(x.data.rdi) {
        IdleMoveInv(s, w, t.workers[w]);
      } else {
        FinishSuccessfulPushInv(s, x.rdp, x.data.rdi);
        IdleMoveInv(FinishSuccessfulPush(s, x.rdp, x.data.rdi), w, x.(data := DataOver));
      }
    }
  }

  lemma {:induction false} ResetInv(s: State, r: nat)
    requires Inv(s)
    ensures Inv(Reset(s, r))
  {
    if ResetAllowed(s, r) {
      var t := Reset(s, r);
      ResetChange(s, r);
      forall q | q in t.rdps && t.rdps[q].status == Success ensures BeneficiariesRemoved(t, q) {
        ResetKeepsOthers(s, r, q);
      }
      RowChangeTables(s, t, r);
      RowChangeKeeps(s, t, r, None);
      hide RowChange, BeneficiariesRemoved, TablesOk;
      RowChangeInv(s, t, r);
      KeptWorkers(s, t);
    }
  }

  lemma ResetChange(s: State, r: nat)
    requires RowsInv(s) && ResetAllowed(s, r)
    ensures RowChange(s, Reset(s, r), r)
  {
  }

  /** Resetting an RDP clears the flag of its own beneficiaries only. */
  lemma ResetKeepsOthers(s: State, r: nat, q: nat)
    requires TablesOk(s) && r in s.rdps && q in s.rdps && q != r
    requires BeneficiariesRemoved(s, q) && s.rdps[q].status == Success && NoOverlap(s, r)
    ensures BeneficiariesRemoved(Reset(s, r), q)
  {
  }

  // ----- creating and deleting -----

  /** A fresh pending row joins the table. */
  lemma InsertInv(s: State, row: Rdp)
    requires Inv(s)
    requires row.status == Pending && row.rdi == Unset && row.attempt == None
    requires row.program in s.programs && !CleanupInProgress(s, row.program) && !HasUnfinished(s, row.program)
    requires Selectable(s, row.program, row.selection)
    requires forall k :: k in row.operations ==> row.operations[k].status == Waiting
    requires forall j :: j in row.jobs ==> j.EvaluateJob? || j.OperationJob?
    requires row.operations == map[] ==> EvaluateJob in row.jobs
    requires AwaitsRejection(s, row.program, s.nextRdp) || forall k :: k in row.operations ==> OperationJob(k) in row.jobs
    ensures Inv(Insert(s, row))
  {
    var t := Insert(s, row);
    InsertedRows(s, row);
    InsertedTables(s, row);
    InsertedOverlap(s, row);
    InsertedProgress(s, row);
    forall r: nat, a: nat | Current(t, r, a)
      ensures Current(s, r, a) && s.rdps[r] == t.rdps[r] && (NoOverlap(s, r) ==> NoOverlap(t, r))
    {
    }
    assert Keeps(s, t, None);
    forall i | 0 <= i < |t.workers| ensures WorkerOk(t, t.workers[i]) {
      WorkerKept(s, t, None, s.workers[i]);
    }
  }

  lemma InsertedRows(s: State, row: Rdp)
    requires RowsOk(s) && AttemptsOk(s) && ResetsOk(s)
    requires row.status == Pending && row.rdi == Unset && row.attempt == None && row.program in s.programs
    requires forall k :: k in row.operations ==> row.operations[k].status == Waiting
    requires forall j :: j in row.jobs ==> j.EvaluateJob? || j.OperationJob?
    ensures var t := Insert(s, row); RowsOk(t) && AttemptsOk(t) && ResetsOk(t)
  {
  }

  lemma InsertedTables(s: State, row: Rdp)
    requires RowsOk(s) && TablesOk(s) && SuccessesRemoved(s)
    requires row.status == Pending && Selectable(s, row.program, row.selection)
    ensures var t := Insert(s, row); TablesOk(t) && SuccessesRemoved(t)
  {
    var t := Insert(s, row);
    forall r | r in t.rdps && t.rdps[r].status == Success ensures BeneficiariesRemoved(t, r) {
      assert BeneficiariesRemoved(s, r);
    }
  }

  lemma InsertedOverlap(s: State, row: Rdp)
    requires RowsOk(s) && PreparationsOk(s) && RealIdsClean(s) && OneUnfinished(s) && SuccessesDisjoint(s)
    requires row.status == Pending && row.rdi == Unset && row.attempt == None && !HasUnfinished(s, row.program)
    ensures var t := Insert(s, row);
      PreparationsOk(t) && RealIdsClean(t) && OneUnfinished(t) && SuccessesDisjoint(t)
  {
    var t := Insert(s, row);
    forall r | r in s.rdps ensures r in t.rdps && r != s.nextRdp && (NoOverlap(s, r) ==> NoOverlap(t, r)) {}
  }

  lemma InsertedProgress(s: State, row: Rdp)
    requires RowsOk(s) && Awake(s) && OperationsReachable(s) && CleanupOk(s)
    requires row.status == Pending && !CleanupInProgress(s, row.program)
    requires forall k :: k in row.operations ==> row.operations[k].status == Waiting
    requires row.operations == map[] ==> EvaluateJob in row.jobs
    requires AwaitsRejection(s, row.program, s.nextRdp) || forall k :: k in row.operations ==> OperationJob(k) in row.jobs
    ensures var t := Insert(s, row); Awake(t) && OperationsReachable(t) && CleanupOk(t)
  {
    var t := Insert(s, row);
    forall a: nat, q: nat | AwaitsRejection(s, a, q) ensures AwaitsRejection(t, a, q) {
      var o :| o in s.rdps && s.rdps[o].status == Cancelled && s.rdps[o].program == a && RejectJob(Some(q)) in s.rdps[o].jobs;
      assert o in t.rdps && t.rdps[o] == s.rdps[o];
    }
    if row.operations != map[] {
      var k :| k in row.operations;
      assert !AllSucceeded(row.operations);
    }
  }

  lemma {:induction false} CreateInv(s: State, program: nat, selection: set<nat>,
                                     thresholds: map<Kind, PushPolicy.Threshold>, pushDate: int)
    requires Inv(s)
    ensures Inv(Create(s, program, selection, thresholds, pushDate))
  {
    if Create(s, program, selection, thresholds, pushDate) != s {
      var row := NewRdp(program, selection, thresholds, pushDate, FirstJobs(thresholds));
      assert row.operations.Keys == thresholds.Keys;
      InsertInv(s, row);
    }
  }

  lemma CleanCancelInv(s: State, r: nat)
    requires Inv(s) && CleanAllowed(s, r)
    ensures var row := s.rdps[r];
      Inv(Put(s, r, MarkedCancelled(row).(jobs := row.jobs + {RejectJob(Some(s.nextRdp))})))
  {
    hide WorkersOk, ClaimedOnce, CreationsOk, TablesOk, SuccessesRemoved, CleanSelection;
    var row := s.rdps[r];
    QuietInv(s, Put(s, r, MarkedCancelled(row).(jobs := row.jobs + {RejectJob(Some(s.nextRdp))})), r);
  }

  lemma {:induction false} CreateCleanInv(s: State, r: nat, valid: bool, pushDate: int)
    requires Inv(s)
    ensures Inv(CreateClean(s, r, valid, pushDate))
  {
    hide WorkersOk, ClaimedOnce, CreationsOk, TablesOk, SuccessesRemoved;
    if CreateClean(s, r, valid, pushDate) != s {
      var row := s.rdps[r];
      var clean := NewRdp(row.program, CleanSelection(s, r), CleanThresholds(row.operations), pushDate, {});
      var s1 := Put(s, r, MarkedCancelled(row).(jobs := row.jobs + {RejectJob(Some(s.nextRdp))}));
      CleanCancelInv(s, r);
      assert Biometric in clean.operations;
      assert RejectJob(Some(s.nextRdp)) in s1.rdps[r].jobs;
      InsertInv(s1, clean);
    }
  }

  lemma ImportedTables(s: State, households: map<nat, Household>, individuals: map<nat, Individual>)
    requires TablesOk(s) && ValidImport(s, households, individuals)
    ensures TablesOk(Import(s, households, individuals))
  {
  }

  /** Imported members belong to households that no RDP selects yet. */
  lemma ImportedRemoved(s: State, households: map<nat, Household>, individuals: map<nat, Individual>, r: nat)
    requires TablesOk(s) && r in s.rdps && BeneficiariesRemoved(s, r) && ValidImport(s, households, individuals)
    ensures BeneficiariesRemoved(Import(s, households, individuals), r)
  {
    assert forall b :: b in s.rdps[r].selection ==>
      if MasterDetail(s, s.rdps[r].program) then b in s.households else b in s.individuals;
  }

  lemma ImportInv(s: State, households: map<nat, Household>, individuals: map<nat, Individual>)
    requires Inv(s)
    ensures Inv(Import(s, households, individuals))
  {
    var t := Import(s, households, individuals);
    if ValidImport(s, households, individuals) {
      ImportedTables(s, households, individuals);
      forall r | r in t.rdps && t.rdps[r].status == Success ensures BeneficiariesRemoved(t, r) {
        ImportedRemoved(s, households, individuals, r);
      }
      LedgerOverlap(s, t);
      LedgerProgress(s, t);
      KeptWorkers(s, t);
    }
  }

  lemma LedgerOverlap(s: State, t: State)
    requires t == s.(households := t.households, individuals := t.individuals)
    requires RowsOk(s) && AttemptsOk(s) && ResetsOk(s)
    requires SuccessesDisjoint(s) && RealIdsClean(s) && PreparationsOk(s) && OneUnfinished(s)
    ensures RowsOk(t) && AttemptsOk(t) && ResetsOk(t)
    ensures SuccessesDisjoint(t) && RealIdsClean(t) && PreparationsOk(t) && OneUnfinished(t)
  {
  }

  lemma LedgerProgress(s: State, t: State)
    requires t == s.(households := t.households, individuals := t.individuals)
    requires Awake(s) && OperationsReachable(s) && CleanupOk(s)
    ensures Awake(t) && OperationsReachable(t) && CleanupOk(t)
  {
    forall a: nat, q: nat | AwaitsRejection(s, a, q) ensures AwaitsRejection(t, a, q) {
      var o :| o in s.rdps && s.rdps[o].status == Cancelled && s.rdps[o].program == a && RejectJob(Some(q)) in s.rdps[o].jobs;
      assert o in t.rdps;
    }
  }

  lemma KeptWorkers(s: State, t: State)
    requires WorkersInv(s) && t.workers == s.workers && t.creations == s.creations && Keeps(s, t, None)
    ensures WorkersInv(t)
  {
    forall i | 0 <= i < |t.workers| ensures WorkerOk(t, t.workers[i]) {
      WorkerKept(s, t, None, s.workers[i]);
    }
  }

  // ----- programme cleanup -----

  ghost predicate FlagChange(s: State, t: State, p: nat) {
    && p in s.programs && p in t.programs && t == s.(programs := s.programs[p := t.programs[p]])
    && t.programs[p].masterDetail == s.programs[p].masterDetail
  }

  lemma FlagChangeTables(s: State, t: State, p: nat)
    requires FlagChange(s, t, p)
    requires RowsOk(s) && TablesOk(s) && SuccessesRemoved(s)
    ensures RowsOk(t) && TablesOk(t) && SuccessesRemoved(t)
  {
    forall r | r in s.rdps && s.rdps[r].status == Success ensures BeneficiariesRemoved(t, r) {
      assert BeneficiariesRemoved(s, r);
    }
  }

  lemma FlagChangeOverlap(s: State, t: State, p: nat)
    requires FlagChange(s, t, p)
    requires AttemptsOk(s) && ResetsOk(s)
    requires SuccessesDisjoint(s) && RealIdsClean(s) && PreparationsOk(s) && OneUnfinished(s)
    ensures AttemptsOk(t) && ResetsOk(t)
    ensures SuccessesDisjoint(t) && RealIdsClean(t) && PreparationsOk(t) && OneUnfinished(t)
  {
  }

  lemma FlagChangeProgress(s: State, t: State, p: nat)
    requires FlagChange(s, t, p)
    requires Awake(s) && OperationsReachable(s) && CleanupOk(s)
    requires t.programs[p].cleanup ==> !t.programs[p].purged && !PushIsPending(s, p)
    requires !t.programs[p].cleanup ==> forall r :: r in s.rdps ==> s.rdps[r].program != p
    ensures Awake(t) && OperationsReachable(t) && CleanupOk(t)
  {
    forall a: nat, q: nat | AwaitsRejection(s, a, q) ensures AwaitsRejection(t, a, q) {
      var o :| o in s.rdps && s.rdps[o].status == Cancelled && s.rdps[o].program == a && RejectJob(Some(q)) in s.rdps[o].jobs;
      assert o in t.rdps;
    }
  }

  lemma FlagChangeInv(s: State, t: State, p: nat)
    requires Inv(s) && FlagChange(s, t, p)
    requires t.programs[p].cleanup ==> !t.programs[p].purged && !PushIsPending(s, p)
    requires !t.programs[p].cleanup ==> forall r :: r in s.rdps ==> s.rdps[r].program != p
    ensures Inv(t)
  {
    FlagChangeTables(s, t, p);
    FlagChangeOverlap(s, t, p);
    FlagChangeProgress(s, t, p);
    KeptWorkers(s, t);
  }

  lemma StartCleanupInv(s: State, p: nat)
    requires Inv(s)
    ensures Inv(StartCleanup(s, p))
  {
    var t := StartCleanup(s, p);
    if t != s {
      FlagChangeInv(s, t, p);
    }
  }

  lemma EndCleanupInv(s: State, p: nat)
    requires Inv(s)
    ensures Inv(EndCleanup(s, p))
  {
    if CleanupInProgress(s, p) && s.programs[p].purged {
      FlagChangeInv(s, EndCleanup(s, p), p);
    }
  }

  lemma PurgedRows(s: State, p: nat)
    requires RowsOk(s) && AttemptsOk(s) && ResetsOk(s)
    ensures var t := Purge(s, p); RowsOk(t) && AttemptsOk(t) && ResetsOk(t)
  {
  }

  lemma PurgedTables(s: State, p: nat)
    requires TablesOk(s) && SuccessesRemoved(s)
    ensures var t := Purge(s, p); TablesOk(t) && SuccessesRemoved(t)
  {
    var t := Purge(s, p);
    forall r | r in t.rdps && t.rdps[r].status == Success ensures BeneficiariesRemoved(t, r) {
      assert BeneficiariesRemoved(s, r);
    }
  }

  lemma PurgedOverlap(s: State, p: nat)
    requires SuccessesDisjoint(s) && RealIdsClean(s) && PreparationsOk(s) && OneUnfinished(s)
    ensures var t := Purge(s, p);
      SuccessesDisjoint(t) && RealIdsClean(t) && PreparationsOk(t) && OneUnfinished(t)
  {
    var t := Purge(s, p);
    forall r | r in t.rdps ensures r in s.rdps && t.rdps[r] == s.rdps[r] && (NoOverlap(s, r) ==> NoOverlap(t, r)) {}
  }

  lemma PurgedProgress(s: State, p: nat)
    requires Awake(s) && OperationsReachable(s) && CleanupOk(s)
    ensures var t := Purge(s, p); Awake(t) && OperationsReachable(t) && CleanupOk(t)
  {
    var t := Purge(s, p);
    forall q | q in t.rdps && AwaitsRejection(s, t.rdps[q].program, q)
      ensures AwaitsRejection(t, t.rdps[q].program, q)
    {
      var o :| o in s.rdps && s.rdps[o].status == Cancelled && s.rdps[o].program == s.rdps[q].program
        && RejectJob(Some(q)) in s.rdps[o].jobs;
      assert o in t.rdps && t.rdps[o] == s.rdps[o];
    }
  }

  lemma {:induction false} PurgeInv(s: State, p: nat)
    requires Inv(s)
    ensures Inv(Purge(s, p))
  {
    var t := Purge(s, p);
    PurgedRows(s, p);
    PurgedTables(s, p);
    PurgedOverlap(s, p);
    PurgedProgress(s, p);
    forall r: nat, a: nat | Current(t, r, a)
      ensures Current(s, r, a) && s.rdps[r] == t.rdps[r] && (NoOverlap(s, r) ==> NoOverlap(t, r))
    {
    }
    KeptWorkers(s, t);
  }

  // ----- deleting beneficiaries -----

  lemma DeletedRows(s: State, households: set<nat>, individuals: set<nat>)
    requires RowsOk(s) && AttemptsOk(s) && ResetsOk(s)
    ensures var t := Delete(s, households, individuals); RowsOk(t) && AttemptsOk(t) && ResetsOk(t)
  {
  }

  lemma DeletedTables(s: State, households: set<nat>, individuals: set<nat>)
    requires TablesOk(s) && SuccessesRemoved(s)
    ensures var t := Delete(s, households, individuals); TablesOk(t) && SuccessesRemoved(t)
  {
    var t := Delete(s, households, individuals);
    forall r | r in t.rdps && t.rdps[r].status == Success ensures BeneficiariesRemoved(t, r) {
      assert BeneficiariesRemoved(s, r);
    }
  }

  lemma DeletedOverlap(s: State, households: set<nat>, individuals: set<nat>)
    requires SuccessesDisjoint(s) && RealIdsClean(s) && PreparationsOk(s) && OneUnfinished(s)
    ensures var t := Delete(s, households, individuals);
      SuccessesDisjoint(t) && RealIdsClean(t) && PreparationsOk(t) && OneUnfinished(t)
  {
    var t := Delete(s, households, individuals);
    forall r | r in s.rdps ensures r in t.rdps && (NoOverlap(s, r) ==> NoOverlap(t, r)) {
      if NoOverlap(s, r) {
        DeletedKeepsFree(s, households, individuals, r);
      }
    }
    hide NoOverlap;
  }

  lemma DeletedKeepsFree(s: State, households: set<nat>, individuals: set<nat>, r: nat)
    requires r in s.rdps && NoOverlap(s, r)
    ensures var t := Delete(s, households, individuals); r in t.rdps && NoOverlap(t, r)
  {
  }

  lemma DeletedAwake(s: State, households: set<nat>, individuals: set<nat>)
    requires Awake(s) && CleanupOk(s)
    ensures var t := Delete(s, households, individuals); Awake(t) && CleanupOk(t)
  {
    var t := Delete(s, households, individuals);
    forall r | r in t.rdps && AllSucceeded(t.rdps[r].operations) ensures AllSucceeded(s.rdps[r].operations) {
      forall k | k in s.rdps[r].operations ensures s.rdps[r].operations[k].status == Succeeded {
        assert k in t.rdps[r].operations;
      }
    }
  }

  lemma DeletedReachable(s: State, households: set<nat>, individuals: set<nat>)
    requires OperationsReachable(s)
    ensures OperationsReachable(Delete(s, households, individuals))
  {
    var t := Delete(s, households, individuals);
    forall a: nat, q: nat | AwaitsRejection(s, a, q) ensures AwaitsRejection(t, a, q) {
      var o :| o in s.rdps && s.rdps[o].status == Cancelled && s.rdps[o].program == a && RejectJob(Some(q)) in s.rdps[o].jobs;
      assert o in t.rdps && t.rdps[o].status == Cancelled && t.rdps[o].program == a && RejectJob(Some(q)) in t.rdps[o].jobs;
    }
  }

  lemma {:induction false} DeleteInv(s: State, households: set<nat>, individuals: set<nat>)
    requires Inv(s)
    ensures Inv(Delete(s, households, individuals))
  {
    var t := Delete(s, households, individuals);
    DeletedRows(s, households, individuals);
    DeletedTables(s, households, individuals);
    DeletedOverlap(s, households, individuals);
    DeletedAwake(s, households, individuals);
    DeletedReachable(s, households, individuals);
    forall r: nat, a: nat | Current(t, r, a)
      ensures Current(s, r, a) && s.rdps[r].jobs == t.rdps[r].jobs && s.rdps[r].rdi == t.rdps[r].rdi
      ensures NoOverlap(s, r) ==> NoOverlap(t, r)
    {
    }
    KeptWorkers(s, t);
  }
}
