/**
 * The workflow as the application runs it: rows are loaded under their locks into objects,
 * changed, saved, and jobs are created, one method per `transaction.atomic()` block.
 * Each method is tied to the step of RdpSteps that the invariants are proved about.
 */
module RdpWorkspace {
  import opened Common
  import opened PushPolicy
  import opened RdpState
  import opened RdpSteps
  import opened RdpInvariant
  import RdpTable

  /** `ActionCheck` without the text of its reason, plus the exceptions that leave a block. */
  datatype Outcome = Done | NotAllowed | WorkflowError

  /** An `Rdp` instance loaded by `lock_rdp_for_update` or `lock_rdp_push_attempt`. */
  class LockedRdp {
    const store: Workspace
    const pk: nat
    var program: nat
    var status: Status
    var hopeRdiId: RdiId
    var pushAttemptId: Option<nat>
    var selection: set<nat>
    var pushDate: int
    var operations: map<Kind, Operation>
    var jobs: set<Job>

    constructor (store: Workspace, pk: nat)
      requires pk in store.rdps
      ensures this.store == store && this.pk == pk && Row() == store.rdps[pk]
    {
      var row := store.rdps[pk];
      this.store := store;
      this.pk := pk;
      program := row.program;
      status := row.status;
      hopeRdiId := row.rdi;
      pushAttemptId := row.attempt;
      selection := row.selection;
      pushDate := row.pushDate;
      operations := row.operations;
      jobs := row.jobs;
    }

    function Row(): Rdp
      reads this
    {
      Rdp(program, status, hopeRdiId, pushAttemptId, selection, pushDate, operations, jobs)
    }

    method Save()
      modifies store`rdps
      ensures store.rdps == old(store.rdps)[pk := Row()]
    {
      store.rdps := store.rdps[pk := Row()];
    }

    /** `AsyncJob.objects.create(rdp=self, ...)` */
    method CreateJob(job: Job)
      modifies this`jobs, store`rdps
      ensures Row() == old(Row()).(jobs := old(jobs) + {job})
      ensures store.rdps == old(store.rdps)[pk := Row()]
    {
      jobs := jobs + {job};
      Save();
    }

    /** A fresh `uuid4` is the next index of the attempts. */
    method StartPushAttempt() returns (attempt: nat)
      modifies this, store`rdps, store`attempts
      ensures attempt == |old(store.attempts)| && store.attempts == old(store.attempts) + [pk]
      ensures Row() == Started(old(Row()), attempt)
      ensures store.rdps == old(store.rdps)[pk := Row()]
    {
      attempt := |store.attempts|;
      store.attempts := store.attempts + [pk];
      status := PushPending;
      pushAttemptId := Some(attempt);
      Save();
    }

    /** None of the callers passes another status; the ValueError is the result `false`. */
    method FinishPushAttempt(newStatus: Status, rdi: RdiId) returns (ok: bool)
      modifies this, store`rdps
      ensures ok <==> newStatus in {Success, Failure}
      ensures ok ==> Row() == Finished(old(Row()), newStatus, rdi) && store.rdps == old(store.rdps)[pk := Row()]
      ensures !ok ==> Row() == old(Row()) && store.rdps == old(store.rdps)
    {
      if newStatus !in {Success, Failure} {
        return false;
      }
      status := newStatus;
      hopeRdiId := rdi;
      pushAttemptId := None;
      Save();
      return true;
    }

    method MarkCancelled()
      modifies this, store`rdps
      ensures Row() == RdpSteps.MarkedCancelled(old(Row()))
      ensures store.rdps == old(store.rdps)[pk := Row()]
    {
      status := Cancelled;
      if hopeRdiId == Unset {
        hopeRdiId := NotAvailable;
      }
      pushAttemptId := None;
      Save();
    }
  }

  lemma UnfinishedIgnoresJobs(s: State, pk: nat, row: Rdp, extra: set<Job>, program: nat)
    ensures HasUnfinished(Put(s, pk, row), program)
      <==> HasUnfinished(Put(s, pk, row.(jobs := row.jobs + extra)), program)
  {
    var t, u := Put(s, pk, row), Put(s, pk, row.(jobs := row.jobs + extra));
    assert forall r :: r in t.rdps <==> r in u.rdps;
    assert forall r :: r in t.rdps ==> t.rdps[r].program == u.rdps[r].program && t.rdps[r].status == u.rdps[r].status;
  }

  lemma WritesCommute(rows: map<nat, Rdp>, pk: nat, first: Rdp, last: Rdp, other: nat, row: Rdp)
    requires pk != other
    ensures rows[pk := first][other := row][pk := last] == rows[pk := last][other := row]
  {
  }

  class Workspace {
    var programs: map<nat, Program>
    var households: map<nat, Household>
    var individuals: map<nat, Individual>
    var rdps: map<nat, Rdp>
    var nextRdp: nat
    var attempts: seq<nat>
    var workers: seq<Worker>
    var resets: set<(nat, string)>
    var creations: seq<nat>

    function Snapshot(): State
      reads this
    {
      State(programs, households, individuals, rdps, nextRdp, attempts, workers, resets, creations)
    }

    /** The invariant of RdpInvariant. */
    ghost predicate Valid()
      reads this
    {
      Inv(Snapshot())
    }

    // ----- rows and locks -----

    method Lock(pk: nat) returns (rdp: LockedRdp?)
      ensures rdp == null <==> pk !in rdps
      ensures rdp != null ==> fresh(rdp) && rdp.store == this && rdp.pk == pk && rdp.Row() == rdps[pk]
    {
      if pk !in rdps {
        return null;
      }
      rdp := new LockedRdp(this, pk);
    }

    method LockPushAttempt(pk: nat, attempt: nat) returns (rdp: LockedRdp?)
      ensures rdp == null <==> !Current(Snapshot(), pk, attempt)
      ensures rdp != null ==> fresh(rdp) && rdp.store == this && rdp.pk == pk && rdp.Row() == rdps[pk]
    {
      if pk !in rdps || rdps[pk].status != PushPending || rdps[pk].attempt != Some(attempt) {
        return null;
      }
      rdp := new LockedRdp(this, pk);
    }

    /** Rolls the tables that a block writes back to where it began. */
    method Rollback(savedRdps: map<nat, Rdp>, savedNext: nat)
      modifies `rdps, `nextRdp
      ensures rdps == savedRdps && nextRdp == savedNext
    {
      rdps := savedRdps;
      nextRdp := savedNext;
    }

    /** `set_rdp_beneficiaries_removed`: the selection and, for households, their members. */
    method SetBeneficiariesRemoved(rdp: LockedRdp, removed: bool)
      requires rdp.store == this && rdp.pk in rdps
      requires rdp.selection == rdps[rdp.pk].selection && rdp.program == rdps[rdp.pk].program
      modifies `households, `individuals
      ensures Snapshot() == SetRemoved(old(Snapshot()), rdp.pk, removed)
    {
      if MasterDetail(Snapshot(), rdp.program) {
        households := map h | h in households ::
          if h in rdp.selection then households[h].(removed := removed) else households[h];
        individuals := map i | i in individuals ::
          if individuals[i].household.Some? && individuals[i].household.value in rdp.selection
          then individuals[i].(removed := removed) else individuals[i];
      } else {
        individuals := map i | i in individuals ::
          if i in rdp.selection then individuals[i].(removed := removed) else individuals[i];
        assert households == map h | h in households :: households[h];
      }
    }

    /** The loop of `schedule_rdp_operations` and of `retry_failed_rdp_operations`. */
    method ScheduleOperations(rdp: LockedRdp, kinds: set<Kind>) returns (count: nat)
      requires rdp.store == this && rdp.pk in rdps && rdps[rdp.pk] == rdp.Row()
      modifies rdp`jobs, `rdps
      ensures count == |kinds|
      ensures rdp.Row() == old(rdp.Row()).(jobs := old(rdp.jobs) + OperationJobs(kinds))
      ensures rdps == old(rdps)[rdp.pk := rdp.Row()]
    {
      var left := kinds;
      count := 0;
      while left != {}
        invariant left <= kinds && count == |kinds| - |left|
        invariant rdp.Row() == old(rdp.Row()).(jobs := rdp.jobs)
        invariant rdp.jobs == old(rdp.jobs) + OperationJobs(kinds - left)
        invariant rdps == old(rdps)[rdp.pk := rdp.Row()]
        decreases |left|
      {
        var kind :| kind in left;
        rdp.CreateJob(OperationJob(kind));
        assert OperationJobs(kinds - (left - {kind})) == OperationJobs(kinds - left) + {OperationJob(kind)};
        left := left - {kind};
        count := count + 1;
      }
    }

    // ----- rdp/lifecycle.py -----

    method CreateRow(row: Rdp) returns (rdp: LockedRdp)
      modifies `rdps, `nextRdp
      ensures fresh(rdp) && rdp.store == this && rdp.pk == old(nextRdp) && rdp.Row() == row
      ensures Snapshot() == Insert(old(Snapshot()), row)
    {
      rdps := rdps[nextRdp := row];
      rdp := new LockedRdp(this, nextRdp);
      nextRdp := nextRdp + 1;
    }

    /** `uniq_non_terminal_rdp_per_program` turns a second unfinished RDP into an IntegrityError. */
    method CreateRdp(program: nat, selection: set<nat>, thresholds: map<Kind, Threshold>, pushDate: int)
      returns (outcome: Outcome)
      modifies this
      ensures Snapshot() == Create(old(Snapshot()), program, selection, thresholds, pushDate)
      ensures outcome == Done <==> old(nextRdp) < nextRdp
      ensures old(Valid()) ==> Valid()
    {
      hide Inv;
      if Valid() {
        CreateInv(Snapshot(), program, selection, thresholds, pushDate);
      }
      if !Selectable(Snapshot(), program, selection) {
        return WorkflowError;
      }
      if programs[program].cleanup {
        return WorkflowError;
      }
      if HasUnfinished(Snapshot(), program) {
        return WorkflowError;
      }
      var rdp := CreateRow(NewRdp(program, selection, thresholds, pushDate, {}));
      if thresholds != map[] {
        assert thresholds.Keys != {};
        var _ := ScheduleOperations(rdp, thresholds.Keys);
      } else {
        rdp.CreateJob(EvaluateJob);
      }
      assert rdp.Row() == NewRdp(program, selection, thresholds, pushDate, FirstJobs(thresholds));
      return Done;
    }

    method ResetRdp(pk: nat) returns (outcome: Outcome)
      modifies this
      ensures Snapshot() == Reset(old(Snapshot()), pk)
      ensures outcome == Done <==> ResetAllowed(old(Snapshot()), pk)
      ensures old(Valid()) ==> Valid()
      ensures outcome == Done ==> RdpTable.GivenBack(old(Snapshot()), Snapshot(), pk)
      ensures outcome != Done ==> Snapshot() == old(Snapshot())
    {
      hide Inv;
      if Valid() {
        ResetInv(Snapshot(), pk);
      }
      RdpTable.ResetGivesBack(Snapshot(), pk);
      var rdp := Lock(pk);
      if rdp == null {
        return WorkflowError;
      }
      if CleanupInProgress(Snapshot(), rdp.program) || rdp.status != Success || LaterSuccess(Snapshot(), pk) {
        return NotAllowed;
      }
      SetBeneficiariesRemoved(rdp, false);
      rdp.MarkCancelled();
      return Done;
    }

    /** The locked half of `cancel_rdp`; `rejection` was decided before the lock was taken. */
    method CancelRdp(pk: nat, rejection: bool) returns (outcome: Outcome)
      modifies this
      ensures Snapshot() == Cancel(old(Snapshot()), pk, rejection)
      ensures outcome == Done <==> CancelAllowed(old(Snapshot()), pk)
      ensures old(Valid()) ==> Valid()
    {
      hide Inv;
      if Valid() {
        CancelInv(Snapshot(), pk, rejection);
      }
      var rdp := Lock(pk);
      if rdp == null {
        return WorkflowError;
      }
      if rdp.status !in {Pending, Failure, ReviewPending} || AnyRunning(rdp.operations) {
        return NotAllowed;
      }
      var required := rejection && !CleanupInProgress(Snapshot(), rdp.program);
      rdp.MarkCancelled();
      if required {
        rdp.CreateJob(RejectJob(None));
      }
      return Done;
    }

    /** The checks of `create_clean_rdp` under the lock; the selection that remains when they pass. */
    method CleanCheck(rdp: LockedRdp) returns (pks: Option<set<nat>>)
      requires rdp.store == this && rdp.pk in rdps && rdps[rdp.pk] == rdp.Row()
      ensures pks.Some? <==> CleanAllowed(Snapshot(), rdp.pk)
      ensures pks.Some? ==> pks.value == CleanSelection(Snapshot(), rdp.pk)
    {
      if CleanupInProgress(Snapshot(), rdp.program) || rdp.status != ReviewPending {
        return None;
      }
      if Biometric !in rdp.operations || rdp.operations[Biometric].status != Succeeded {
        return None;
      }
      var selected := CleanSelection(Snapshot(), rdp.pk);
      return if selected == {} then None else Some(selected);
    }

    /**
     * The old row is cancelled before the new one is created, so that a creation that violates
     * the constraint rolls the cancellation back.
     */
    method ReplaceRow(rdp: LockedRdp, clean: Rdp) returns (outcome: Outcome)
      requires rdp.store == this && rdp.pk in rdps && rdps[rdp.pk] == rdp.Row() && nextRdp !in rdps
      modifies rdp, `rdps, `nextRdp
      ensures
        var s := old(Snapshot());
        var row := old(rdp.Row());
        var s1 := Put(s, rdp.pk, MarkedCancelled(row).(jobs := row.jobs + {RejectJob(Some(s.nextRdp))}));
        && (outcome == Done <==> !HasUnfinished(s1, row.program))
        && Snapshot() == (if outcome == Done then Insert(s1, clean) else s)
    {
      hide HasUnfinished;
      ghost var row := rdp.Row();
      var before := Snapshot();
      rdp.MarkCancelled();
      assert Snapshot() == Put(before, rdp.pk, MarkedCancelled(row));
      UnfinishedIgnoresJobs(before, rdp.pk, MarkedCancelled(row), {RejectJob(Some(before.nextRdp))}, row.program);
      if HasUnfinished(Snapshot(), rdp.program) {
        Rollback(before.rdps, before.nextRdp);
        return WorkflowError;
      }
      var created := CreateRow(clean);
      rdp.CreateJob(RejectJob(Some(created.pk)));
      WritesCommute(before.rdps, rdp.pk, MarkedCancelled(row), rdp.Row(), before.nextRdp, clean);
      return Done;
    }

    /** `create_clean_rdp`. Primary keys are never reused. */
    method CreateCleanRdp(pk: nat, valid: bool, pushDate: int) returns (outcome: Outcome)
      requires nextRdp !in rdps
      modifies this
      ensures Snapshot() == CreateClean(old(Snapshot()), pk, valid, pushDate)
      ensures outcome == Done <==> old(nextRdp) < nextRdp
      ensures old(Valid()) ==> Valid()
    {
      hide Inv;
      if Valid() {
        CreateCleanInv(Snapshot(), pk, valid, pushDate);
      }
      var rdp := Lock(pk);
      if rdp == null {
        return WorkflowError;
      }
      var pks := CleanCheck(rdp);
      if pks.None? {
        return NotAllowed;
      }
      if !valid || !MeetsNoOther(Snapshot(), pk, rdp.program, pks.value)
         || !Selectable(Snapshot(), rdp.program, pks.value)
      {
        return WorkflowError;
      }
      outcome := ReplaceRow(rdp, NewRdp(rdp.program, pks.value, CleanThresholds(rdp.operations), pushDate, {}));
    }

    /** The last block of `reject_cancelled_rdp_set_core`, after the remote set is rejected. */
    method ContinueCleanReplacement(pk: nat, replacement: nat) returns (outcome: Outcome)
      modifies this
      ensures Snapshot() == ContinueReplacement(old(Snapshot()), pk, replacement)
      ensures old(Valid()) ==> Valid()
    {
      hide Inv;
      if Valid() {
        ContinueReplacementInv(Snapshot(), pk, replacement);
      }
      if pk !in rdps || RejectJob(Some(replacement)) !in rdps[pk].jobs || rdps[pk].status != Cancelled {
        return WorkflowError;
      }
      if CleanupInProgress(Snapshot(), rdps[pk].program) {
        return NotAllowed;
      }
      var rdp := Lock(replacement);
      if rdp == null || rdp.program != rdps[pk].program || rdp.status != Pending {
        return WorkflowError;
      }
      var _ := ScheduleOperations(rdp, rdp.operations.Keys);
      return Done;
    }

    // ----- rdp/operations -----

    method ClaimRdpOperation(pk: nat, kind: Kind) returns (operation: Option<Operation>)
      modifies `rdps
      ensures Snapshot() == ClaimOperation(old(Snapshot()), pk, kind)
      ensures operation.Some? <==> ClaimAllowed(old(Snapshot()), pk, kind)
      ensures operation.Some? ==> operation.value == rdps[pk].operations[kind]
      ensures old(Valid()) ==> Valid()
    {
      hide Inv;
      if Valid() {
        ClaimOperationInv(Snapshot(), pk, kind);
      }
      var rdp := Lock(pk);
      if rdp == null || kind !in rdp.operations {
        return None;
      }
      var o := rdp.operations[kind];
      if rdp.status != Pending || o.status !in {Waiting, Failed} {
        return None;
      }
      o := o.(status := Running, runs := o.runs + 1);
      rdp.operations := rdp.operations[kind := o];
      rdp.Save();
      return Some(o);
    }

    method FailRdpOperation(pk: nat, kind: Kind) returns (failed: bool)
      modifies `rdps
      ensures Snapshot() == FailOperation(old(Snapshot()), pk, kind)
      ensures failed <==> IsRunning(old(Snapshot()), pk, kind)
      ensures old(Valid()) ==> Valid()
    {
      hide Inv;
      if Valid() {
        FailOperationInv(Snapshot(), pk, kind);
      }
      var rdp := Lock(pk);
      if rdp == null || kind !in rdp.operations || rdp.operations[kind].status != Running {
        return false;
      }
      rdp.operations := rdp.operations[kind := rdp.operations[kind].(status := Failed)];
      rdp.Save();
      return true;
    }

    method FinishRdpOperation(rdp: LockedRdp, kind: Kind, findings: seq<Finding>) returns (finished: bool)
      requires rdp.store == this && rdp.pk in rdps && rdps[rdp.pk] == rdp.Row() && kind in rdp.operations
      modifies rdp, `rdps
      ensures finished <==> old(rdp.operations[kind].status) == Running
      ensures rdp.Row() ==
        if finished
        then SetOperation(old(rdp.Row()), kind, old(rdp.operations[kind]).(status := Succeeded, findings := findings))
        else old(rdp.Row())
      ensures rdps == old(rdps)[rdp.pk := rdp.Row()]
    {
      var o := rdp.operations[kind];
      if o.status != Running {
        return false;
      }
      rdp.operations := rdp.operations[kind := o.(status := Succeeded, findings := findings)];
      rdp.Save();
      return true;
    }

    /** `complete_rdp_operation`; `fault` is an exception inside its block, which rolls the block back. */
    method CompleteRdpOperation(pk: nat, kind: Kind, findings: seq<Finding>, fault: bool) returns (completed: bool)
      modifies this
      ensures Snapshot() ==
        if fault then FailOperation(old(Snapshot()), pk, kind)
        else CompleteOperation(old(Snapshot()), pk, kind, findings)
      ensures completed <==> !fault && IsRunning(old(Snapshot()), pk, kind)
      ensures old(Valid()) ==> Valid()
    {
      hide Inv;
      if Valid() {
        CompleteOperationInv(Snapshot(), pk, kind, findings);
        FailOperationInv(Snapshot(), pk, kind);
      }
      var before := Snapshot();
      var rdp := Lock(pk);
      if rdp == null || kind !in rdp.operations {
        return false;
      }
      completed := FinishRdpOperation(rdp, kind, findings);
      if fault {
        Rollback(before.rdps, before.nextRdp);
        var _ := FailRdpOperation(pk, kind);
        return false;
      }
      if !completed {
        return false;
      }
      if !CleanupInProgress(Snapshot(), rdp.program) && AllSucceeded(rdp.operations) {
        rdp.CreateJob(EvaluateJob);
      }
    }

    /** None while the programme is being cleaned, otherwise the number of jobs created. */
    method RetryFailedOperations(pk: nat) returns (count: Option<nat>)
      modifies this
      ensures Snapshot() == RetryOperations(old(Snapshot()), pk)
      ensures pk in old(rdps) ==>
        (count.None? <==> CleanupInProgress(old(Snapshot()), old(rdps)[pk].program))
      ensures count.Some? && count.value > 0 ==>
        pk in old(rdps) && old(rdps)[pk].status == Pending && count.value == |FailedKinds(old(rdps)[pk].operations)|
      ensures old(Valid()) ==> Valid()
    {
      hide Inv;
      if Valid() {
        RetryOperationsInv(Snapshot(), pk);
      }
      var rdp := Lock(pk);
      if rdp == null {
        return None;
      }
      if CleanupInProgress(Snapshot(), rdp.program) {
        return None;
      }
      if rdp.status != Pending {
        return Some(0);
      }
      var created := ScheduleOperations(rdp, FailedKinds(rdp.operations));
      return Some(created);
    }

    // ----- rdp/push/workflow.py: starting an attempt -----

    method SchedulePushPreparation(rdp: LockedRdp, attempt: nat)
      requires rdp.store == this
      modifies rdp`jobs, `rdps
      ensures rdp.Row() == old(rdp.Row()).(jobs := old(rdp.jobs) + {PrepareJob(attempt, ToReset(rdp.hopeRdiId))})
      ensures rdps == old(rdps)[rdp.pk := rdp.Row()]
    {
      var toReset := match rdp.hopeRdiId
        case Real(id) => Some(id)
        case NotAvailable => None
        case Unset => None;
      rdp.CreateJob(PrepareJob(attempt, toReset));
    }

    method BeginPush(rdp: LockedRdp)
      requires rdp.store == this && rdp.pk in rdps && rdps[rdp.pk] == rdp.Row()
      modifies rdp, `rdps, `attempts
      ensures Snapshot() == StartPush(old(Snapshot()), rdp.pk)
    {
      var attempt := rdp.StartPushAttempt();
      SchedulePushPreparation(rdp, attempt);
    }

    method EvaluateForPush(pk: nat) returns (verdict: Evaluation)
      modifies this
      ensures verdict == Verdict(old(Snapshot()), pk)
      ensures Snapshot() == Evaluate(old(Snapshot()), pk)
      ensures old(Valid()) ==> Valid()
      ensures pk in old(rdps) ==> pk in rdps && RdpTable.Evaluated(old(Snapshot()), pk, verdict, rdps[pk])
      ensures pk !in old(rdps) ==> verdict == NotEvaluated && Snapshot() == old(Snapshot())
    {
      hide Inv;
      if Valid() {
        EvaluateInv(Snapshot(), pk);
      }
      if pk in rdps {
        RdpTable.EvaluationDecides(Snapshot(), pk);
      }
      var rdp := Lock(pk);
      if rdp == null || rdp.status != Pending {
        return NotEvaluated;
      }
      if CleanupInProgress(Snapshot(), rdp.program) {
        return NotEvaluated;
      }
      if !AllSucceeded(rdp.operations) {
        return NotEvaluated;
      }
      var exceeded := false;
      if Biometric in rdp.operations {
        var operation := rdp.operations[Biometric];
        var findingsCount := AffectingCount(operation.findings);
        var individualsCount :=
          |SelectedIndividuals(Snapshot(), MasterDetail(Snapshot(), rdp.program), rdp.selection)|;
        if individualsCount == 0 {
          return EvaluationError;
        }
        var answer := ThresholdExceeded(findingsCount, individualsCount, operation.threshold);
        if answer.None? {
          return EvaluationError;
        }
        exceeded := answer.value;
      }
      if exceeded {
        rdp.status := ReviewPending;
        rdp.Save();
        return Review;
      }
      BeginPush(rdp);
      return PushNow;
    }

    method ClaimReviewPush(pk: nat) returns (outcome: Outcome)
      modifies this
      ensures Snapshot() == ReviewPush(old(Snapshot()), pk)
      ensures outcome == Done <==> attempts != old(attempts)
      ensures old(Valid()) ==> Valid()
    {
      hide Inv;
      if Valid() {
        ReviewPushInv(Snapshot(), pk);
      }
      var rdp := Lock(pk);
      if rdp == null {
        return WorkflowError;
      }
      if CleanupInProgress(Snapshot(), rdp.program) || rdp.status != ReviewPending {
        return NotAllowed;
      }
      BeginPush(rdp);
      return Done;
    }

    method RetryRdpPush(pk: nat) returns (outcome: Outcome)
      modifies this
      ensures Snapshot() == RetryPush(old(Snapshot()), pk)
      ensures outcome == Done <==> attempts != old(attempts)
      ensures old(Valid()) ==> Valid()
    {
      hide Inv;
      if Valid() {
        RetryPushInv(Snapshot(), pk);
      }
      var rdp := Lock(pk);
      if rdp == null {
        return WorkflowError;
      }
      if CleanupInProgress(Snapshot(), rdp.program) || rdp.status != Failure || !AllSucceeded(rdp.operations) {
        return NotAllowed;
      }
      BeginPush(rdp);
      return Done;
    }

    // ----- rdp/push/workflow.py: one attempt -----

    method FailPending(pk: nat, attempt: nat, known: Option<string>)
      modifies this
      ensures Snapshot() == FailPendingPush(old(Snapshot()), pk, attempt, known)
      ensures old(Valid() && (Current(Snapshot(), pk, attempt) && known.Some? ==> NoOverlap(Snapshot(), pk))) ==> Valid()
    {
      hide Inv;
      if Valid() && (Current(Snapshot(), pk, attempt) && known.Some? ==> NoOverlap(Snapshot(), pk)) {
        FailPendingPushInv(Snapshot(), pk, attempt, known);
      }
      var rdp := LockPushAttempt(pk, attempt);
      if rdp == null {
        return;
      }
      var rdi := rdp.hopeRdiId;
      if !rdi.Real? {
        rdi := if known.Some? then Real(known.value) else NotAvailable;
      }
      var _ := rdp.FinishPushAttempt(Failure, rdi);
    }

    /** True when a job to queue is returned: it was created now, or exists and is still unclaimed. */
    method SchedulePush(pk: nat, attempt: nat) returns (queued: bool)
      modifies this
      ensures Snapshot() == SchedulePushData(old(Snapshot()), pk, attempt)
      ensures queued <==>
        && Current(old(Snapshot()), pk, attempt) && !CleanupInProgress(old(Snapshot()), old(rdps)[pk].program)
        && DataJob(attempt) in rdps[pk].jobs && rdps[pk].rdi == Unset
      ensures old(Valid()) ==> Valid()
    {
      hide Inv;
      if Valid() {
        SchedulePushDataInv(Snapshot(), pk, attempt);
      }
      var rdp := LockPushAttempt(pk, attempt);
      if rdp == null || CleanupInProgress(Snapshot(), rdp.program) {
        return false;
      }
      var created := DataJob(attempt) !in rdp.jobs;
      if created {
        rdp.CreateJob(DataJob(attempt));
        rdp.hopeRdiId := Unset;
        rdp.Save();
      }
      return rdp.hopeRdiId == Unset;
    }

    method FinishSuccessful(rdp: LockedRdp, rdi: string)
      requires rdp.store == this && rdp.pk in rdps && rdps[rdp.pk] == rdp.Row()
      modifies this, rdp
      ensures Snapshot() == FinishSuccessfulPush(old(Snapshot()), rdp.pk, rdi)
    {
      SetBeneficiariesRemoved(rdp, true);
      var _ := rdp.FinishPushAttempt(Success, Real(rdi));
    }

    /** `_finish_already_merged_push`, by the preparation worker w. */
    method FinishAlreadyMerged(w: nat)
      requires PreparationAt(Snapshot(), w, AlreadyMerged) && workers[w].toReset.Some?
      modifies this
      ensures Snapshot() == PreparationMerged(old(Snapshot()), w)
      ensures old(Valid()) ==> Valid()
    {
      hide Inv;
      if Valid() {
        PreparationMergedInv(Snapshot(), w);
      }
      var worker := workers[w];
      var rdp := LockPushAttempt(worker.rdp, worker.attempt);
      if rdp != null {
        FinishSuccessful(rdp, worker.toReset.value);
      }
      workers := workers[w := worker.(preparation := PreparationOver)];
    }

    /** `claim_rdp_data_push`: only the worker that finds no id goes on. */
    method ClaimDataPush(pk: nat, attempt: nat) returns (claimed: bool)
      requires pk in rdps && DataJob(attempt) in rdps[pk].jobs
      modifies this
      ensures claimed <==> DataClaimAllowed(old(Snapshot()), pk, attempt)
      ensures Snapshot() == DataClaim(old(Snapshot()), pk, attempt)
      ensures old(Valid()) ==> Valid()
    {
      hide Inv;
      if Valid() {
        DataClaimInv(Snapshot(), pk, attempt);
      }
      var rdp := LockPushAttempt(pk, attempt);
      if rdp == null {
        return false;
      }
      if rdp.hopeRdiId != Unset {
        return false;
      }
      rdp.hopeRdiId := NotAvailable;
      rdp.Save();
      workers := workers + [DataPush(pk, attempt, Claimed)];
      return true;
    }

    /** The block of `push_rdp_data_core` that stores the id HOPE returned to worker w. */
    method RecordRdi(w: nat) returns (outcome: Outcome)
      requires DataAt(Snapshot(), w) && workers[w].data.Created?
      modifies this
      ensures Snapshot() == DataRecord(old(Snapshot()), w)
      ensures outcome == Done <==> Current(old(Snapshot()), old(workers)[w].rdp, old(workers)[w].attempt)
      ensures old(Valid()) ==> Valid()
    {
      hide Inv;
      if Valid() {
        DataRecordInv(Snapshot(), w);
      }
      var worker := workers[w];
      var rdp := LockPushAttempt(worker.rdp, worker.attempt);
      if rdp == null {
        workers := workers[w := worker.(data := DataFailing(Some(worker.data.rdi)))];
        return WorkflowError;
      }
      rdp.hopeRdiId := Real(worker.data.rdi);
      rdp.Save();
      workers := workers[w := worker.(data := Pushing(worker.data.rdi))];
      return Done;
    }

    /** The completion block of `push_rdp_data_core`. */
    method CompletePush(w: nat) returns (outcome: Outcome)
      requires DataAt(Snapshot(), w) && workers[w].data.Pushed?
      modifies this
      ensures Snapshot() == DataComplete(old(Snapshot()), w)
      ensures outcome == Done <==> workers[w].data == DataOver
      ensures old(Valid()) ==> Valid()
    {
      hide Inv;
      if Valid() {
        DataCompleteInv(Snapshot(), w);
      }
      var worker := workers[w];
      var rdp := LockPushAttempt(worker.rdp, worker.attempt);
      if rdp == null || rdp.hopeRdiId != Real(worker.data.rdi) {
        workers := workers[w := worker.(data := DataFailing(Some(worker.data.rdi)))];
        return WorkflowError;
      }
      FinishSuccessful(rdp, worker.data.rdi);
      workers := workers[w := worker.(data := DataOver)];
      return Done;
    }

    method FailStuckPush(pk: nat, attempt: nat) returns (outcome: Outcome)
      modifies this
      ensures Snapshot() == FailStuck(old(Snapshot()), pk, attempt)
      ensures outcome == Done <==> Snapshot() != old(Snapshot())
      ensures old(Valid()) ==> Valid()
    {
      hide Inv;
      if Valid() {
        FailStuckInv(Snapshot(), pk, attempt);
      }
      var rdp := LockPushAttempt(pk, attempt);
      if rdp == null {
        return NotAllowed;
      }
      if !(exists j <- rdp.jobs :: j.PrepareJob? && j.attempt == attempt) {
        return NotAllowed;
      }
      if DataJob(attempt) in rdp.jobs {
        return NotAllowed;
      }
      FailPending(pk, attempt, ToReset(rdp.hopeRdiId));
      assert rdps[pk].status == Failure;
      return Done;
    }

    // ----- programme cleanup -----

    /** The admin action that sets the flag under the programme's lock. */
    method BeginCleanup(program: nat) returns (outcome: Outcome)
      modifies this
      ensures Snapshot() == StartCleanup(old(Snapshot()), program)
      ensures outcome == Done ==> CleanupInProgress(Snapshot(), program) && !PushIsPending(Snapshot(), program)
      ensures old(Valid()) ==> Valid()
    {
      hide Inv;
      if Valid() {
        StartCleanupInv(Snapshot(), program);
      }
      if program !in programs || programs[program].cleanup {
        return NotAllowed;
      }
      if PushIsPending(Snapshot(), program) {
        return NotAllowed;
      }
      programs := programs[program := programs[program].(cleanup := true, purged := false)];
      return Done;
    }
  }
}
