/** What each atomic block, each remote answer and each worker move does to the state. */
module RdpSteps {
  import opened Common
  import opened PushPolicy
  import opened RdpState

  function Put(s: State, rdp: nat, row: Rdp): State {
    s.(rdps := s.rdps[rdp := row])
  }

  function Move(s: State, w: nat, worker: Worker): State
    requires w < |s.workers|
  {
    s.(workers := s.workers[w := worker])
  }

  // ----- models/rdp.py -----

  function Started(row: Rdp, attempt: nat): Rdp {
    row.(status := PushPending, attempt := Some(attempt))
  }

  function Finished(row: Rdp, status: Status, rdi: RdiId): Rdp {
    row.(status := status, rdi := rdi, attempt := None)
  }

  function MarkedCancelled(row: Rdp): Rdp {
    row.(status := Cancelled, rdi := if row.rdi == Unset then NotAvailable else row.rdi, attempt := None)
  }

  // ----- beneficiaries -----

  function SetRemoved(s: State, rdp: nat, removed: bool): State
    requires rdp in s.rdps
  {
    var row := s.rdps[rdp];
    var masterDetail := MasterDetail(s, row.program);
    var chosen := SelectedIndividuals(s, masterDetail, row.selection);
    s.(households := map h | h in s.households ::
         if masterDetail && h in row.selection then s.households[h].(removed := removed) else s.households[h],
       individuals := map i | i in s.individuals ::
         if i in chosen then s.individuals[i].(removed := removed) else s.individuals[i])
  }

  /** An import: new rows, none removed, members only of households imported with them. */
  predicate ValidImport(s: State, households: map<nat, Household>, individuals: map<nat, Individual>) {
    && households.Keys !! s.households.Keys
    && individuals.Keys !! s.individuals.Keys
    && (forall h <- households :: !households[h].removed)
    && (forall i <- individuals ::
          && !individuals[i].removed
          && (individuals[i].household.Some? ==>
                && individuals[i].household.value in households
                && households[individuals[i].household.value].program == individuals[i].program))
  }

  function Import(s: State, households: map<nat, Household>, individuals: map<nat, Individual>): State {
    if !ValidImport(s, households, individuals) then s
    else s.(households := s.households + households, individuals := s.individuals + individuals)
  }

  function KeepFindings(findings: seq<Finding>, gone: set<nat>): seq<Finding> {
    if findings == [] then []
    else
      var f := findings[0];
      var rest := KeepFindings(findings[1..], gone);
      if f.individual in gone || (f.related.Some? && f.related.value in gone) then rest else [f] + rest
  }

  function WithoutBeneficiaries(row: Rdp, selectionGone: set<nat>, individualsGone: set<nat>): Rdp {
    row.(selection := row.selection - selectionGone,
         operations := map k | k in row.operations ::
           row.operations[k].(findings := KeepFindings(row.operations[k].findings, individualsGone)))
  }

  /** Any deletion of beneficiaries: batch cleanup, programme cleanup, cleanup of merged data. */
  function Delete(s: State, households: set<nat>, individuals: set<nat>): State {
    var members := set i | i in s.individuals && s.individuals[i].household.Some?
      && s.individuals[i].household.value in households;
    var gone := individuals + members;
    s.(households := s.households - households,
       individuals := s.individuals - gone,
       rdps := map r | r in s.rdps ::
         WithoutBeneficiaries(s.rdps[r],
           if MasterDetail(s, s.rdps[r].program) then households else gone,
           gone))
  }

  // ----- rdp/lifecycle.py -----

  predicate Selectable(s: State, program: nat, selection: set<nat>) {
    && program in s.programs
    && selection != {}
    && forall b <- selection ::
         if s.programs[program].masterDetail then b in s.households && s.households[b].program == program
         else b in s.individuals && s.individuals[b].program == program
  }

  function NewOperations(thresholds: map<Kind, Threshold>): map<Kind, Operation> {
    if thresholds == map[] then map[]
    else map k | k in thresholds :: Operation(Waiting, 0, thresholds[k], [])
  }

  function NewRdp(program: nat, selection: set<nat>, thresholds: map<Kind, Threshold>, pushDate: int, jobs: set<Job>): Rdp
  {
    Rdp(program, Pending, Unset, None, selection, pushDate, NewOperations(thresholds), jobs)
  }

  function Insert(s: State, row: Rdp): State {
    s.(rdps := s.rdps[s.nextRdp := row], nextRdp := s.nextRdp + 1)
  }

  function OperationJobs(kinds: set<Kind>): set<Job> {
    set k <- kinds :: OperationJob(k)
  }

  function FirstJobs(thresholds: map<Kind, Threshold>): set<Job> {
    if thresholds == map[] then {EvaluateJob} else OperationJobs(thresholds.Keys)
  }

  function Create(s: State, program: nat, selection: set<nat>, thresholds: map<Kind, Threshold>, pushDate: int): State
  {
    if !Selectable(s, program, selection) || CleanupInProgress(s, program) || HasUnfinished(s, program) then s
    else Insert(s, NewRdp(program, selection, thresholds, pushDate, FirstJobs(thresholds)))
  }

  predicate LaterSuccess(s: State, rdp: nat)
    requires rdp in s.rdps
  {
    var row := s.rdps[rdp];
    exists other <- s.rdps ::
      && s.rdps[other].program == row.program && s.rdps[other].status == Success
      && (s.rdps[other].pushDate > row.pushDate || (s.rdps[other].pushDate == row.pushDate && other > rdp))
  }

  predicate ResetAllowed(s: State, rdp: nat) {
    && rdp in s.rdps && s.rdps[rdp].status == Success
    && !CleanupInProgress(s, s.rdps[rdp].program) && !LaterSuccess(s, rdp)
  }

  function Reset(s: State, rdp: nat): State {
    if !ResetAllowed(s, rdp) then s
    else Put(SetRemoved(s, rdp, false), rdp, MarkedCancelled(s.rdps[rdp]))
  }

  predicate CancelAllowed(s: State, rdp: nat) {
    && rdp in s.rdps
    && s.rdps[rdp].status in {Pending, Failure, ReviewPending}
    && !AnyRunning(s.rdps[rdp].operations)
  }

  /** `rejection` says that the DedupEngine set was found rejectable before the lock was taken. */
  function Cancel(s: State, rdp: nat, rejection: bool): State {
    if !CancelAllowed(s, rdp) then s
    else
      var row := MarkedCancelled(s.rdps[rdp]);
      Put(s, rdp, if rejection && !CleanupInProgress(s, row.program) then row.(jobs := row.jobs + {RejectJob(None)}) else row)
  }

  /** RDP individuals named on either side of an affecting finding. */
  function Affected(s: State, rdp: nat): set<nat>
    requires rdp in s.rdps && Biometric in s.rdps[rdp].operations
  {
    var row := s.rdps[rdp];
    var findings := row.operations[Biometric].findings;
    var masterDetail := MasterDetail(s, row.program);
    set i | i in SelectedIndividuals(s, masterDetail, row.selection)
      && exists f :: f in findings && AffectsHope(f) && (f.individual == i || f.related == Some(i))
  }

  /** `biometric_clean_rdp_selection` as a set. */
  function CleanSelection(s: State, rdp: nat): set<nat>
    requires rdp in s.rdps && Biometric in s.rdps[rdp].operations
  {
    var row := s.rdps[rdp];
    if MasterDetail(s, row.program)
    then set h | h in row.selection
           && forall i :: i in Affected(s, rdp) ==> i in s.individuals && s.individuals[i].household != Some(h)
    else row.selection - Affected(s, rdp)
  }

  function CleanThresholds(operations: map<Kind, Operation>): map<Kind, Threshold> {
    map k | k in operations :: if k == Biometric then Threshold(Count, 0) else operations[k].threshold
  }

  predicate CleanAllowed(s: State, rdp: nat) {
    && rdp in s.rdps && s.rdps[rdp].status == ReviewPending
    && !CleanupInProgress(s, s.rdps[rdp].program)
    && Biometric in s.rdps[rdp].operations && s.rdps[rdp].operations[Biometric].status == Succeeded
    && CleanSelection(s, rdp) != {}
  }

  /** `create_clean_rdp`: `valid` stands for every other part of the preflight. */
  function CreateClean(s: State, rdp: nat, valid: bool, pushDate: int): State {
    if !CleanAllowed(s, rdp) then s
    else
      var row := s.rdps[rdp];
      var clean := NewRdp(row.program, CleanSelection(s, rdp), CleanThresholds(row.operations), pushDate, {});
      var cancelled := MarkedCancelled(row).(jobs := row.jobs + {RejectJob(Some(s.nextRdp))});
      var s1 := Put(s, rdp, cancelled);
      if !valid || !MeetsNoOther(s, rdp, row.program, clean.selection)
         || !Selectable(s, row.program, clean.selection) || HasUnfinished(s1, row.program)
      then s
      else Insert(s1, clean)
  }

  // ----- rdp/deduplication/workflow.py -----

  /** `reject_cancelled_rdp_set_core` once the remote set is rejected. */
  function ContinueReplacement(s: State, rdp: nat, replacement: nat): State {
    if rdp !in s.rdps || RejectJob(Some(replacement)) !in s.rdps[rdp].jobs || s.rdps[rdp].status != Cancelled
       || CleanupInProgress(s, s.rdps[rdp].program)
       || replacement !in s.rdps || s.rdps[replacement].program != s.rdps[rdp].program
       || s.rdps[replacement].status != Pending
    then s
    else
      var row := s.rdps[replacement];
      Put(s, replacement, row.(jobs := row.jobs + OperationJobs(row.operations.Keys)))
  }

  // ----- rdp/operations -----

  function SetOperation(row: Rdp, kind: Kind, operation: Operation): Rdp {
    row.(operations := row.operations[kind := operation])
  }

  predicate HasOperation(s: State, rdp: nat, kind: Kind) {
    rdp in s.rdps && kind in s.rdps[rdp].operations
  }

  predicate ClaimAllowed(s: State, rdp: nat, kind: Kind) {
    && HasOperation(s, rdp, kind)
    && s.rdps[rdp].status == Pending
    && s.rdps[rdp].operations[kind].status in {Waiting, Failed}
  }

  function ClaimOperation(s: State, rdp: nat, kind: Kind): State {
    if !ClaimAllowed(s, rdp, kind) then s
    else
      var o := s.rdps[rdp].operations[kind];
      Put(s, rdp, SetOperation(s.rdps[rdp], kind, o.(status := Running, runs := o.runs + 1)))
  }

  predicate IsRunning(s: State, rdp: nat, kind: Kind) {
    HasOperation(s, rdp, kind) && s.rdps[rdp].operations[kind].status == Running
  }

  function FailOperation(s: State, rdp: nat, kind: Kind): State {
    if !IsRunning(s, rdp, kind) then s
    else Put(s, rdp, SetOperation(s.rdps[rdp], kind, s.rdps[rdp].operations[kind].(status := Failed)))
  }

  function CompleteOperation(s: State, rdp: nat, kind: Kind, findings: seq<Finding>): State {
    if !IsRunning(s, rdp, kind) then s
    else
      var o := s.rdps[rdp].operations[kind].(status := Succeeded, findings := findings);
      var row := SetOperation(s.rdps[rdp], kind, o);
      Put(s, rdp,
        if !CleanupInProgress(s, row.program) && AllSucceeded(row.operations)
        then row.(jobs := row.jobs + {EvaluateJob}) else row)
  }

  function FailedKinds(operations: map<Kind, Operation>): set<Kind> {
    set k | k in operations && operations[k].status == Failed
  }

  function RetryOperations(s: State, rdp: nat): State {
    if rdp !in s.rdps || CleanupInProgress(s, s.rdps[rdp].program) || s.rdps[rdp].status != Pending then s
    else
      var row := s.rdps[rdp];
      Put(s, rdp, row.(jobs := row.jobs + OperationJobs(FailedKinds(row.operations))))
  }

  // ----- rdp/push/workflow.py: starting an attempt -----

  function ToReset(rdi: RdiId): Option<string> {
    if rdi.Real? then Some(rdi.id) else None
  }

  function StartPush(s: State, rdp: nat): State
    requires rdp in s.rdps
  {
    var a := |s.attempts|;
    var row := Started(s.rdps[rdp], a);
    Put(s, rdp, row.(jobs := row.jobs + {PrepareJob(a, ToReset(row.rdi))})).(attempts := s.attempts + [rdp])
  }

  datatype Evaluation = NotEvaluated | EvaluationError | Review | PushNow

  function Verdict(s: State, rdp: nat): Evaluation {
    if rdp !in s.rdps || s.rdps[rdp].status != Pending || CleanupInProgress(s, s.rdps[rdp].program)
       || !AllSucceeded(s.rdps[rdp].operations)
    then NotEvaluated
    else if Biometric !in s.rdps[rdp].operations then PushNow
    else
      var row := s.rdps[rdp];
      var masterDetail := MasterDetail(s, row.program);
      var total := |SelectedIndividuals(s, masterDetail, row.selection)|;
      var o := row.operations[Biometric];
      match ThresholdExceeded(AffectingCount(o.findings), total, o.threshold)
      case None => EvaluationError
      case Some(exceeded) => if exceeded then Review else PushNow
  }

  function Evaluate(s: State, rdp: nat): State {
    match Verdict(s, rdp)
    case NotEvaluated => s
    case EvaluationError => s
    case Review => Put(s, rdp, s.rdps[rdp].(status := ReviewPending))
    case PushNow => StartPush(s, rdp)
  }

  function ReviewPush(s: State, rdp: nat): State {
    if rdp !in s.rdps || CleanupInProgress(s, s.rdps[rdp].program) || s.rdps[rdp].status != ReviewPending then s
    else StartPush(s, rdp)
  }

  function RetryPush(s: State, rdp: nat): State {
    if rdp !in s.rdps || CleanupInProgress(s, s.rdps[rdp].program) || s.rdps[rdp].status != Failure
       || !AllSucceeded(s.rdps[rdp].operations)
    then s
    else StartPush(s, rdp)
  }

  // ----- rdp/push/workflow.py: one attempt -----

  function FailureId(recorded: RdiId, known: Option<string>): RdiId {
    if recorded.Real? then recorded else if known.Some? then Real(known.value) else NotAvailable
  }

  function FailPendingPush(s: State, rdp: nat, attempt: nat, known: Option<string>): State {
    if !Current(s, rdp, attempt) then s
    else Put(s, rdp, Finished(s.rdps[rdp], Failure, FailureId(s.rdps[rdp].rdi, known)))
  }

  function SchedulePushData(s: State, rdp: nat, attempt: nat): State {
    if !Current(s, rdp, attempt) || CleanupInProgress(s, s.rdps[rdp].program) || DataJob(attempt) in s.rdps[rdp].jobs
    then s
    else Put(s, rdp, s.rdps[rdp].(jobs := s.rdps[rdp].jobs + {DataJob(attempt)}, rdi := Unset))
  }

  function FinishSuccessfulPush(s: State, rdp: nat, rdi: string): State
    requires rdp in s.rdps
  {
    Put(SetRemoved(s, rdp, true), rdp, Finished(s.rdps[rdp], Success, Real(rdi)))
  }

  function FailStuck(s: State, rdp: nat, attempt: nat): State {
    if !Current(s, rdp, attempt)
       || !(exists j <- s.rdps[rdp].jobs :: j.PrepareJob? && j.attempt == attempt)
       || DataJob(attempt) in s.rdps[rdp].jobs
    then s
    else FailPendingPush(s, rdp, attempt, ToReset(s.rdps[rdp].rdi))
  }

  // Preparation worker (`push_existing_rdp_core`).

  function PreparationStart(s: State, rdp: nat, attempt: nat, toReset: Option<string>): State {
    if rdp !in s.rdps || PrepareJob(attempt, toReset) !in s.rdps[rdp].jobs then s
    else s.(workers := s.workers + [Preparation(rdp, attempt, toReset,
        if !Current(s, rdp, attempt) then PreparationFailing
        else if toReset.None? then ReadyToSchedule else Entered)])
  }

  predicate PreparationAt(s: State, w: nat, stage: PreparationStage) {
    w < |s.workers| && s.workers[w].Preparation? && s.workers[w].preparation == stage
  }

  /** The call to HOPE's reset endpoint and its answer; the signed callback token leaves with it. */
  function PreparationReset(s: State, w: nat, answer: ResetAnswer): State {
    if !PreparationAt(s, w, Entered) || s.workers[w].toReset.None? then s
    else
      var next := match answer
        case Accepted => PreparationOver
        case Unconfirmed => PreparationOver
        case NotFound => ReadyToSchedule
        case MergedAlready => AlreadyMerged
        case MergeInProgress => PreparationFailing
        case OtherError => PreparationFailing;
      Move(s, w, s.workers[w].(preparation := next))
        .(resets := s.resets + {(s.workers[w].attempt, s.workers[w].toReset.value)})
  }

  /** `_finish_already_merged_push` */
  function PreparationMerged(s: State, w: nat): State {
    if !PreparationAt(s, w, AlreadyMerged) || s.workers[w].toReset.None? then s
    else
      var x := s.workers[w];
      var s1 := if Current(s, x.rdp, x.attempt) then FinishSuccessfulPush(s, x.rdp, x.toReset.value) else s;
      Move(s1, w, x.(preparation := PreparationOver))
  }

  function PreparationSchedule(s: State, w: nat): State {
    if !PreparationAt(s, w, ReadyToSchedule) then s
    else
      var x := s.workers[w];
      Move(SchedulePushData(s, x.rdp, x.attempt), w, x.(preparation := PreparationOver))
  }

  /** Any exception before the worker is over. */
  function PreparationError(s: State, w: nat): State {
    if w >= |s.workers| || !s.workers[w].Preparation? || s.workers[w].preparation == PreparationOver then s
    else Move(s, w, s.workers[w].(preparation := PreparationFailing))
  }

  function PreparationFail(s: State, w: nat): State {
    if !PreparationAt(s, w, PreparationFailing) then s
    else
      var x := s.workers[w];
      Move(FailPendingPush(s, x.rdp, x.attempt, x.toReset), w, x.(preparation := PreparationOver))
  }

  // Push-ready callback; its token was signed when the reset was requested.

  predicate TokenIssued(s: State, rdp: nat, attempt: nat) {
    && attempt < |s.attempts| && s.attempts[attempt] == rdp
    && exists e <- s.resets :: e.0 == attempt
  }

  function Callback(s: State, rdp: nat, attempt: nat): State {
    if !TokenIssued(s, rdp, attempt) then s else SchedulePushData(s, rdp, attempt)
  }

  function CallbackError(s: State, rdp: nat, attempt: nat): State {
    if !TokenIssued(s, rdp, attempt) then s else FailPendingPush(s, rdp, attempt, None)
  }

  // Data worker (`push_rdp_data_core`).

  predicate DataClaimAllowed(s: State, rdp: nat, attempt: nat) {
    Current(s, rdp, attempt) && s.rdps[rdp].rdi == Unset
  }

  function DataClaim(s: State, rdp: nat, attempt: nat): State {
    if rdp !in s.rdps || DataJob(attempt) !in s.rdps[rdp].jobs || !DataClaimAllowed(s, rdp, attempt) then s
    else Put(s, rdp, s.rdps[rdp].(rdi := NotAvailable))
           .(workers := s.workers + [DataPush(rdp, attempt, Claimed)])
  }

  /** An exception while claiming fails the attempt, whoever has claimed it. */
  function DataClaimError(s: State, rdp: nat, attempt: nat): State {
    if rdp !in s.rdps || DataJob(attempt) !in s.rdps[rdp].jobs then s else FailPendingPush(s, rdp, attempt, None)
  }

  predicate DataAt(s: State, w: nat) {
    w < |s.workers| && s.workers[w].DataPush?
  }

  /** `valid` stands for every other part of the preflight. */
  function DataPreflight(s: State, w: nat, valid: bool): State {
    if !DataAt(s, w) || s.workers[w].data != Claimed then s
    else
      var x := s.workers[w];
      Move(s, w, x.(data :=
        if valid && x.rdp in s.rdps && s.rdps[x.rdp].selection != {}
           && MeetsNoOther(s, x.rdp, s.rdps[x.rdp].program, s.rdps[x.rdp].selection)
        then Checked else DataFailing(None)))
  }

  /** The call to HOPE's create endpoint; None stands for an error or an answer without an id. */
  function DataCreate(s: State, w: nat, answer: Option<string>): State {
    if !DataAt(s, w) || s.workers[w].data != Checked then s
    else
      var x := s.workers[w];
      Move(s, w, x.(data := if answer.Some? then Created(answer.value) else DataFailing(None)))
        .(creations := s.creations + [x.attempt])
  }

  function DataRecord(s: State, w: nat): State {
    if !DataAt(s, w) || !s.workers[w].data.Created? then s
    else
      var x := s.workers[w];
      if !Current(s, x.rdp, x.attempt) then Move(s, w, x.(data := DataFailing(Some(x.data.rdi))))
      else Move(Put(s, x.rdp, s.rdps[x.rdp].(rdi := Real(x.data.rdi))), w, x.(data := Pushing(x.data.rdi)))
  }

  function DataSend(s: State, w: nat): State {
    if !DataAt(s, w) || !s.workers[w].data.Pushing? then s
    else Move(s, w, s.workers[w].(data := Pushed(s.workers[w].data.rdi)))
  }

  /** The completion block: a worker that no longer owns the attempt, or whose id is not recorded, goes on to fail. */
  function DataComplete(s: State, w: nat): State {
    if !DataAt(s, w) || !s.workers[w].data.Pushed? then s
    else
      var x := s.workers[w];
      if !Current(s, x.rdp, x.attempt) || s.rdps[x.rdp].rdi != Real(x.data.rdi)
      then Move(s, w, x.(data := DataFailing(Some(x.data.rdi))))
      else Move(FinishSuccessfulPush(s, x.rdp, x.data.rdi), w, x.(data := DataOver))
  }

  function CreatedId(stage: DataStage): Option<string> {
    match stage
    case Created(x) => Some(x)
    case Pushing(x) => Some(x)
    case Pushed(x) => Some(x)
    case DataFailing(x) => x
    case _ => None
  }

  function DataError(s: State, w: nat): State {
    if !DataAt(s, w) || s.workers[w].data == DataOver then s
    else Move(s, w, s.workers[w].(data := DataFailing(CreatedId(s.workers[w].data))))
  }

  function DataFail(s: State, w: nat): State {
    if !DataAt(s, w) || !s.workers[w].data.DataFailing? then s
    else
      var x := s.workers[w];
      Move(FailPendingPush(s, x.rdp, x.attempt, x.data.created), w, x.(data := DataOver))
  }

  // ----- programme cleanup -----

  predicate PushIsPending(s: State, program: nat) {
    exists r <- s.rdps :: s.rdps[r].program == program && s.rdps[r].status == PushPending
  }

  function StartCleanup(s: State, program: nat): State {
    if program !in s.programs || s.programs[program].cleanup || PushIsPending(s, program) then s
    else s.(programs := s.programs[program := s.programs[program].(cleanup := true, purged := false)])
  }

  /** `Rdp.objects.filter(program_id=...).delete()` of a cleanup run */
  function Purge(s: State, program: nat): State {
    if !CleanupInProgress(s, program) then s
    else s.(rdps := map r | r in s.rdps && s.rdps[r].program != program :: s.rdps[r],
            programs := s.programs[program := s.programs[program].(purged := true)])
  }

  function EndCleanup(s: State, program: nat): State {
    if !CleanupInProgress(s, program) || !s.programs[program].purged then s
    else s.(programs := s.programs[program := s.programs[program].(cleanup := false)])
  }
}
