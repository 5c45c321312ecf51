/** Runs of the RDP workflow: any interleaving of blocks, redeliveries, callbacks and remote answers. */
module RdpRuns {
  import opened Common
  import opened PushPolicy
  import opened RdpState
  import opened RdpSteps
  import opened RdpInvariant

  datatype Event =
    | Imported(households: map<nat, Household>, individuals: map<nat, Individual>)
    | Deleted(gone: set<nat>, goneIndividuals: set<nat>)
    | CreateBlock(program: nat, selection: set<nat>, thresholds: map<Kind, Threshold>, pushDate: int)
    | ResetBlock(rdp: nat)
    | CancelBlock(rdp: nat, rejection: bool)
    | CleanBlock(rdp: nat, valid: bool, pushDate: int)
    | ReplacementBlock(rdp: nat, replacement: nat)
    | OperationClaimed(rdp: nat, kind: Kind)
    | OperationFailed(rdp: nat, kind: Kind)
    | OperationCompleted(rdp: nat, kind: Kind, findings: seq<Finding>)
    | OperationsRetried(rdp: nat)
    | EvaluateBlock(rdp: nat)
    | ReviewBlock(rdp: nat)
    | RetryBlock(rdp: nat)
    | StuckBlock(rdp: nat, attempt: nat)
    | PreparationStarted(rdp: nat, attempt: nat, toReset: Option<string>)
    | ResetAnswered(worker: nat, answer: ResetAnswer)
    | MergedBlock(worker: nat)
    | ScheduleBlock(worker: nat)
    | PreparationRaised(worker: nat)
    | PreparationFailed(worker: nat)
    | CallbackBlock(rdp: nat, attempt: nat)
    | CallbackRaised(rdp: nat, attempt: nat)
    | ClaimBlock(rdp: nat, attempt: nat)
    | ClaimRaised(rdp: nat, attempt: nat)
    | Preflight(worker: nat, valid: bool)
    | CreateAnswered(worker: nat, created: Option<string>)
    | RecordBlock(worker: nat)
    | AllSent(worker: nat)
    | CompleteBlock(worker: nat)
    | DataRaised(worker: nat)
    | DataFailed(worker: nat)
    | CleanupStarted(program: nat)
    | RdpsPurged(program: nat)
    | CleanupEnded(program: nat)

  predicate IsRecordEvent(e: Event) {
    e.Imported? || e.Deleted? || e.CreateBlock? || e.ResetBlock? || e.CancelBlock? || e.CleanBlock?
    || e.ReplacementBlock?
  }

  predicate IsOperationEvent(e: Event) {
    e.OperationClaimed? || e.OperationFailed? || e.OperationCompleted? || e.OperationsRetried?
    || e.EvaluateBlock? || e.ReviewBlock? || e.RetryBlock? || e.StuckBlock?
  }

  predicate IsPreparationEvent(e: Event) {
    e.PreparationStarted? || e.ResetAnswered? || e.MergedBlock? || e.ScheduleBlock? || e.PreparationRaised?
    || e.PreparationFailed? || e.CallbackBlock? || e.CallbackRaised?
  }

  predicate IsDataEvent(e: Event) {
    e.ClaimBlock? || e.ClaimRaised? || e.Preflight? || e.CreateAnswered? || e.RecordBlock? || e.AllSent?
    || e.CompleteBlock? || e.DataRaised? || e.DataFailed?
  }

  predicate IsCleanupEvent(e: Event) {
    e.CleanupStarted? || e.RdpsPurged? || e.CleanupEnded?
  }

  function ApplyRecord(s: State, e: Event): State
    requires IsRecordEvent(e)
  {
    match e
    case Imported(h, i) => Import(s, h, i)
    case Deleted(h, i) => Delete(s, h, i)
    case CreateBlock(p, selection, thresholds, date) => Create(s, p, selection, thresholds, date)
    case ResetBlock(r) => Reset(s, r)
    case CancelBlock(r, rejection) => Cancel(s, r, rejection)
    case CleanBlock(r, valid, date) => CreateClean(s, r, valid, date)
    case ReplacementBlock(r, q) => ContinueReplacement(s, r, q)
  }

  function ApplyOperation(s: State, e: Event): State
    requires IsOperationEvent(e)
  {
    match e
    case OperationClaimed(r, k) => ClaimOperation(s, r, k)
    case OperationFailed(r, k) => FailOperation(s, r, k)
    case OperationCompleted(r, k, findings) => CompleteOperation(s, r, k, findings)
    case OperationsRetried(r) => RetryOperations(s, r)
    case EvaluateBlock(r) => Evaluate(s, r)
    case ReviewBlock(r) => ReviewPush(s, r)
    case RetryBlock(r) => RetryPush(s, r)
    case StuckBlock(r, a) => FailStuck(s, r, a)
  }

  function ApplyPreparation(s: State, e: Event): State
    requires IsPreparationEvent(e)
  {
    match e
    case PreparationStarted(r, a, x) => PreparationStart(s, r, a, x)
    case ResetAnswered(w, answer) => PreparationReset(s, w, answer)
    case MergedBlock(w) => PreparationMerged(s, w)
    case ScheduleBlock(w) => PreparationSchedule(s, w)
    case PreparationRaised(w) => PreparationError(s, w)
    case PreparationFailed(w) => PreparationFail(s, w)
    case CallbackBlock(r, a) => Callback(s, r, a)
    case CallbackRaised(r, a) => CallbackError(s, r, a)
  }

  function ApplyData(s: State, e: Event): State
    requires IsDataEvent(e)
  {
    match e
    case ClaimBlock(r, a) => DataClaim(s, r, a)
    case ClaimRaised(r, a) => DataClaimError(s, r, a)
    case Preflight(w, valid) => DataPreflight(s, w, valid)
    case CreateAnswered(w, x) => DataCreate(s, w, x)
    case RecordBlock(w) => DataRecord(s, w)
    case AllSent(w) => DataSend(s, w)
    case CompleteBlock(w) => DataComplete(s, w)
    case DataRaised(w) => DataError(s, w)
    case DataFailed(w) => DataFail(s, w)
  }

  function ApplyCleanup(s: State, e: Event): State
    requires IsCleanupEvent(e)
  {
    match e
    case CleanupStarted(p) => StartCleanup(s, p)
    case RdpsPurged(p) => Purge(s, p)
    case CleanupEnded(p) => EndCleanup(s, p)
  }

  function Apply(s: State, e: Event): State {
    if IsRecordEvent(e) then ApplyRecord(s, e)
    else if IsOperationEvent(e) then ApplyOperation(s, e)
    else if IsPreparationEvent(e) then ApplyPreparation(s, e)
    else if IsDataEvent(e) then ApplyData(s, e)
    else ApplyCleanup(s, e)
  }

  function Run(s: State, events: seq<Event>): State {
    if events == [] then s else Apply(Run(s, events[..|events| - 1]), events[|events| - 1])
  }

  lemma RecordStepInv(s: State, e: Event)
    requires Inv(s) && IsRecordEvent(e)
    ensures Inv(Apply(s, e))
  {
    hide Inv, Import, Delete, Create, Reset, Cancel, CreateClean, ContinueReplacement;
    match e {
      case Imported(h, i) => ImportInv(s, h, i);
      case Deleted(h, i) => DeleteInv(s, h, i);
      case CreateBlock(p, selection, thresholds, date) => CreateInv(s, p, selection, thresholds, date);
      case ResetBlock(r) => ResetInv(s, r);
      case CancelBlock(r, rejection) => CancelInv(s, r, rejection);
      case CleanBlock(r, valid, date) => CreateCleanInv(s, r, valid, date);
      case ReplacementBlock(r, q) => ContinueReplacementInv(s, r, q);
      case _ =>
    }
  }

  lemma OperationStepInv(s: State, e: Event)
    requires Inv(s) && IsOperationEvent(e)
    ensures Inv(Apply(s, e))
  {
    hide Inv, ClaimOperation, FailOperation, CompleteOperation, RetryOperations, Evaluate, ReviewPush, RetryPush, FailStuck;
    match e {
      case OperationClaimed(r, k) => ClaimOperationInv(s, r, k);
      case OperationFailed(r, k) => FailOperationInv(s, r, k);
      case OperationCompleted(r, k, findings) => CompleteOperationInv(s, r, k, findings);
      case OperationsRetried(r) => RetryOperationsInv(s, r);
      case EvaluateBlock(r) => EvaluateInv(s, r);
      case ReviewBlock(r) => ReviewPushInv(s, r);
      case RetryBlock(r) => RetryPushInv(s, r);
      case StuckBlock(r, a) => FailStuckInv(s, r, a);
      case _ =>
    }
  }

  lemma CallbackStepInv(s: State, e: Event)
    requires Inv(s) && (e.CallbackBlock? || e.CallbackRaised?)
    ensures Inv(Apply(s, e))
  {
    hide Inv, Callback, CallbackError;
    CallbackInv(s, e.rdp, e.attempt);
  }

  lemma PreparationStepInv(s: State, e: Event)
    requires Inv(s) && IsPreparationEvent(e)
    ensures Inv(Apply(s, e))
  {
    hide Inv, PreparationStart, PreparationReset, PreparationMerged, PreparationSchedule, PreparationError, PreparationFail;
    if e.CallbackBlock? || e.CallbackRaised? {
      CallbackStepInv(s, e);
    } else {
      match e {
        case PreparationStarted(r, a, x) => PreparationStartInv(s, r, a, x);
        case ResetAnswered(w, answer) => PreparationResetInv(s, w, answer);
        case MergedBlock(w) => PreparationMergedInv(s, w);
        case ScheduleBlock(w) => PreparationScheduleInv(s, w);
        case PreparationRaised(w) => PreparationErrorInv(s, w);
        case PreparationFailed(w) => PreparationFailInv(s, w);
        case _ =>
      }
    }
  }

  predicate IsDataBegin(e: Event) {
    e.ClaimBlock? || e.ClaimRaised? || e.Preflight? || e.CreateAnswered?
  }

  /** The steps of a data worker before its RDI is recorded. */
  lemma DataBeginInv(s: State, e: Event)
    requires Inv(s) && IsDataBegin(e)
    ensures Inv(Apply(s, e))
  {
    hide Inv, DataClaim, DataClaimError, DataPreflight, DataCreate;
    match e {
      case ClaimBlock(r, a) => DataClaimInv(s, r, a);
      case ClaimRaised(r, a) => DataClaimErrorInv(s, r, a);
      case Preflight(w, valid) => DataPreflightInv(s, w, valid);
      case CreateAnswered(w, x) => DataCreateInv(s, w, x);
    }
  }

  lemma DataStepInv(s: State, e: Event)
    requires Inv(s) && IsDataEvent(e) && !IsDataBegin(e)
    ensures Inv(Apply(s, e))
  {
    hide Inv, DataRecord, DataSend, DataComplete, DataError, DataFail;
    match e {
      case RecordBlock(w) => DataRecordInv(s, w);
      case AllSent(w) => DataSendInv(s, w);
      case CompleteBlock(w) => DataCompleteInv(s, w);
      case DataRaised(w) => DataErrorInv(s, w);
      case DataFailed(w) => DataFailInv(s, w);
      case _ =>
    }
  }

  lemma CleanupStepInv(s: State, e: Event)
    requires Inv(s) && IsCleanupEvent(e)
    ensures Inv(Apply(s, e))
  {
    hide Inv, StartCleanup, Purge, EndCleanup;
    match e {
      case CleanupStarted(p) => StartCleanupInv(s, p);
      case RdpsPurged(p) => PurgeInv(s, p);
      case CleanupEnded(p) => EndCleanupInv(s, p);
      case _ =>
    }
  }

  lemma StepInv(s: State, e: Event)
    requires Inv(s)
    ensures Inv(Apply(s, e))
  {
    if IsRecordEvent(e) {
      RecordStepInv(s, e);
    } else if IsOperationEvent(e) {
      OperationStepInv(s, e);
    } else if IsPreparationEvent(e) {
      PreparationStepInv(s, e);
    } else if IsDataBegin(e) {
      DataBeginInv(s, e);
    } else if IsDataEvent(e) {
      DataStepInv(s, e);
    } else {
      CleanupStepInv(s, e);
    }
  }

  lemma {:induction false} RunInv(s: State, events: seq<Event>)
    requires Initial(s)
    ensures Inv(Run(s, events))
  {
    if events == [] {
      InitialInv(s);
    } else {
      RunInv(s, events[..|events| - 1]);
      StepInv(Run(s, events[..|events| - 1]), events[|events| - 1]);
    }
  }

  // ----- no beneficiary in two successful RDPs -----

  function Represented(s: State, r: nat): set<nat>
    requires r in s.rdps
  {
    SelectedIndividuals(s, MasterDetail(s, s.rdps[r].program), s.rdps[r].selection)
  }

  /**
   * In every reachable state, two successful RDPs of a programme share neither a selected
   * record nor a represented individual, and everything a successful RDP represents is removed.
   */
  lemma {:induction false} SuccessIsExclusive(s: State, events: seq<Event>, r: nat, q: nat)
    requires Initial(s)
    requires var t := Run(s, events);
      && r in t.rdps && q in t.rdps && r != q && t.rdps[r].program == t.rdps[q].program
      && t.rdps[r].status == Success && t.rdps[q].status == Success
    ensures var t := Run(s, events);
      && t.rdps[r].selection !! t.rdps[q].selection
      && Represented(t, r) !! Represented(t, q)
      && BeneficiariesRemoved(t, r) && BeneficiariesRemoved(t, q)
  {
    RunInv(s, events);
    var t := Run(s, events);
    assert NoOverlap(t, r);
  }

  // ----- one claim and one RDI per attempt -----

  /**
   * However often jobs and callbacks are delivered, an attempt is claimed by at most one data
   * worker and HOPE is asked for at most one RDI for it.
   */
  lemma {:induction false} OneClaimPerAttempt(s: State, events: seq<Event>, i: nat, j: nat)
    requires Initial(s)
    requires var t := Run(s, events);
      && i < j < |t.workers| && t.workers[i].DataPush? && t.workers[j].DataPush?
    ensures var t := Run(s, events);
      t.workers[i].attempt != t.workers[j].attempt && NoDuplicates(t.creations)
  {
    RunInv(s, events);
  }

  /** The error "hope_rdi_id changed before completion" cannot be raised. */
  lemma {:induction false} RecordedIdIsStable(s: State, events: seq<Event>, w: nat)
    requires Initial(s)
    requires var t := Run(s, events);
      && DataAt(t, w) && t.workers[w].data.Pushed? && Current(t, t.workers[w].rdp, t.workers[w].attempt)
    ensures var t := Run(s, events);
      t.rdps[t.workers[w].rdp].rdi == Real(t.workers[w].data.rdi)
  {
    RunInv(s, events);
    assert WorkerOk(Run(s, events), Run(s, events).workers[w]);
  }

  // ----- recorded ids are not forgotten -----

  /** The event schedules the data push of r's current attempt for the first time. */
  ghost predicate FirstScheduling(s: State, e: Event, r: nat) {
    && r in s.rdps && s.rdps[r].attempt.Some?
    && var a := s.rdps[r].attempt.value;
    && Current(s, r, a) && DataJob(a) !in s.rdps[r].jobs
    && (|| (e == CallbackBlock(r, a) && TokenIssued(s, r, a))
        || (e.ScheduleBlock? && PreparationAt(s, e.worker, ReadyToSchedule)
            && s.workers[e.worker].rdp == r && s.workers[e.worker].attempt == a))
  }

  /** A preparation worker of the current attempt learns that the RDI it had to reset is merged. */
  ghost predicate MergedAs(s: State, e: Event, r: nat, id: string) {
    && e.MergedBlock? && PreparationAt(s, e.worker, AlreadyMerged)
    && s.workers[e.worker].rdp == r && Current(s, r, s.workers[e.worker].attempt)
    && s.workers[e.worker].toReset == Some(id)
  }

  /**
   * Exactly when a step replaces the id recorded on an unfinished RDP: when it schedules the
   * attempt's data push for the first time, or when a redelivered preparation job hears that
   * another id is already merged.
   */
  lemma {:induction false} ForgettingSteps(s: State, e: Event, r: nat, x: string)
    requires CleanupOk(s) && WorkersOk(s)
    requires r < s.nextRdp && Recorded(s, r, x)
    requires r in Apply(s, e).rdps
    ensures Apply(s, e).rdps[r].rdi != Real(x) <==>
      FirstScheduling(s, e, r) || exists y :: y != x && MergedAs(s, e, r, y)
  {
    if FirstScheduling(s, e, r) {
      FirstSchedulingClears(s, e, r);
    } else if e.MergedBlock? {
      MergedAnswerReplaces(s, e, r, x);
    } else {
      assert !(exists y :: MergedAs(s, e, r, y));
      if IsRecordEvent(e) {
        RecordStepsKeepId(s, e, r, x);
      } else if IsOperationEvent(e) {
        OperationStepsKeepId(s, e, r, x);
      } else if IsPreparationEvent(e) {
        PreparationStepsKeepId(s, e, r, x);
      } else if IsDataEvent(e) {
        DataStepsKeepId(s, e, r, x);
      } else {
        CleanupStepsKeepId(s, e, r, x);
      }
    }
  }

  lemma FirstSchedulingClears(s: State, e: Event, r: nat)
    requires CleanupOk(s) && FirstScheduling(s, e, r)
    ensures r in Apply(s, e).rdps && Apply(s, e).rdps[r].rdi == Unset
  {
  }

  lemma MergedAnswerReplaces(s: State, e: Event, r: nat, x: string)
    requires r in s.rdps && s.rdps[r].rdi == Real(x) && e.MergedBlock?
    ensures r in Apply(s, e).rdps
    ensures Apply(s, e).rdps[r].rdi != Real(x) <==> exists y :: y != x && MergedAs(s, e, r, y)
  {
    if PreparationAt(s, e.worker, AlreadyMerged) && s.workers[e.worker].toReset.Some? {
      var y := s.workers[e.worker].toReset.value;
      assert s.workers[e.worker].rdp == r && Current(s, r, s.workers[e.worker].attempt) ==> MergedAs(s, e, r, y);
    }
  }

  ghost predicate Recorded(s: State, r: nat, x: string) {
    r in s.rdps && s.rdps[r].status.Unfinished() && s.rdps[r].rdi == Real(x)
  }

  lemma RecordStepsKeepId(s: State, e: Event, r: nat, x: string)
    requires r < s.nextRdp && Recorded(s, r, x) && IsRecordEvent(e)
    ensures r in Apply(s, e).rdps && Apply(s, e).rdps[r].rdi == Real(x)
  {
  }

  lemma OperationStepsKeepId(s: State, e: Event, r: nat, x: string)
    requires Recorded(s, r, x) && IsOperationEvent(e)
    ensures r in Apply(s, e).rdps && Apply(s, e).rdps[r].rdi == Real(x)
  {
    if e.EvaluateBlock? {
      EvaluationKeepsId(s, e, r, x);
    }
  }

  lemma EvaluationKeepsId(s: State, e: Event, r: nat, x: string)
    requires Recorded(s, r, x) && e.EvaluateBlock?
    ensures r in Apply(s, e).rdps && Apply(s, e).rdps[r].rdi == Real(x)
  {
  }

  lemma PreparationStepsKeepId(s: State, e: Event, r: nat, x: string)
    requires CleanupOk(s)
    requires Recorded(s, r, x) && IsPreparationEvent(e) && !e.MergedBlock? && !FirstScheduling(s, e, r)
    ensures r in Apply(s, e).rdps && Apply(s, e).rdps[r].rdi == Real(x)
  {
    if e.CallbackBlock? || e.CallbackRaised? {
      CallbackKeepsId(s, e, r, x);
    }
  }

  lemma CallbackKeepsId(s: State, e: Event, r: nat, x: string)
    requires CleanupOk(s)
    requires Recorded(s, r, x) && (e.CallbackBlock? || e.CallbackRaised?) && !FirstScheduling(s, e, r)
    ensures r in Apply(s, e).rdps && Apply(s, e).rdps[r].rdi == Real(x)
  {
  }

  lemma DataStepsKeepId(s: State, e: Event, r: nat, x: string)
    requires WorkersOk(s)
    requires Recorded(s, r, x) && IsDataEvent(e)
    ensures r in Apply(s, e).rdps && Apply(s, e).rdps[r].rdi == Real(x)
  {
    hide Apply, Recorded, IsDataEvent;
    if e.RecordBlock? {
      RecordBlockKeepsId(s, e, r, x);
    } else if e.CompleteBlock? || e.DataFailed? || e.ClaimRaised? {
      EndingKeepsId(s, e, r, x);
    } else {
      MovingKeepsId(s, e, r, x);
    }
  }

  lemma RecordBlockKeepsId(s: State, e: Event, r: nat, x: string)
    requires WorkersOk(s) && Recorded(s, r, x) && e.RecordBlock?
    ensures r in Apply(s, e).rdps && Apply(s, e).rdps[r].rdi == Real(x)
  {
    assert DataAt(s, e.worker) ==> WorkerOk(s, s.workers[e.worker]);
    RecordingKeepsId(s, e.worker, r, x);
  }

  lemma MovingKeepsId(s: State, e: Event, r: nat, x: string)
    requires Recorded(s, r, x) && IsDataEvent(e)
    requires !e.RecordBlock? && !e.CompleteBlock? && !e.DataFailed? && !e.ClaimRaised?
    ensures r in Apply(s, e).rdps && Apply(s, e).rdps[r].rdi == Real(x)
  {
  }

  lemma EndingKeepsId(s: State, e: Event, r: nat, x: string)
    requires Recorded(s, r, x) && (e.CompleteBlock? || e.DataFailed? || e.ClaimRaised?)
    ensures r in Apply(s, e).rdps && Apply(s, e).rdps[r].rdi == Real(x)
  {
  }

  lemma RecordingKeepsId(s: State, w: nat, r: nat, x: string)
    requires DataAt(s, w) ==> WorkerOk(s, s.workers[w])
    requires Recorded(s, r, x)
    ensures r in DataRecord(s, w).rdps && DataRecord(s, w).rdps[r].rdi == Real(x)
  {
  }

  lemma CleanupStepsKeepId(s: State, e: Event, r: nat, x: string)
    requires Recorded(s, r, x) && IsCleanupEvent(e)
    requires r in Apply(s, e).rdps
    ensures Apply(s, e).rdps[r].rdi == Real(x)
  {
  }
}
