/**
 * The workflow once more, as a table: for every event, what it makes of a row that was there
 * before. The table speaks of rows only and shares no definition with the steps; TableHolds
 * says that the steps keep to it.
 */
module RdpTable {
  import opened Common
  import opened PushPolicy
  import opened RdpState
  import opened RdpSteps
  import opened RdpRuns

  // ----- the threshold, as an inequality of reals -----

  /** The findings that are not system errors. */
  function AffectingFindings(findings: seq<Finding>): set<nat> {
    set i: nat | i < |findings| && findings[i].code != GenericError
  }

  lemma {:induction false} AffectingCountIsSize(findings: seq<Finding>)
    ensures AffectingCount(findings) == |AffectingFindings(findings)|
  {
    if findings != [] {
      var rest := findings[1..];
      AffectingCountIsSize(rest);
      var shifted := set i: nat | i in AffectingFindings(rest) :: i + 1;
      ShiftedSize(AffectingFindings(rest));
      var first: set<nat> := if findings[0].code != GenericError then {0} else {};
      assert AffectingFindings(findings) == first + shifted by {
        forall i: nat ensures i in AffectingFindings(findings) <==> i in first + shifted {
          if 0 < i < |findings| {
            assert findings[i] == rest[i - 1];
            assert i in shifted <==> i - 1 in AffectingFindings(rest);
          }
        }
      }
      assert first !! shifted;
    }
  }

  lemma {:induction false} ShiftedSize(s: set<nat>)
    ensures |set i: nat | i in s :: i + 1| == |s|
  {
    if s != {} {
      var x :| x in s;
      ShiftedSize(s - {x});
      var all, rest := set i: nat | i in s :: i + 1, set i: nat | i in s - {x} :: i + 1;
      forall y: nat ensures y in all <==> y in rest + {x + 1} {
        if y in all && y != x + 1 {
          var i: nat :| i in s && y == i + 1;
          assert i in s - {x};
        }
        if y in rest {
          var i: nat :| i in s - {x} && y == i + 1;
          assert i in s;
        }
      }
      assert all == rest + {x + 1};
      assert x + 1 !in rest;
    }
  }

  /** The individuals that an RDP stands for: members of its households, or itself a selection of individuals. */
  function Persons(s: State, row: Rdp): set<nat> {
    set i | i in s.individuals &&
      if row.program in s.programs && s.programs[row.program].masterDetail
      then s.individuals[i].household.Some? && s.individuals[i].household.value in row.selection
      else i in row.selection
  }

  /** More findings than the threshold allows, or a higher rate of findings per person. */
  ghost predicate TooMany(findings: nat, persons: nat, threshold: Threshold)
    requires persons > 0
  {
    match threshold.kind
    case Count => findings as real > threshold.hundredths as real / 100.0
    case Rate => findings as real / persons as real > threshold.hundredths as real / 10_000.0
  }

  /** A count is compared without rounding, a rate as long as both products have at most 28 digits. */
  predicate Unrounded(findings: nat, persons: nat, threshold: Threshold) {
    threshold.kind == Rate ==>
      findings * 100 < 10_000_000_000_000_000_000_000_000_000
      && threshold.hundredths * persons < 10_000_000_000_000_000_000_000_000_000
  }

  lemma ExceededIsTooMany(findings: nat, persons: nat, threshold: Threshold)
    requires persons > 0 && threshold.hundredths >= 0 && Unrounded(findings, persons, threshold)
    ensures ThresholdExceeded(findings, persons, threshold) == Some(TooMany(findings, persons, threshold))
  {
    if threshold.kind == Rate {
      ContextBound();
      ThresholdIsExact(findings, persons, threshold);
    } else {
      assert findings as real > threshold.hundredths as real / 100.0 <==> findings as real * 100.0 > threshold.hundredths as real;
    }
  }

  // ----- evaluation -----

  /** A pending RDP outside cleanup whose operations have all succeeded. */
  predicate Ready(s: State, r: nat) {
    && r in s.rdps && s.rdps[r].status == Pending
    && !(s.rdps[r].program in s.programs && s.programs[s.rdps[r].program].cleanup)
    && forall k <- s.rdps[r].operations :: s.rdps[r].operations[k].status == Succeeded
  }

  /** A new attempt: its id is fresh and its preparation job carries the id to reset. */
  ghost predicate Starts(s: State, row: Rdp, after: Rdp) {
    after == row.(
      status := PushPending, attempt := Some(|s.attempts|),
      jobs := row.jobs + {PrepareJob(|s.attempts|, match row.rdi case Real(id) => Some(id) case _ => None)})
  }

  /**
   * What an evaluation decides and leaves: review exactly when there are too many affecting
   * findings for the operation's own threshold, otherwise a push; an error if the RDP stands
   * for nobody or the threshold is negative. An excess is overlooked exactly when the two
   * products of a rate round to the same number, which takes more than 28 digits.
   */
  ghost predicate Evaluated(s: State, r: nat, verdict: Evaluation, after: Rdp)
    requires r in s.rdps
  {
    var row := s.rdps[r];
    if !Ready(s, r) then verdict == NotEvaluated && after == row
    else if Biometric !in row.operations then verdict == PushNow && Starts(s, row, after)
    else
      var o, persons := row.operations[Biometric], |Persons(s, row)|;
      if persons == 0 || o.threshold.hundredths < 0 then verdict == EvaluationError && after == row
      else
        var findings := |AffectingFindings(o.findings)|;
        && (verdict == Review ==> after == row.(status := ReviewPending))
        && (verdict == PushNow ==> Starts(s, row, after))
        && verdict in {Review, PushNow}
        && (verdict == Review <==> TooMany(findings, persons, o.threshold) && !RoundsAway(findings, persons, o.threshold))
        && (Unrounded(findings, persons, o.threshold) ==> (verdict == Review <==> TooMany(findings, persons, o.threshold)))
  }

  lemma ExceededUnlessRounded(findings: nat, persons: nat, threshold: Threshold)
    requires persons > 0 && threshold.hundredths >= 0
    ensures ThresholdExceeded(findings, persons, threshold)
      == Some(TooMany(findings, persons, threshold) && !RoundsAway(findings, persons, threshold))
  {
    ThresholdDecides(findings, persons, threshold);
    hide RoundsAway, ThresholdExceeded;
    assert threshold.hundredths as real / 100.0 / 100.0 == threshold.hundredths as real / 10_000.0;
  }

  lemma PersonsAreSelected(s: State, row: Rdp)
    ensures Persons(s, row) == SelectedIndividuals(s, MasterDetail(s, row.program), row.selection)
  {
  }

  /** Evaluation goes by the operation's own threshold, for every state and every threshold. */
  lemma {:induction false} EvaluationDecides(s: State, r: nat)
    requires r in s.rdps
    ensures var t := Evaluate(s, r);
      && r in t.rdps && Evaluated(s, r, Verdict(s, r), t.rdps[r])
      && t.rdps == s.rdps[r := t.rdps[r]]
      && t == s.(rdps := t.rdps, attempts := if s.rdps[r].status == Pending && t.rdps[r].status == PushPending then s.attempts + [r] else s.attempts)
  {
    var row := s.rdps[r];
    if Ready(s, r) && Biometric in row.operations {
      var o := row.operations[Biometric];
      PersonsAreSelected(s, row);
      AffectingCountIsSize(o.findings);
      var findings, persons := |AffectingFindings(o.findings)|, |Persons(s, row)|;
      if persons > 0 && o.threshold.hundredths >= 0 {
        ExceededUnlessRounded(findings, persons, o.threshold);
      }
      if persons > 0 && o.threshold.hundredths >= 0 && Unrounded(findings, persons, o.threshold) {
        ExceededIsTooMany(findings, persons, o.threshold);
      }
    }
  }

  // ----- what rows become -----

  predicate InCleanup(s: State, row: Rdp) {
    row.program in s.programs && s.programs[row.program].cleanup
  }

  /** The row carries this attempt. */
  predicate Carries(s: State, r: nat, a: nat) {
    r in s.rdps && s.rdps[r].status == PushPending && s.rdps[r].attempt == Some(a)
  }

  predicate Cancels(row: Rdp, after: Rdp, jobs: set<Job>) {
    after == row.(status := Cancelled, attempt := None, jobs := row.jobs + jobs,
                  rdi := match row.rdi case Unset => NotAvailable case _ => row.rdi)
  }

  /** A recorded id wins over the one the caller knows, which wins over "N/A". */
  predicate Fails(row: Rdp, after: Rdp, known: Option<string>) {
    after == row.(status := Failure, attempt := None,
                  rdi := match row.rdi case Real(_) => row.rdi case _ => if known.Some? then Real(known.value) else NotAvailable)
  }

  predicate Succeeds(row: Rdp, after: Rdp, id: string) {
    after == row.(status := Success, attempt := None, rdi := Real(id))
  }

  /** The first scheduling adds the job and erases the id; outside cleanup only. */
  predicate Schedules(s: State, row: Rdp, after: Rdp, a: nat) {
    if InCleanup(s, row) || DataJob(a) in row.jobs then after == row
    else after == row.(jobs := row.jobs + {DataJob(a)}, rdi := Unset)
  }

  /** One job for each of these operations. */
  ghost predicate AddsJobs(row: Rdp, after: Rdp, kinds: set<Kind>) {
    && after == row.(jobs := after.jobs)
    && forall j :: j in after.jobs <==> j in row.jobs || (j.OperationJob? && j.kind in kinds)
  }

  ghost predicate SetsOperation(row: Rdp, after: Rdp, k: Kind, operation: Operation) {
    after == row.(operations := row.operations[k := operation], jobs := after.jobs)
  }

  /** No success of the programme is later, by push date and then by key. */
  ghost predicate LatestSuccess(s: State, r: nat)
    requires r in s.rdps
  {
    && s.rdps[r].status == Success
    && forall o ::
      o in s.rdps && o != r && s.rdps[o].program == s.rdps[r].program && s.rdps[o].status == Success ==>
        s.rdps[o].pushDate < s.rdps[r].pushDate || (s.rdps[o].pushDate == s.rdps[r].pushDate && o < r)
  }

  ghost predicate Cancellable(row: Rdp) {
    && row.status in {Pending, Failure, ReviewPending}
    && forall k :: k in row.operations ==> row.operations[k].status != Running
  }

  // ----- the table -----

  /** Blocks of the lifecycle and of the clean replacement. */
  ghost predicate RecordFits(s: State, e: Event, t: State, r: nat)
    requires IsRecordEvent(e) && r in s.rdps && r in t.rdps
  {
    var row, after := s.rdps[r], t.rdps[r];
    match e
    case ResetBlock(x) =>
      if x == r && !InCleanup(s, row) && LatestSuccess(s, r) then Cancels(row, after, {}) else after == row
    case CancelBlock(x, rejection) =>
      if x == r && Cancellable(row)
      then Cancels(row, after, if rejection && !InCleanup(s, row) then {RejectJob(None)} else {}) else after == row
    case CleanBlock(x, _, _) =>
      if x == r && t.nextRdp != s.nextRdp
      then row.status == ReviewPending && Cancels(row, after, {RejectJob(Some(s.nextRdp))}) else after == row
    case ReplacementBlock(x, q) =>
      if q == r && row.status == Pending && !InCleanup(s, row) && x in s.rdps && s.rdps[x].program == row.program
         && s.rdps[x].status == Cancelled && RejectJob(Some(r)) in s.rdps[x].jobs
      then AddsJobs(row, after, row.operations.Keys) else after == row
    case Deleted(_, _) =>
      && after == row.(selection := after.selection, operations := after.operations)
      && after.selection <= row.selection && after.operations.Keys == row.operations.Keys
    case _ => after == row
  }

  ghost predicate OperationFits(s: State, e: Event, t: State, r: nat)
    requires IsOperationEvent(e) && r in s.rdps && r in t.rdps
  {
    var row, after := s.rdps[r], t.rdps[r];
    match e
    case OperationClaimed(x, k) =>
      if x == r && k in row.operations && row.status == Pending && row.operations[k].status in {Waiting, Failed}
      then after == row.(operations := row.operations[k := row.operations[k].(status := Running, runs := row.operations[k].runs + 1)])
      else after == row
    case OperationFailed(x, k) =>
      if x == r && k in row.operations && row.operations[k].status == Running
      then after == row.(operations := row.operations[k := row.operations[k].(status := Failed)])
      else after == row
    case OperationCompleted(x, k, findings) =>
      if x == r && k in row.operations && row.operations[k].status == Running
      then Completes(s, row, after, k, findings) else after == row
    case OperationsRetried(x) =>
      if x == r && row.status == Pending && !InCleanup(s, row)
      then AddsJobs(row, after, set k | k in row.operations && row.operations[k].status == Failed) else after == row
    case EvaluateBlock(x) =>
      if x == r then exists verdict :: Evaluated(s, r, verdict, after) else after == row
    case ReviewBlock(x) =>
      if x == r && row.status == ReviewPending && !InCleanup(s, row) then Starts(s, row, after) else after == row
    case RetryBlock(x) =>
      if x == r && row.status == Failure && !InCleanup(s, row)
         && forall k :: k in row.operations ==> row.operations[k].status == Succeeded
      then Starts(s, row, after) else after == row
    case StuckBlock(x, a) =>
      if x == r && Carries(s, r, a) && DataJob(a) !in row.jobs && (exists id :: PrepareJob(a, id) in row.jobs)
      then Fails(row, after, None) else after == row
  }

  /** The findings passed in are stored, and the evaluation is scheduled when nothing is left to run. */
  ghost predicate Completes(s: State, row: Rdp, after: Rdp, k: Kind, findings: seq<Finding>)
    requires k in row.operations
  {
    var last := forall j :: j in row.operations && j != k ==> row.operations[j].status == Succeeded;
    && SetsOperation(row, after, k, row.operations[k].(status := Succeeded, findings := findings))
    && after.jobs == row.jobs + if last && !InCleanup(s, row) then {EvaluateJob} else {}
  }

  ghost predicate PreparationFits(s: State, e: Event, t: State, r: nat)
    requires IsPreparationEvent(e) && r in s.rdps && r in t.rdps
  {
    var row, after := s.rdps[r], t.rdps[r];
    match e
    case MergedBlock(w) =>
      if PreparesFor(s, w, r, AlreadyMerged) && s.workers[w].toReset.Some? then Succeeds(row, after, s.workers[w].toReset.value)
      else after == row
    case ScheduleBlock(w) =>
      if PreparesFor(s, w, r, ReadyToSchedule) then Schedules(s, row, after, s.workers[w].attempt) else after == row
    case PreparationFailed(w) =>
      if PreparesFor(s, w, r, PreparationFailing) then Fails(row, after, s.workers[w].toReset) else after == row
    case CallbackBlock(x, a) =>
      if x == r && Carries(s, r, a) && ResetRequested(s, r, a) then Schedules(s, row, after, a) else after == row
    case CallbackRaised(x, a) =>
      if x == r && Carries(s, r, a) && ResetRequested(s, r, a) then Fails(row, after, None) else after == row
    case _ => after == row
  }

  /** The token of the callback was signed when a reset was requested in that attempt. */
  ghost predicate ResetRequested(s: State, r: nat, a: nat) {
    a < |s.attempts| && s.attempts[a] == r && exists id :: (a, id) in s.resets
  }

  /** A preparation worker at this stage whose attempt the row carries. */
  predicate PreparesFor(s: State, w: nat, r: nat, stage: PreparationStage) {
    && w < |s.workers| && s.workers[w].Preparation? && s.workers[w].preparation == stage
    && s.workers[w].rdp == r && Carries(s, r, s.workers[w].attempt)
  }

  ghost predicate DataFits(s: State, e: Event, t: State, r: nat)
    requires IsDataEvent(e) && r in s.rdps && r in t.rdps
  {
    var row, after := s.rdps[r], t.rdps[r];
    match e
    case ClaimBlock(x, a) =>
      if x == r && Carries(s, r, a) && DataJob(a) in row.jobs && row.rdi == Unset then after == row.(rdi := NotAvailable) else after == row
    case ClaimRaised(x, a) =>
      if x == r && Carries(s, r, a) && DataJob(a) in row.jobs then Fails(row, after, None) else after == row
    case RecordBlock(w) =>
      if PushesFor(s, w, r) && s.workers[w].data.Created? then after == row.(rdi := Real(s.workers[w].data.rdi)) else after == row
    case CompleteBlock(w) =>
      if PushesFor(s, w, r) && s.workers[w].data.Pushed? && row.rdi == Real(s.workers[w].data.rdi)
      then Succeeds(row, after, s.workers[w].data.rdi) else after == row
    case DataFailed(w) =>
      if PushesFor(s, w, r) && s.workers[w].data.DataFailing? then Fails(row, after, s.workers[w].data.created) else after == row
    case _ => after == row
  }

  predicate PushesFor(s: State, w: nat, r: nat) {
    w < |s.workers| && s.workers[w].DataPush? && s.workers[w].rdp == r && Carries(s, r, s.workers[w].attempt)
  }

  ghost predicate RowFits(s: State, e: Event, t: State, r: nat)
    requires r in s.rdps && r in t.rdps
  {
    if IsRecordEvent(e) then RecordFits(s, e, t, r)
    else if IsOperationEvent(e) then OperationFits(s, e, t, r)
    else if IsPreparationEvent(e) then PreparationFits(s, e, t, r)
    else if IsDataEvent(e) then DataFits(s, e, t, r)
    else t.rdps[r] == s.rdps[r]
  }

  // ----- the steps keep to the table -----

  lemma RecordKeepsToTable(s: State, e: Event, r: nat)
    requires IsRecordEvent(e) && r in s.rdps && r in Apply(s, e).rdps && r < s.nextRdp
    ensures RecordFits(s, e, Apply(s, e), r)
  {
    if e.CleanBlock? {
      CleanKeepsToTable(s, e, r);
    } else if e.ResetBlock? {
      ResetKeepsToTable(s, e, r);
    } else {
      hide Reset, CreateClean;
    }
  }

  lemma CleanKeepsToTable(s: State, e: Event, r: nat)
    requires e.CleanBlock? && r in s.rdps && r in Apply(s, e).rdps && r < s.nextRdp
    ensures RecordFits(s, e, Apply(s, e), r)
  {
    hide CleanSelection, CleanThresholds, NewOperations, MeetsNoOther, Selectable, HasUnfinished;
  }

  lemma ResetKeepsToTable(s: State, e: Event, r: nat)
    requires e.ResetBlock? && r in s.rdps && r in Apply(s, e).rdps
    ensures RecordFits(s, e, Apply(s, e), r)
  {
  }

  lemma OperationKeepsToTable(s: State, e: Event, r: nat)
    requires IsOperationEvent(e) && r in s.rdps && r in Apply(s, e).rdps
    ensures OperationFits(s, e, Apply(s, e), r)
  {
    if e.EvaluateBlock? {
      if e.rdp in s.rdps {
        EvaluationDecides(s, e.rdp);
      }
      hide Evaluated, Evaluate;
    } else if e.OperationCompleted? {
      CompletionKeepsToTable(s, e, r);
    } else if e.ReviewBlock? || e.RetryBlock? || e.StuckBlock? {
      StartKeepsToTable(s, e, r);
    } else {
      TurnKeepsToTable(s, e, r);
    }
  }

  lemma CompletionKeepsToTable(s: State, e: Event, r: nat)
    requires e.OperationCompleted? && r in s.rdps && r in Apply(s, e).rdps
    ensures OperationFits(s, e, Apply(s, e), r)
  {
    if e.rdp == r && e.kind in s.rdps[r].operations {
      var operations := s.rdps[r].operations;
      var done := operations[e.kind := operations[e.kind].(status := Succeeded, findings := e.findings)];
      assert done[e.kind].status == Succeeded && done.Keys == operations.Keys;
      if AllSucceeded(done) {
        forall j | j in operations && j != e.kind ensures operations[j].status == Succeeded {
          assert done[j] == operations[j];
        }
      }
    }
  }

  lemma StartKeepsToTable(s: State, e: Event, r: nat)
    requires (e.ReviewBlock? || e.RetryBlock? || e.StuckBlock?) && r in s.rdps && r in Apply(s, e).rdps
    ensures OperationFits(s, e, Apply(s, e), r)
  {
    hide Apply;
    if e.ReviewBlock? {
      ReviewKeepsToTable(s, e, r);
    } else if e.RetryBlock? {
      RetryKeepsToTable(s, e, r);
    } else {
      StuckKeepsToTable(s, e, r);
    }
  }

  lemma ReviewKeepsToTable(s: State, e: Event, r: nat)
    requires e.ReviewBlock? && r in s.rdps && r in Apply(s, e).rdps
    ensures OperationFits(s, e, Apply(s, e), r)
  {
  }

  lemma RetryKeepsToTable(s: State, e: Event, r: nat)
    requires e.RetryBlock? && r in s.rdps && r in Apply(s, e).rdps
    ensures OperationFits(s, e, Apply(s, e), r)
  {
  }

  lemma StuckKeepsToTable(s: State, e: Event, r: nat)
    requires e.StuckBlock? && r in s.rdps && r in Apply(s, e).rdps
    ensures OperationFits(s, e, Apply(s, e), r)
  {
  }

  lemma TurnKeepsToTable(s: State, e: Event, r: nat)
    requires (e.OperationClaimed? || e.OperationFailed? || e.OperationsRetried?) && r in s.rdps && r in Apply(s, e).rdps
    ensures OperationFits(s, e, Apply(s, e), r)
  {
    hide Apply;
    if e.OperationClaimed? {
      OperationClaimKeepsToTable(s, e, r);
    } else if e.OperationFailed? {
      OperationFailureKeepsToTable(s, e, r);
    } else {
      OperationRetryKeepsToTable(s, e, r);
    }
  }

  lemma OperationClaimKeepsToTable(s: State, e: Event, r: nat)
    requires e.OperationClaimed? && r in s.rdps && r in Apply(s, e).rdps
    ensures OperationFits(s, e, Apply(s, e), r)
  {
  }

  lemma OperationFailureKeepsToTable(s: State, e: Event, r: nat)
    requires e.OperationFailed? && r in s.rdps && r in Apply(s, e).rdps
    ensures OperationFits(s, e, Apply(s, e), r)
  {
  }

  lemma OperationRetryKeepsToTable(s: State, e: Event, r: nat)
    requires e.OperationsRetried? && r in s.rdps && r in Apply(s, e).rdps
    ensures OperationFits(s, e, Apply(s, e), r)
  {
  }

  lemma PreparationKeepsToTable(s: State, e: Event, r: nat)
    requires IsPreparationEvent(e) && r in s.rdps && r in Apply(s, e).rdps
    ensures PreparationFits(s, e, Apply(s, e), r)
  {
    if e.CallbackBlock? || e.CallbackRaised? {
      CallbackKeepsToTable(s, e, r);
    } else if e.MergedBlock? || e.ScheduleBlock? || e.PreparationFailed? {
      EndKeepsToTable(s, e, r);
    } else {
      hide SchedulePushData, FailPendingPush, FinishSuccessfulPush, Callback, CallbackError, PreparationMerged;
    }
  }

  lemma CallbackKeepsToTable(s: State, e: Event, r: nat)
    requires (e.CallbackBlock? || e.CallbackRaised?) && r in s.rdps && r in Apply(s, e).rdps
    ensures PreparationFits(s, e, Apply(s, e), r)
  {
    hide Apply;
    if e.CallbackBlock? {
      ReadyKeepsToTable(s, e, r);
    } else {
      CallbackFailureKeepsToTable(s, e, r);
    }
  }

  lemma ReadyKeepsToTable(s: State, e: Event, r: nat)
    requires e.CallbackBlock? && r in s.rdps && r in Apply(s, e).rdps
    ensures PreparationFits(s, e, Apply(s, e), r)
  {
  }

  lemma CallbackFailureKeepsToTable(s: State, e: Event, r: nat)
    requires e.CallbackRaised? && r in s.rdps && r in Apply(s, e).rdps
    ensures PreparationFits(s, e, Apply(s, e), r)
  {
  }

  lemma EndKeepsToTable(s: State, e: Event, r: nat)
    requires (e.MergedBlock? || e.ScheduleBlock? || e.PreparationFailed?) && r in s.rdps && r in Apply(s, e).rdps
    ensures PreparationFits(s, e, Apply(s, e), r)
  {
    hide Apply;
    if e.MergedBlock? {
      MergedKeepsToTable(s, e, r);
    } else if e.ScheduleBlock? {
      ScheduleKeepsToTable(s, e, r);
    } else {
      PreparationFailureKeepsToTable(s, e, r);
    }
  }

  lemma MergedKeepsToTable(s: State, e: Event, r: nat)
    requires e.MergedBlock? && r in s.rdps && r in Apply(s, e).rdps
    ensures PreparationFits(s, e, Apply(s, e), r)
  {
  }

  lemma ScheduleKeepsToTable(s: State, e: Event, r: nat)
    requires e.ScheduleBlock? && r in s.rdps && r in Apply(s, e).rdps
    ensures PreparationFits(s, e, Apply(s, e), r)
  {
  }

  lemma PreparationFailureKeepsToTable(s: State, e: Event, r: nat)
    requires e.PreparationFailed? && r in s.rdps && r in Apply(s, e).rdps
    ensures PreparationFits(s, e, Apply(s, e), r)
  {
  }

  lemma DataKeepsToTable(s: State, e: Event, r: nat)
    requires IsDataEvent(e) && r in s.rdps && r in Apply(s, e).rdps
    ensures DataFits(s, e, Apply(s, e), r)
  {
    if e.ClaimBlock? || e.ClaimRaised? {
      ClaimKeepsToTable(s, e, r);
    } else if e.RecordBlock? || e.CompleteBlock? || e.DataFailed? {
      PushKeepsToTable(s, e, r);
    } else {
      hide FailPendingPush, FinishSuccessfulPush, MeetsNoOther, DataRecord, DataComplete;
    }
  }

  lemma ClaimKeepsToTable(s: State, e: Event, r: nat)
    requires (e.ClaimBlock? || e.ClaimRaised?) && r in s.rdps && r in Apply(s, e).rdps
    ensures DataFits(s, e, Apply(s, e), r)
  {
  }

  lemma PushKeepsToTable(s: State, e: Event, r: nat)
    requires (e.RecordBlock? || e.CompleteBlock? || e.DataFailed?) && r in s.rdps && r in Apply(s, e).rdps
    ensures DataFits(s, e, Apply(s, e), r)
  {
    hide Apply;
    if e.RecordBlock? {
      RecordingKeepsToTable(s, e, r);
    } else if e.CompleteBlock? {
      PushEndKeepsToTable(s, e, r);
    } else {
      PushFailureKeepsToTable(s, e, r);
    }
  }

  lemma RecordingKeepsToTable(s: State, e: Event, r: nat)
    requires e.RecordBlock? && r in s.rdps && r in Apply(s, e).rdps
    ensures DataFits(s, e, Apply(s, e), r)
  {
  }

  lemma PushEndKeepsToTable(s: State, e: Event, r: nat)
    requires e.CompleteBlock? && r in s.rdps && r in Apply(s, e).rdps
    ensures DataFits(s, e, Apply(s, e), r)
  {
  }

  lemma PushFailureKeepsToTable(s: State, e: Event, r: nat)
    requires e.DataFailed? && r in s.rdps && r in Apply(s, e).rdps
    ensures DataFits(s, e, Apply(s, e), r)
  {
  }

  lemma CleanupKeepsToTable(s: State, e: Event, r: nat)
    requires IsCleanupEvent(e) && r in s.rdps && r in Apply(s, e).rdps
    ensures Apply(s, e).rdps[r] == s.rdps[r]
  {
  }

  /** Every event, in every state, makes of each row what the table says. */
  lemma TableHolds(s: State, e: Event, r: nat)
    requires r in s.rdps && r in Apply(s, e).rdps && r < s.nextRdp
    ensures RowFits(s, e, Apply(s, e), r)
  {
    hide Apply, RecordFits, OperationFits, PreparationFits, DataFits;
    if IsRecordEvent(e) {
      RecordKeepsToTable(s, e, r);
    } else if IsOperationEvent(e) {
      OperationKeepsToTable(s, e, r);
    } else if IsPreparationEvent(e) {
      PreparationKeepsToTable(s, e, r);
    } else if IsDataEvent(e) {
      DataKeepsToTable(s, e, r);
    } else {
      CleanupKeepsToTable(s, e, r);
    }
  }

  lemma RecordKeepsJobs(s: State, e: Event, t: State, r: nat)
    requires IsRecordEvent(e) && r in s.rdps && r in t.rdps && RecordFits(s, e, t, r)
    ensures s.rdps[r].jobs <= t.rdps[r].jobs
  {
    hide LatestSuccess, Cancellable;
  }

  lemma OperationKeepsJobs(s: State, e: Event, t: State, r: nat)
    requires IsOperationEvent(e) && r in s.rdps && r in t.rdps && OperationFits(s, e, t, r)
    ensures s.rdps[r].jobs <= t.rdps[r].jobs
  {
    if e.EvaluateBlock? && e.rdp == r {
      var verdict :| Evaluated(s, r, verdict, t.rdps[r]);
      hide Unrounded, TooMany, AffectingFindings, Persons, OperationFits, Ready;
    } else {
      hide Evaluated;
    }
  }

  lemma PushKeepsJobs(s: State, e: Event, t: State, r: nat)
    requires r in s.rdps && r in t.rdps
    requires (IsPreparationEvent(e) && PreparationFits(s, e, t, r)) || (IsDataEvent(e) && DataFits(s, e, t, r))
    ensures s.rdps[r].jobs <= t.rdps[r].jobs
  {
  }

  /** No step takes a job from an RDP. */
  lemma JobsStay(s: State, e: Event, r: nat)
    requires r in s.rdps && r in Apply(s, e).rdps && r < s.nextRdp
    ensures s.rdps[r].jobs <= Apply(s, e).rdps[r].jobs
  {
    hide Apply, RecordFits, OperationFits, PreparationFits, DataFits;
    TableHolds(s, e, r);
    var t := Apply(s, e);
    if IsRecordEvent(e) {
      RecordKeepsJobs(s, e, t, r);
    } else if IsOperationEvent(e) {
      OperationKeepsJobs(s, e, t, r);
    } else if IsPreparationEvent(e) || IsDataEvent(e) {
      PushKeepsJobs(s, e, t, r);
    }
  }

  // ----- rows that are new -----

  /** A selection of records of the programme, of the kind that the programme selects. */
  predicate Choosable(s: State, program: nat, selection: set<nat>) {
    && program in s.programs && selection != {}
    && forall b <- selection ::
      if s.programs[program].masterDetail then b in s.households && s.households[b].program == program
      else b in s.individuals && s.individuals[b].program == program
  }

  predicate NothingUnfinished(s: State, program: nat) {
    forall o <- s.rdps :: s.rdps[o].program == program ==> s.rdps[o].status in {Success, Cancelled}
  }

  ghost predicate Fresh(operations: map<Kind, Operation>, thresholds: map<Kind, Threshold>) {
    && operations.Keys == thresholds.Keys
    && forall k :: k in operations ==> operations[k] == Operation(Waiting, 0, thresholds[k], [])
  }

  /** A creation is refused in cleanup and beside an unfinished RDP; otherwise it stores what was chosen. */
  ghost predicate CreationFits(s: State, e: Event, t: State)
    requires e.CreateBlock?
  {
    if !Choosable(s, e.program, e.selection) || (e.program in s.programs && s.programs[e.program].cleanup)
       || !NothingUnfinished(s, e.program)
    then t == s
    else
      && s.nextRdp in t.rdps && t == s.(rdps := s.rdps[s.nextRdp := t.rdps[s.nextRdp]], nextRdp := s.nextRdp + 1)
      && var row := t.rdps[s.nextRdp];
      && row == Rdp(e.program, Pending, Unset, None, e.selection, e.pushDate, row.operations, row.jobs)
      && Fresh(row.operations, e.thresholds)
      && forall j :: j in row.jobs <==>
        if e.thresholds == map[] then j == EvaluateJob else j.OperationJob? && j.kind in e.thresholds
  }

  lemma CreationHolds(s: State, e: Event)
    requires e.CreateBlock?
    ensures CreationFits(s, e, Apply(s, e))
  {
    assert Choosable(s, e.program, e.selection) <==> Selectable(s, e.program, e.selection);
    assert NothingUnfinished(s, e.program) <==> !HasUnfinished(s, e.program);
    hide Selectable, HasUnfinished, Choosable, NothingUnfinished;
  }

  /** The new RDP of a clean replacement waits without jobs, asks for review on any finding, and keeps the rest. */
  ghost predicate ReplacementFits(s: State, e: Event, t: State)
    requires e.CleanBlock?
  {
    s.nextRdp !in s.rdps && s.nextRdp in t.rdps ==>
      && e.rdp in s.rdps
      && var before, row := s.rdps[e.rdp], t.rdps[s.nextRdp];
      && row == Rdp(before.program, Pending, Unset, None, row.selection, e.pushDate, row.operations, {})
      && row.selection <= before.selection && row.selection != {}
      && row.operations.Keys == before.operations.Keys
      && forall k :: k in row.operations ==>
        row.operations[k] == Operation(Waiting, 0, if k == Biometric then Threshold(Count, 0) else before.operations[k].threshold, [])
  }

  lemma ReplacementHolds(s: State, e: Event)
    requires e.CleanBlock?
    ensures ReplacementFits(s, e, Apply(s, e))
  {
    hide MeetsNoOther, HasUnfinished, Affected;
  }

  /** No other event makes a row. */
  lemma NoOtherCreation(s: State, e: Event, r: nat)
    requires r in Apply(s, e).rdps && r !in s.rdps
    ensures (e.CreateBlock? || e.CleanBlock?) && r == s.nextRdp
  {
    if IsOperationEvent(e) {
      OperationWritesRows(s, e);
    } else if e.MergedBlock? || e.CompleteBlock? {
      SuccessMakesNoRow(s, e);
    } else if IsPreparationEvent(e) {
      PreparationWritesRows(s, e);
    } else if IsDataEvent(e) {
      DataWritesRows(s, e);
    } else {
      hide CleanSelection, MeetsNoOther, Selectable, HasUnfinished, SetRemoved, Import;
    }
  }

  lemma SuccessMakesNoRow(s: State, e: Event)
    requires e.MergedBlock? || e.CompleteBlock?
    ensures Apply(s, e).rdps.Keys == s.rdps.Keys
  {
  }

  /** The step neither makes nor deletes an RDP and touches no beneficiary. */
  ghost predicate OnlyRows(s: State, t: State) {
    t.rdps.Keys == s.rdps.Keys && t.households == s.households && t.individuals == s.individuals
  }

  lemma OperationWritesRows(s: State, e: Event)
    requires IsOperationEvent(e)
    ensures OnlyRows(s, Apply(s, e))
  {
    if e.EvaluateBlock? {
      hide Verdict, StartPush;
      StartWritesRows(s, e.rdp);
    } else {
      hide Verdict, AllSucceeded;
    }
  }

  lemma StartWritesRows(s: State, r: nat)
    ensures r in s.rdps ==> OnlyRows(s, StartPush(s, r))
    ensures r !in s.rdps ==> Verdict(s, r) == NotEvaluated
  {
  }

  lemma PreparationWritesRows(s: State, e: Event)
    requires IsPreparationEvent(e) && !e.MergedBlock?
    ensures OnlyRows(s, Apply(s, e))
  {
  }

  lemma DataWritesRows(s: State, e: Event)
    requires IsDataEvent(e) && !e.CompleteBlock?
    ensures OnlyRows(s, Apply(s, e))
  {
    if e.RecordBlock? || e.DataFailed? || e.ClaimRaised? {
      RecordingWritesRows(s, e);
    } else {
      hide MeetsNoOther, FailPendingPush, DataRecord, DataFail, DataClaimError;
    }
  }

  lemma RecordingWritesRows(s: State, e: Event)
    requires e.RecordBlock? || e.DataFailed? || e.ClaimRaised?
    ensures OnlyRows(s, Apply(s, e))
  {
    hide FailPendingPush;
    FailureWritesRows(s);
  }

  lemma FailureWritesRows(s: State)
    ensures forall r, a, known :: OnlyRows(s, FailPendingPush(s, r, a, known)) && FailPendingPush(s, r, a, known).workers == s.workers
  {
  }

  // ----- beneficiaries -----

  /** The RDP that this step ends as a success. */
  ghost function Succeeding(s: State, e: Event): Option<nat> {
    if e.MergedBlock? && e.worker < |s.workers| && PreparesFor(s, e.worker, s.workers[e.worker].rdp, AlreadyMerged)
       && s.workers[e.worker].toReset.Some?
    then Some(s.workers[e.worker].rdp)
    else if e.CompleteBlock? && e.worker < |s.workers| && PushesFor(s, e.worker, s.workers[e.worker].rdp)
       && s.workers[e.worker].data.Pushed? && s.rdps[s.workers[e.worker].rdp].rdi == Real(s.workers[e.worker].data.rdi)
    then Some(s.workers[e.worker].rdp)
    else None
  }

  /** The RDP that this step takes back. */
  ghost function Resetting(s: State, e: Event): Option<nat> {
    if e.ResetBlock? && e.rdp in s.rdps && !InCleanup(s, s.rdps[e.rdp]) && LatestSuccess(s, e.rdp) then Some(e.rdp) else None
  }

  predicate StandsForHousehold(s: State, row: Rdp, h: nat) {
    row.program in s.programs && s.programs[row.program].masterDetail && h in row.selection
  }

  /** A household of the RDP of this step, if the step has one. */
  ghost predicate HouseholdOf(s: State, r: Option<nat>, h: nat) {
    r.Some? && r.value in s.rdps && StandsForHousehold(s, s.rdps[r.value], h)
  }

  ghost predicate PersonOf(s: State, r: Option<nat>, i: nat) {
    r.Some? && r.value in s.rdps && i in Persons(s, s.rdps[r.value])
  }

  /** Success sets the flag of everybody the RDP stands for, reset clears it, and nothing else changes a beneficiary. */
  ghost predicate FlagsFit(s: State, e: Event, t: State) {
    && (forall h :: h in s.households && h in t.households ==>
          t.households[h] == s.households[h].(removed :=
            if HouseholdOf(s, Succeeding(s, e), h) then true
            else if HouseholdOf(s, Resetting(s, e), h) then false else s.households[h].removed))
    && (forall i :: i in s.individuals && i in t.individuals ==>
          t.individuals[i] == s.individuals[i].(removed :=
            if PersonOf(s, Succeeding(s, e), i) then true
            else if PersonOf(s, Resetting(s, e), i) then false else s.individuals[i].removed))
  }

  lemma ResetFlags(s: State, e: Event)
    requires e.ResetBlock?
    ensures FlagsFit(s, e, Apply(s, e))
  {
    if e.rdp in s.rdps {
      PersonsAreSelected(s, s.rdps[e.rdp]);
    }
    hide SelectedIndividuals, Persons;
  }

  lemma MergedFlags(s: State, e: Event)
    requires e.MergedBlock?
    ensures FlagsFit(s, e, Apply(s, e))
  {
    if e.worker < |s.workers| && s.workers[e.worker].rdp in s.rdps {
      PersonsAreSelected(s, s.rdps[s.workers[e.worker].rdp]);
    }
    hide SelectedIndividuals, Persons;
  }

  lemma CompletionFlags(s: State, e: Event)
    requires e.CompleteBlock?
    ensures FlagsFit(s, e, Apply(s, e))
  {
    if e.worker < |s.workers| && s.workers[e.worker].rdp in s.rdps {
      PersonsAreSelected(s, s.rdps[s.workers[e.worker].rdp]);
    }
    hide SelectedIndividuals, Persons;
  }

  predicate TouchesNobody(e: Event) {
    !e.ResetBlock? && !e.MergedBlock? && !e.CompleteBlock? && !e.Imported? && !e.Deleted?
  }

  lemma OtherTouchesNobody(s: State, e: Event)
    requires TouchesNobody(e) && !IsOperationEvent(e) && !IsPreparationEvent(e) && !IsDataEvent(e)
    ensures Apply(s, e).households == s.households && Apply(s, e).individuals == s.individuals
  {
  }

  lemma ImportFlags(s: State, e: Event)
    requires e.Imported? || e.Deleted?
    ensures FlagsFit(s, e, Apply(s, e))
  {
  }

  lemma OtherFlags(s: State, e: Event)
    requires TouchesNobody(e)
    ensures FlagsFit(s, e, Apply(s, e))
  {
    hide Apply;
    if IsOperationEvent(e) {
      OperationWritesRows(s, e);
    } else if IsPreparationEvent(e) {
      PreparationWritesRows(s, e);
    } else if IsDataEvent(e) {
      DataWritesRows(s, e);
    } else {
      OtherTouchesNobody(s, e);
    }
    NobodyHere(s, e);
    hide FlagsFit;
    SameFlags(s, e, Apply(s, e));
  }

  lemma NobodyHere(s: State, e: Event)
    requires TouchesNobody(e)
    ensures Succeeding(s, e) == None && Resetting(s, e) == None
  {
  }

  lemma SameFlags(s: State, e: Event, t: State)
    requires Succeeding(s, e) == None && Resetting(s, e) == None
    requires t.households == s.households && t.individuals == s.individuals
    ensures FlagsFit(s, e, t)
  {
    hide Succeeding, Resetting;
  }

  lemma FlagsHold(s: State, e: Event)
    ensures FlagsFit(s, e, Apply(s, e))
  {
    hide Apply, FlagsFit;
    if e.ResetBlock? {
      ResetFlags(s, e);
    } else if e.MergedBlock? {
      MergedFlags(s, e);
    } else if e.CompleteBlock? {
      CompletionFlags(s, e);
    } else if e.Imported? || e.Deleted? {
      ImportFlags(s, e);
    } else {
      OtherFlags(s, e);
    }
  }

  /**
   * An allowed reset gives everybody the RDP stands for back: their flags are cleared, no other
   * beneficiary changes, and of the RDPs only this one, which is cancelled and keeps its id.
   */
  ghost predicate GivenBack(s: State, t: State, r: nat)
    requires r in s.rdps
  {
    var row := s.rdps[r];
    && t.rdps == s.rdps[r := row.(status := Cancelled, attempt := None, rdi := if row.rdi.Unset? then NotAvailable else row.rdi)]
    && t.households.Keys == s.households.Keys && t.individuals.Keys == s.individuals.Keys
    && (forall h :: h in s.households ==>
          t.households[h] == if StandsForHousehold(s, row, h) then s.households[h].(removed := false) else s.households[h])
    && (forall i :: i in s.individuals ==>
          t.individuals[i] == if i in Persons(s, row) then s.individuals[i].(removed := false) else s.individuals[i])
    && t == s.(rdps := t.rdps, households := t.households, individuals := t.individuals)
  }

  lemma ResetGivesBack(s: State, r: nat)
    ensures var t := Reset(s, r);
      if r in s.rdps && LatestSuccess(s, r) && !InCleanup(s, s.rdps[r]) then GivenBack(s, t, r) else t == s
  {
    if r in s.rdps {
      PersonsAreSelected(s, s.rdps[r]);
      assert LatestSuccess(s, r) <==> s.rdps[r].status == Success && !LaterSuccess(s, r);
    }
    hide SelectedIndividuals, Persons, LatestSuccess, LaterSuccess;
  }

  /** Neither a success nor a data push begins here. */
  ghost predicate BeginsNothing(row: Rdp, after: Rdp) {
    && (after.status == Success ==> row.status == Success)
    && forall a :: DataJob(a) in after.jobs ==> DataJob(a) in row.jobs
  }

  lemma RecordBeginsNothing(s: State, e: Event, t: State, r: nat)
    requires IsRecordEvent(e) && r in s.rdps && r in t.rdps && RecordFits(s, e, t, r)
    ensures BeginsNothing(s.rdps[r], t.rdps[r])
  {
    hide LatestSuccess, Cancellable;
  }

  lemma OperationBeginsNothing(s: State, e: Event, t: State, r: nat)
    requires IsOperationEvent(e) && r in s.rdps && r in t.rdps && OperationFits(s, e, t, r)
    ensures BeginsNothing(s.rdps[r], t.rdps[r])
  {
    if e.EvaluateBlock? && e.rdp == r {
      var verdict :| Evaluated(s, r, verdict, t.rdps[r]);
      hide Unrounded, TooMany, AffectingFindings, Persons, OperationFits, Ready;
    } else {
      hide Evaluated;
    }
  }

  ghost predicate EndsWith(s: State, e: Event, id: RdiId)
    requires Succeeding(s, e).Some?
  {
    var x := s.workers[e.worker];
    && (e.MergedBlock? ==> id == Real(x.toReset.value))
    && (e.CompleteBlock? ==> id == Real(x.data.rdi))
  }

  /** A row becomes a success only as the RDP that the step ends as one, with the id of that worker. */
  lemma BecomesSuccess(s: State, e: Event, t: State, r: nat)
    requires r in s.rdps && r in t.rdps && RowFits(s, e, t, r)
    requires s.rdps[r].status != Success && t.rdps[r].status == Success
    ensures Succeeding(s, e) == Some(r) && EndsWith(s, e, t.rdps[r].rdi)
  {
    hide RecordFits, OperationFits;
    if IsRecordEvent(e) {
      RecordBeginsNothing(s, e, t, r);
    } else if IsOperationEvent(e) {
      OperationBeginsNothing(s, e, t, r);
    }
  }

  /** Only a callback or a preparation that is ready schedules a data push. */
  lemma SchedulesBy(s: State, e: Event, t: State, r: nat, a: nat)
    requires r in s.rdps && r in t.rdps && RowFits(s, e, t, r)
    requires DataJob(a) !in s.rdps[r].jobs && DataJob(a) in t.rdps[r].jobs
    ensures (e == CallbackBlock(r, a) && ResetRequested(s, r, a))
      || (e.ScheduleBlock? && PreparesFor(s, e.worker, r, ReadyToSchedule) && s.workers[e.worker].attempt == a)
  {
    hide RecordFits, OperationFits;
    if IsRecordEvent(e) {
      RecordBeginsNothing(s, e, t, r);
    } else if IsOperationEvent(e) {
      OperationBeginsNothing(s, e, t, r);
    }
  }

  /** The attempt goes on as it is. */
  ghost predicate KeepsAttempt(row: Rdp, after: Rdp) {
    && after.status == row.status && after.rdi == row.rdi && after.attempt == row.attempt
    && forall a :: DataJob(a) in after.jobs ==> DataJob(a) in row.jobs
  }

  lemma RecordKeepsAttempt(s: State, e: Event, t: State, r: nat)
    requires IsRecordEvent(e) && r in s.rdps && r in t.rdps && RecordFits(s, e, t, r) && s.rdps[r].status == PushPending
    ensures KeepsAttempt(s.rdps[r], t.rdps[r])
  {
  }

  lemma OperationKeepsAttempt(s: State, e: Event, t: State, r: nat)
    requires IsOperationEvent(e) && r in s.rdps && r in t.rdps && OperationFits(s, e, t, r) && s.rdps[r].status == PushPending
    requires e.StuckBlock? && e.rdp == r ==> s.rdps[r].attempt != Some(e.attempt)
    ensures KeepsAttempt(s.rdps[r], t.rdps[r])
  {
  }

  // ----- imports and deletions -----

  predicate NamesGone(f: Finding, gone: set<nat>) {
    f.individual in gone || match f.related case Some(i) => i in gone case None => false
  }

  /** Members go with their households; selections lose what is gone and operations the findings that name it. */
  ghost predicate DeletionFits(s: State, e: Event, t: State)
    requires e.Deleted?
  {
    && (forall h :: h in t.households <==> h in s.households && h !in e.gone)
    && (forall i :: i in t.individuals <==> i in s.individuals && i !in Gone(s, e))
    && t.rdps.Keys == s.rdps.Keys
    && (forall r :: r in s.rdps ==>
          && t.rdps[r].selection == s.rdps[r].selection -
               (if s.rdps[r].program in s.programs && s.programs[s.rdps[r].program].masterDetail then e.gone else Gone(s, e))
          && t.rdps[r].operations.Keys == s.rdps[r].operations.Keys
          && forall k :: k in s.rdps[r].operations ==> KeepsUnnamed(s.rdps[r].operations[k], t.rdps[r].operations[k], Gone(s, e)))
  }

  function Gone(s: State, e: Event): set<nat>
    requires e.Deleted?
  {
    e.goneIndividuals + set i | i in s.individuals && s.individuals[i].household.Some? && s.individuals[i].household.value in e.gone
  }

  ghost predicate KeepsUnnamed(o: Operation, after: Operation, gone: set<nat>) {
    && after == o.(findings := after.findings)
    && forall f :: f in after.findings <==> f in o.findings && !NamesGone(f, gone)
  }

  lemma {:induction false} KeptFindings(findings: seq<Finding>, gone: set<nat>)
    ensures forall f :: f in KeepFindings(findings, gone) <==> f in findings && !NamesGone(f, gone)
  {
    if findings != [] {
      KeptFindings(findings[1..], gone);
    }
  }

  lemma DeletionHolds(s: State, e: Event)
    requires e.Deleted?
    ensures DeletionFits(s, e, Apply(s, e))
  {
    var t, gone := Apply(s, e), Gone(s, e);
    forall r, k | r in s.rdps && k in s.rdps[r].operations
      ensures KeepsUnnamed(s.rdps[r].operations[k], t.rdps[r].operations[k], gone)
    {
      KeptFindings(s.rdps[r].operations[k].findings, gone);
    }
  }

  /** An import brings new rows without the flag, members with their households only, and changes nothing else. */
  ghost predicate ImportFits(s: State, e: Event, t: State)
    requires e.Imported?
  {
    if t == s then true
    else
      && t == s.(households := s.households + e.households, individuals := s.individuals + e.individuals)
      && (forall h :: h in e.households ==> h !in s.households && !e.households[h].removed)
      && (forall i :: i in e.individuals ==> i !in s.individuals && !e.individuals[i].removed)
      && (forall i :: i in e.individuals && e.individuals[i].household.Some? ==> e.individuals[i].household.value in e.households)
  }

  lemma ImportHolds(s: State, e: Event)
    requires e.Imported?
    ensures ImportFits(s, e, Apply(s, e))
  {
  }

  // ----- data workers -----

  /** The selection is not empty and shares nothing with another open or successful RDP of that mode. */
  ghost predicate Free(s: State, r: nat) {
    && r in s.rdps && s.rdps[r].selection != {}
    && forall o :: o in s.rdps && o != r && s.rdps[o].status != Cancelled && SameMode(s, s.rdps[o], s.rdps[r])
         ==> s.rdps[o].selection !! s.rdps[r].selection
  }

  predicate SameMode(s: State, a: Rdp, b: Rdp) {
    (a.program in s.programs && s.programs[a.program].masterDetail) == (b.program in s.programs && s.programs[b.program].masterDetail)
  }

  /** The next stage of a data worker; `current` says that its RDP still carries its attempt. */
  ghost predicate StageFollows(s: State, e: Event, x: Worker, y: DataStage)
    requires x.DataPush?
  {
    var current := Carries(s, x.rdp, x.attempt);
    match x.data
    case Claimed => e.Preflight? && y == if e.valid && Free(s, x.rdp) then Checked else DataFailing(None)
    case Checked => e.CreateAnswered? && y == if e.created.Some? then Created(e.created.value) else DataFailing(None)
    case Created(id) => e.RecordBlock? && y == if current then Pushing(id) else DataFailing(Some(id))
    case Pushing(id) => e.AllSent? && y == Pushed(id)
    case Pushed(id) =>
      e.CompleteBlock? && y == if current && s.rdps[x.rdp].rdi == Real(id) then DataOver else DataFailing(Some(id))
    case DataFailing(id) => e.DataFailed? && y == DataOver
    case DataOver => false
  }

  /** The id that HOPE returned to the worker so far. */
  function Returned(stage: DataStage): Option<string> {
    match stage
    case Created(id) => Some(id)
    case Pushing(id) => Some(id)
    case Pushed(id) => Some(id)
    case DataFailing(id) => id
    case _ => None
  }

  predicate Enabled(stage: DataStage, e: Event) {
    match stage
    case Claimed => e.Preflight?
    case Checked => e.CreateAnswered?
    case Created(_) => e.RecordBlock?
    case Pushing(_) => e.AllSent?
    case Pushed(_) => e.CompleteBlock?
    case DataFailing(_) => e.DataFailed?
    case DataOver => false
  }

  /** A data worker moves by its own events only: to the next stage, or by an exception to failing with its id. */
  ghost predicate DataWorkerFits(s: State, e: Event, w: nat, x: Worker, y: Worker)
    requires x.DataPush?
  {
    && y.DataPush? && y.rdp == x.rdp && y.attempt == x.attempt
    && if ByDataWorker(e) && e.worker == w && Enabled(x.data, e) then StageFollows(s, e, x, y.data)
       else if e == DataRaised(w) && x.data != DataOver then y.data == DataFailing(Returned(x.data))
       else y.data == x.data
  }

  predicate ByDataWorker(e: Event) {
    e.Preflight? || e.CreateAnswered? || e.RecordBlock? || e.AllSent? || e.CompleteBlock? || e.DataRaised? || e.DataFailed?
  }

  lemma FreeMeetsNoOther(s: State, r: nat)
    requires r in s.rdps && s.rdps[r].selection != {}
    ensures Free(s, r) <==> MeetsNoOther(s, r, s.rdps[r].program, s.rdps[r].selection)
  {
    if MeetsNoOther(s, r, s.rdps[r].program, s.rdps[r].selection) {
      forall o | o in s.rdps && o != r && s.rdps[o].status != Cancelled && SameMode(s, s.rdps[o], s.rdps[r])
        ensures s.rdps[o].selection !! s.rdps[r].selection
      {
      }
    }
  }

  /** A data worker keeps to its stages, whatever happens elsewhere. */
  lemma DataWorkerHolds(s: State, e: Event, w: nat)
    requires w < |s.workers| && s.workers[w].DataPush? && ByDataWorker(e)
    ensures |Apply(s, e).workers| == |s.workers| && DataWorkerFits(s, e, w, s.workers[w], Apply(s, e).workers[w])
  {
    if e.Preflight? {
      PreflightHolds(s, e, w);
    } else if e.DataFailed? {
      FailureHolds(s, e, w);
    } else if e.CompleteBlock? {
      CompletionHolds(s, e, w);
    } else if e.RecordBlock? {
      RecordingHolds(s, e, w);
    } else {
      hide MeetsNoOther, Free, FailPendingPush, DataRecord, DataComplete, DataFail, DataPreflight;
    }
  }

  lemma PreflightHolds(s: State, e: Event, w: nat)
    requires w < |s.workers| && s.workers[w].DataPush? && e.Preflight?
    ensures |Apply(s, e).workers| == |s.workers| && DataWorkerFits(s, e, w, s.workers[w], Apply(s, e).workers[w])
  {
    var r := s.workers[w].rdp;
    if r in s.rdps && s.rdps[r].selection != {} {
      FreeMeetsNoOther(s, r);
    }
    hide MeetsNoOther, Free;
  }

  lemma RecordingHolds(s: State, e: Event, w: nat)
    requires w < |s.workers| && s.workers[w].DataPush? && e.RecordBlock?
    ensures |Apply(s, e).workers| == |s.workers| && DataWorkerFits(s, e, w, s.workers[w], Apply(s, e).workers[w])
  {
  }

  lemma CompletionHolds(s: State, e: Event, w: nat)
    requires w < |s.workers| && s.workers[w].DataPush? && e.CompleteBlock?
    ensures |Apply(s, e).workers| == |s.workers| && DataWorkerFits(s, e, w, s.workers[w], Apply(s, e).workers[w])
  {
  }

  lemma FailureHolds(s: State, e: Event, w: nat)
    requires w < |s.workers| && s.workers[w].DataPush? && e.DataFailed?
    ensures |Apply(s, e).workers| == |s.workers| && DataWorkerFits(s, e, w, s.workers[w], Apply(s, e).workers[w])
  {
  }

  // ----- requests to HOPE -----

  /** A claimed worker that passed the preflight asks HOPE for one RDI, and an asking preparation for one reset. */
  ghost predicate RequestsFit(s: State, e: Event, t: State) {
    && t.creations == s.creations + (if e.CreateAnswered? && e.worker < |s.workers| && s.workers[e.worker].DataPush?
                                        && s.workers[e.worker].data == Checked
                                     then [s.workers[e.worker].attempt] else [])
    && t.resets == s.resets + (if e.ResetAnswered? && e.worker < |s.workers| && s.workers[e.worker].Preparation?
                                  && s.workers[e.worker].preparation == Entered && s.workers[e.worker].toReset.Some?
                               then {(s.workers[e.worker].attempt, s.workers[e.worker].toReset.value)} else {})
  }

  lemma RequestsHold(s: State, e: Event)
    ensures RequestsFit(s, e, Apply(s, e))
  {
    if IsPreparationEvent(e) {
      PreparationRequests(s, e);
    } else if IsDataEvent(e) {
      DataRequests(s, e);
    } else if IsOperationEvent(e) {
      OperationRequests(s, e);
    } else {
      hide CleanSelection, MeetsNoOther, Selectable, HasUnfinished;
    }
  }

  lemma PreparationRequests(s: State, e: Event)
    requires IsPreparationEvent(e)
    ensures RequestsFit(s, e, Apply(s, e))
  {
  }

  lemma DataRequests(s: State, e: Event)
    requires IsDataEvent(e)
    ensures RequestsFit(s, e, Apply(s, e))
  {
    if e.RecordBlock? || e.CompleteBlock? || e.DataFailed? || e.ClaimRaised? {
      RowsRequestNothing(s, e);
    } else {
      hide MeetsNoOther, FailPendingPush, DataRecord, DataComplete, DataFail, DataClaimError;
    }
  }

  lemma RowsRequestNothing(s: State, e: Event)
    requires e.RecordBlock? || e.CompleteBlock? || e.DataFailed? || e.ClaimRaised?
    ensures RequestsFit(s, e, Apply(s, e))
  {
  }

  lemma OperationRequests(s: State, e: Event)
    requires IsOperationEvent(e)
    ensures RequestsFit(s, e, Apply(s, e))
  {
  }

  // ----- cleanup -----

  ghost predicate CleanupFits(s: State, e: Event, t: State)
    requires IsCleanupEvent(e)
  {
    match e
    case CleanupStarted(p) =>
      if p in s.programs && !s.programs[p].cleanup
         && forall r :: r in s.rdps && s.rdps[r].program == p ==> s.rdps[r].status != PushPending
      then t == s.(programs := s.programs[p := s.programs[p].(cleanup := true, purged := false)]) else t == s
    case RdpsPurged(p) =>
      if p in s.programs && s.programs[p].cleanup
      then
        && t == s.(rdps := t.rdps, programs := s.programs[p := s.programs[p].(purged := true)])
        && (forall r :: r in t.rdps <==> r in s.rdps && s.rdps[r].program != p)
        && (forall r :: r in t.rdps ==> t.rdps[r] == s.rdps[r])
      else t == s
    case CleanupEnded(p) =>
      if p in s.programs && s.programs[p].cleanup && s.programs[p].purged
      then t == s.(programs := s.programs[p := s.programs[p].(cleanup := false)]) else t == s
  }

  lemma CleanupHolds(s: State, e: Event)
    requires IsCleanupEvent(e)
    ensures CleanupFits(s, e, Apply(s, e))
  {
  }
}
