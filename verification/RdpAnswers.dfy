/**
 * What HOPE's answer to a reset request leads to, over whole runs. The answers are read off the
 * events of a run; the statements speak of rows and workers and not of the steps.
 */
module RdpAnswers {
  import opened Common
  import opened RdpState
  import opened RdpSteps
  import opened RdpInvariant
  import opened RdpRuns
  import opened RdpTable
  import opened RdpTheorems

  // ----- what a worker was told -----

  /** The worker has entered its attempt with an id to reset and waits for HOPE. */
  predicate Asking(s: State, w: nat) {
    w < |s.workers| && s.workers[w].Preparation? && s.workers[w].preparation == Entered && s.workers[w].toReset.Some?
  }

  /** HOPE's answer to the reset request of worker w during the run. */
  ghost function Told(s0: State, events: seq<Event>, w: nat): Option<ResetAnswer> {
    if events == [] then None
    else
      var earlier, last := events[..|events| - 1], events[|events| - 1];
      if last.ResetAnswered? && last.worker == w && Asking(Run(s0, earlier), w) then Some(last.answer) else Told(s0, earlier, w)
  }

  /** The stages that a preparation worker can be in after an answer. */
  predicate StageFits(stage: PreparationStage, toReset: Option<string>, told: Option<ResetAnswer>) {
    match told
    case None =>
      && stage != AlreadyMerged
      && (stage == Entered ==> toReset.Some?) && (stage == ReadyToSchedule ==> toReset.None?)
    case Some(answer) =>
      && toReset.Some? && stage != Entered
      && match answer
         case Accepted => stage == PreparationOver
         case Unconfirmed => stage == PreparationOver
         case MergeInProgress => stage in {PreparationFailing, PreparationOver}
         case OtherError => stage in {PreparationFailing, PreparationOver}
         case NotFound => stage in {ReadyToSchedule, PreparationFailing, PreparationOver}
         case MergedAlready => stage in {AlreadyMerged, PreparationFailing, PreparationOver}
  }

  /**
   * What a worker leaves when it is over: after MERGE_IN_PROGRESS, another error or ALREADY_MERGED
   * its attempt is over too; without an answer or after NOT_FOUND it is over or its data push is
   * scheduled; only after ACCEPTED or an unconfirmed answer may the attempt go on without.
   */
  ghost predicate EndFits(s: State, x: Worker, told: Option<ResetAnswer>) {
    x.Preparation? && x.preparation == PreparationOver ==>
      match told
      case Some(Accepted) => true
      case Some(Unconfirmed) => true
      case Some(MergeInProgress) => Over(s, x.attempt)
      case Some(OtherError) => Over(s, x.attempt)
      case Some(MergedAlready) => Over(s, x.attempt)
      case _ => Over(s, x.attempt) || DataScheduled(s, x.rdp, x.attempt)
  }

  ghost predicate DataScheduled(s: State, r: nat, a: nat) {
    r in s.rdps && DataJob(a) in s.rdps[r].jobs
  }

  // ----- how workers move -----

  /** The only moves of a preparation worker. */
  predicate Moves(before: PreparationStage, after: PreparationStage, e: Event) {
    match e
    case ResetAnswered(_, answer) =>
      before == Entered && after == (match answer
        case Accepted => PreparationOver
        case Unconfirmed => PreparationOver
        case NotFound => ReadyToSchedule
        case MergedAlready => AlreadyMerged
        case MergeInProgress => PreparationFailing
        case OtherError => PreparationFailing)
    case MergedBlock(_) => before == AlreadyMerged && after == PreparationOver
    case ScheduleBlock(_) => before == ReadyToSchedule && after == PreparationOver
    case PreparationRaised(_) => before != PreparationOver && after == PreparationFailing
    case PreparationFailed(_) => before == PreparationFailing && after == PreparationOver
    case _ => false
  }

  /** An answer moves the worker that asked; its other moves are its own too. */
  predicate StageMoved(x: Worker, y: Worker, e: Event, w: nat)
    requires x.Preparation? && y.Preparation?
  {
    && (y.preparation == x.preparation || (OfWorker(e) && e.worker == w && Moves(x.preparation, y.preparation, e)))
    && (e.ResetAnswered? && e.worker == w && x.preparation == Entered && x.toReset.Some? ==>
          Moves(x.preparation, y.preparation, e))
    && (e.ResetAnswered? && x.toReset.None? ==> y.preparation == x.preparation)
  }

  predicate WorkerMoved(x: Worker, y: Worker, e: Event, w: nat) {
    && x.rdp == y.rdp && x.attempt == y.attempt && x.Preparation? == y.Preparation?
    && (x.Preparation? ==> x.toReset == y.toReset && StageMoved(x, y, e, w))
  }

  lemma PreparationMoves(s: State, e: Event, w: nat)
    requires w < |s.workers| && IsPreparationEvent(e) && !e.CallbackBlock? && !e.CallbackRaised?
    ensures |s.workers| <= |Apply(s, e).workers| && WorkerMoved(s.workers[w], Apply(s, e).workers[w], e, w)
  {
    hide SchedulePushData, FailPendingPush, FinishSuccessfulPush;
    SameWorkers(s);
  }

  /** The blocks on rows leave the workers alone. */
  lemma SameWorkers(s: State)
    ensures forall r, a :: SchedulePushData(s, r, a).workers == s.workers
    ensures forall r, a, known :: FailPendingPush(s, r, a, known).workers == s.workers
    ensures forall r, id :: r in s.rdps ==> FinishSuccessfulPush(s, r, id).workers == s.workers
  {
  }

  lemma CallbacksMoveNoWorker(s: State, e: Event)
    requires e.CallbackBlock? || e.CallbackRaised? || e.ClaimRaised?
    ensures Apply(s, e).workers == s.workers
  {
  }

  predicate EndsData(e: Event) {
    e.CompleteBlock? || e.DataRaised? || e.DataFailed?
  }

  lemma SendingMoves(s: State, e: Event, w: nat)
    requires w < |s.workers| && IsDataEvent(e) && !e.ClaimRaised? && !EndsData(e)
    ensures |s.workers| <= |Apply(s, e).workers| && WorkerMoved(s.workers[w], Apply(s, e).workers[w], e, w)
  {
    hide MeetsNoOther, Moves;
    SameWorkers(s);
  }

  lemma EndingMoves(s: State, e: Event, w: nat)
    requires w < |s.workers| && IsDataEvent(e) && EndsData(e)
    ensures |s.workers| <= |Apply(s, e).workers| && WorkerMoved(s.workers[w], Apply(s, e).workers[w], e, w)
  {
    hide FailPendingPush, FinishSuccessfulPush, Moves;
    SameWorkers(s);
  }

  lemma DataMoves(s: State, e: Event, w: nat)
    requires w < |s.workers| && IsDataEvent(e) && !e.ClaimRaised?
    ensures |s.workers| <= |Apply(s, e).workers| && WorkerMoved(s.workers[w], Apply(s, e).workers[w], e, w)
  {
    hide Apply, WorkerMoved;
    if EndsData(e) {
      EndingMoves(s, e, w);
    } else {
      SendingMoves(s, e, w);
    }
  }

  lemma OthersMoveNoWorker(s: State, e: Event)
    requires !IsPreparationEvent(e) && !IsDataEvent(e)
    ensures Apply(s, e).workers == s.workers
  {
  }

  lemma WorkerMoves(s: State, e: Event, w: nat)
    requires w < |s.workers|
    ensures |s.workers| <= |Apply(s, e).workers| && WorkerMoved(s.workers[w], Apply(s, e).workers[w], e, w)
  {
    hide Apply;
    if e.CallbackBlock? || e.CallbackRaised? || e.ClaimRaised? {
      CallbacksMoveNoWorker(s, e);
    } else if IsPreparationEvent(e) {
      PreparationMoves(s, e, w);
    } else if IsDataEvent(e) {
      DataMoves(s, e, w);
    } else {
      OthersMoveNoWorker(s, e);
    }
  }

  /** A worker that is new begins at one of three stages. */
  lemma WorkerBegins(s: State, e: Event, w: nat)
    requires |s.workers| <= w < |Apply(s, e).workers|
    ensures var y := Apply(s, e).workers[w];
      y.Preparation? ==> y.preparation in {Entered, ReadyToSchedule, PreparationFailing} && StageFits(y.preparation, y.toReset, None)
  {
    if e.PreparationStarted? || e.ClaimBlock? {
      NewWorker(s, e, w);
    } else if e.CallbackBlock? || e.CallbackRaised? || e.ClaimRaised? {
      CallbacksMoveNoWorker(s, e);
    } else if !IsPreparationEvent(e) && !IsDataEvent(e) {
      OthersMoveNoWorker(s, e);
    } else {
      WorkersStay(s, e);
    }
  }

  lemma NewWorker(s: State, e: Event, w: nat)
    requires e.PreparationStarted? || e.ClaimBlock?
    requires |s.workers| <= w < |Apply(s, e).workers|
    ensures var y := Apply(s, e).workers[w];
      y.Preparation? ==> y.preparation in {Entered, ReadyToSchedule, PreparationFailing} && StageFits(y.preparation, y.toReset, None)
  {
  }

  lemma WorkersStay(s: State, e: Event)
    requires IsPreparationEvent(e) || IsDataEvent(e)
    requires !e.PreparationStarted? && !e.ClaimBlock? && !e.CallbackBlock? && !e.CallbackRaised? && !e.ClaimRaised?
    ensures |Apply(s, e).workers| == |s.workers|
  {
    hide SchedulePushData, FailPendingPush, FinishSuccessfulPush, MeetsNoOther;
    SameWorkers(s);
  }

  lemma NobodyTold(s0: State, events: seq<Event>, w: nat)
    requires w >= |Run(s0, events).workers|
    ensures Told(s0, events, w) == None
  {
    if events != [] {
      var earlier, e := events[..|events| - 1], events[|events| - 1];
      var s := Run(s0, earlier);
      if w < |s.workers| {
        WorkerMoves(s, e, w);
      }
      hide Apply;
      NobodyTold(s0, earlier, w);
    }
  }

  // ----- workers follow what they were told -----

  lemma {:induction false} StagesFollowAnswers(s0: State, events: seq<Event>, w: nat)
    requires Initial(s0) && w < |Run(s0, events).workers| && Run(s0, events).workers[w].Preparation?
    ensures var x := Run(s0, events).workers[w]; StageFits(x.preparation, x.toReset, Told(s0, events, w))
  {
    var earlier, e := events[..|events| - 1], events[|events| - 1];
    var s := Run(s0, earlier);
    hide Apply;
    if w < |s.workers| {
      WorkerMoves(s, e, w);
      StagesFollowAnswers(s0, earlier, w);
    } else {
      WorkerBegins(s, e, w);
      NobodyTold(s0, earlier, w);
    }
  }

  /** A worker that hears that its id is merged, or fails, leaves an attempt that is over. */
  lemma EndingEndsAttempt(s: State, e: Event, w: nat)
    requires Inv(s) && w < |s.workers| && s.workers[w].Preparation?
    requires (e == MergedBlock(w) && s.workers[w].preparation == AlreadyMerged && s.workers[w].toReset.Some?)
      || (e == PreparationFailed(w) && s.workers[w].preparation == PreparationFailing)
    ensures Over(Apply(s, e), s.workers[w].attempt)
  {
    var x := s.workers[w];
    WorkersAreOk(s, w);
    if Current(s, x.rdp, x.attempt) {
      EndsCurrent(s, e, w);
    } else {
      OverStays(s, e, x.attempt);
    }
  }

  lemma EndsCurrent(s: State, e: Event, w: nat)
    requires Inv(s) && w < |s.workers| && s.workers[w].Preparation? && WorkerOk(s, s.workers[w])
    requires (e == MergedBlock(w) && s.workers[w].preparation == AlreadyMerged && s.workers[w].toReset.Some?)
      || (e == PreparationFailed(w) && s.workers[w].preparation == PreparationFailing)
    requires Current(s, s.workers[w].rdp, s.workers[w].attempt)
    ensures Over(Apply(s, e), s.workers[w].attempt)
  {
    var x := s.workers[w];
    hide Apply, RowFits;
    SameOwner(s, e, x.attempt);
    PreparationWritesNoKey(s, e);
    RowIsOld(s, x.rdp);
    TableHolds(s, e, x.rdp);
    EndedRow(s, e, w, Apply(s, e));
  }

  lemma SameOwner(s: State, e: Event, a: nat)
    requires RowsOk(s) && a < |s.attempts|
    ensures a < |Apply(s, e).attempts| && Apply(s, e).attempts[a] == s.attempts[a]
  {
    hide Apply, RowSafe, RowsOk;
    StepIsSafe(s, e);
    assert Apply(s, e).attempts[..|s.attempts|][a] == s.attempts[a];
  }

  lemma EndedRow(s: State, e: Event, w: nat, t: State)
    requires w < |s.workers| && s.workers[w].Preparation? && Current(s, s.workers[w].rdp, s.workers[w].attempt)
    requires (e == MergedBlock(w) && s.workers[w].preparation == AlreadyMerged && s.workers[w].toReset.Some?)
      || (e == PreparationFailed(w) && s.workers[w].preparation == PreparationFailing)
    requires s.workers[w].rdp in t.rdps && RowFits(s, e, t, s.workers[w].rdp)
    ensures t.rdps[s.workers[w].rdp].attempt == None
  {
  }

  lemma PreparationWritesNoKey(s: State, e: Event)
    requires IsPreparationEvent(e)
    ensures Apply(s, e).rdps.Keys == s.rdps.Keys
  {
    if e.MergedBlock? {
      SuccessMakesNoRow(s, e);
    } else {
      PreparationWritesRows(s, e);
    }
  }

  /** A worker that schedules the data push leaves its job, or an attempt that is over. */
  lemma SchedulingSchedules(s: State, w: nat)
    requires Inv(s) && PreparationAt(s, w, ReadyToSchedule)
    ensures var t, x := Apply(s, ScheduleBlock(w)), s.workers[w]; Over(t, x.attempt) || DataScheduled(t, x.rdp, x.attempt)
  {
    var x, e := s.workers[w], ScheduleBlock(w);
    assert WorkerOk(s, x);
    if Current(s, x.rdp, x.attempt) {
      PreparationWritesNoKey(s, e);
      TableHolds(s, e, x.rdp);
      hide Apply;
    } else {
      OverStays(s, e, x.attempt);
    }
  }

  /** What a finished worker left stays. */
  lemma EndStays(s: State, e: Event, x: Worker, y: Worker, told: Option<ResetAnswer>)
    requires Inv(s) && WorkerOk(s, x) && EndFits(s, x, told) && x.Preparation? && x.preparation == PreparationOver
    requires y.Preparation? && y.rdp == x.rdp && y.attempt == x.attempt
    ensures EndFits(Apply(s, e), y, told)
  {
    var a, r := x.attempt, x.rdp;
    if Over(s, a) {
      OverStays(s, e, a);
    } else if DataScheduled(s, r, a) {
      StepIsSafe(s, e);
      assert Apply(s, e).attempts[..|s.attempts|][a] == r;
      if r in Apply(s, e).rdps {
        JobsStay(s, e, r);
      }
    }
    hide Apply, Inv, WorkerOk;
  }

  /** Whatever runs in between, what a finished worker leaves behind follows from what it was told. */
  lemma {:induction false} EndsFollowAnswers(s0: State, events: seq<Event>, w: nat)
    requires Initial(s0) && w < |Run(s0, events).workers|
    ensures EndFits(Run(s0, events), Run(s0, events).workers[w], Told(s0, events, w))
  {
    var earlier, e := events[..|events| - 1], events[|events| - 1];
    var s, t := Run(s0, earlier), Run(s0, events);
    RunInv(s0, earlier);
    hide Apply, Inv, EndFits, StageFits;
    if w < |s.workers| {
      var x := s.workers[w];
      WorkerMoves(s, e, w);
      if x.Preparation? {
        StagesFollowAnswers(s0, earlier, w);
        EndsFollowAnswers(s0, earlier, w);
        WorkersAreOk(s, w);
        EndFollows(s, e, w, Told(s0, earlier, w), Told(s0, events, w));
      } else {
        NotAPreparation(t, t.workers[w], Told(s0, events, w));
      }
    } else {
      WorkerBegins(s, e, w);
      NotOver(t, t.workers[w], Told(s0, events, w));
    }
  }

  lemma WorkersAreOk(s: State, w: nat)
    requires Inv(s) && w < |s.workers|
    ensures WorkerOk(s, s.workers[w])
  {
  }

  lemma NotAPreparation(s: State, x: Worker, told: Option<ResetAnswer>)
    requires !x.Preparation?
    ensures EndFits(s, x, told)
  {
  }

  lemma NotOver(s: State, x: Worker, told: Option<ResetAnswer>)
    requires x.Preparation? ==> x.preparation != PreparationOver
    ensures EndFits(s, x, told)
  {
  }

  /** One step of the worker and of everything else. */
  lemma EndFollows(s: State, e: Event, w: nat, told: Option<ResetAnswer>, toldAfter: Option<ResetAnswer>)
    requires Inv(s) && w < |s.workers| && s.workers[w].Preparation? && WorkerOk(s, s.workers[w])
    requires |s.workers| <= |Apply(s, e).workers| && WorkerMoved(s.workers[w], Apply(s, e).workers[w], e, w)
    requires StageFits(s.workers[w].preparation, s.workers[w].toReset, told) && EndFits(s, s.workers[w], told)
    requires toldAfter == if e.ResetAnswered? && e.worker == w && Asking(s, w) then Some(e.answer) else told
    ensures EndFits(Apply(s, e), Apply(s, e).workers[w], toldAfter)
  {
    var x, y := s.workers[w], Apply(s, e).workers[w];
    hide Apply, Inv, WorkerOk;
    if y.preparation != PreparationOver {
      NotOver(Apply(s, e), y, toldAfter);
    } else if x.preparation == PreparationOver {
      EndStays(s, e, x, y, told);
    } else if e.ScheduleBlock? {
      SchedulingSchedules(s, w);
    } else if e.MergedBlock? || e.PreparationFailed? {
      EndingEndsAttempt(s, e, w);
    }
  }

  // ----- what the answers decide -----

  lemma ReadyMeans(toReset: Option<string>, told: Option<ResetAnswer>)
    requires StageFits(ReadyToSchedule, toReset, told)
    ensures toReset.None? || told == Some(NotFound)
  {
  }

  lemma EndsByWorker(s: State, e: Event, r: nat, t: State)
    requires r in s.rdps && r in t.rdps && Succeeding(s, e) == Some(r) && EndsWith(s, e, t.rdps[r].rdi)
    ensures (e.MergedBlock? || e.CompleteBlock?) && e.worker < |s.workers| && s.workers[e.worker].rdp == r
    ensures EndsIt(s.workers[e.worker], s.rdps[r], t.rdps[r])
    ensures e.MergedBlock? ==> s.workers[e.worker].Preparation? && s.workers[e.worker].preparation == AlreadyMerged
  {
  }

  lemma RowIsOld(s: State, r: nat)
    requires Inv(s) && r in s.rdps
    ensures r < s.nextRdp
  {
  }

  /** The worker acts for the attempt of the row and the row gets the worker's id. */
  predicate EndsIt(x: Worker, row: Rdp, after: Rdp) {
    && row.status == PushPending && row.attempt == Some(x.attempt)
    && match x
       case Preparation(_, _, id, _) => id.Some? && after.rdi == Real(id.value)
       case DataPush(_, _, data) => data.Pushed? && row.rdi == after.rdi == Real(data.rdi)
  }

  /**
   * An RDP becomes a success only by a worker that sent everything under its recorded id, or by a
   * preparation worker to which HOPE answered that this very id is already merged.
   */
  lemma {:induction false} SuccessNeedsAnswer(s0: State, events: seq<Event>, e: Event, r: nat)
    requires Initial(s0)
    requires var s, t := Run(s0, events), Apply(Run(s0, events), e);
      r in s.rdps && r in t.rdps && s.rdps[r].status != Success && t.rdps[r].status == Success
    ensures var s, t := Run(s0, events), Apply(Run(s0, events), e);
      && (e.MergedBlock? || e.CompleteBlock?) && e.worker < |s.workers|
      && EndsIt(s.workers[e.worker], s.rdps[r], t.rdps[r])
      && s.workers[e.worker].rdp == r
      && (e.MergedBlock? ==> s.workers[e.worker].Preparation? && Told(s0, events, e.worker) == Some(MergedAlready))
  {
    var s := Run(s0, events);
    RunInv(s0, events);
    RowIsOld(s, r);
    hide Apply, Inv, RowFits, Run, Told, Succeeding, EndsWith, EndsIt, StageFits, Initial;
    TableHolds(s, e, r);
    BecomesSuccess(s, e, Apply(s, e), r);
    EndsByWorker(s, e, r, Apply(s, e));
    if e.MergedBlock? {
      StagesFollowAnswers(s0, events, e.worker);
      MergedMeans(s.workers[e.worker].toReset, Told(s0, events, e.worker));
    }
  }

  lemma MergedMeans(toReset: Option<string>, told: Option<ResetAnswer>)
    requires StageFits(AlreadyMerged, toReset, told)
    ensures told == Some(MergedAlready)
  {
  }

  /**
   * A data push is scheduled only by the callback of an attempt in which a reset was requested, or
   * by a preparation worker that had no id to reset or was told NOT_FOUND.
   */
  lemma {:induction false} SchedulingNeedsAnswer(s0: State, events: seq<Event>, e: Event, r: nat, a: nat)
    requires Initial(s0)
    requires var s, t := Run(s0, events), Apply(Run(s0, events), e);
      r in s.rdps && r in t.rdps && DataJob(a) !in s.rdps[r].jobs && DataJob(a) in t.rdps[r].jobs
    ensures var s := Run(s0, events);
      || (e == CallbackBlock(r, a) && exists id :: (a, id) in s.resets)
      || (e.ScheduleBlock? && e.worker < |s.workers| && s.workers[e.worker].Preparation? && s.workers[e.worker].attempt == a
          && (s.workers[e.worker].toReset.None? || Told(s0, events, e.worker) == Some(NotFound)))
  {
    var s := Run(s0, events);
    RunInv(s0, events);
    RowIsOld(s, r);
    hide Apply, Inv, RowFits, Run, Told, StageFits;
    TableHolds(s, e, r);
    SchedulesBy(s, e, Apply(s, e), r, a);
    if e.ScheduleBlock? {
      StagesFollowAnswers(s0, events, e.worker);
      ReadyMeans(s.workers[e.worker].toReset, Told(s0, events, e.worker));
    }
  }

  /** No answer by itself changes a row. */
  lemma AnswerChangesNoRow(s: State, w: nat, answer: ResetAnswer)
    ensures var t := Apply(s, ResetAnswered(w, answer));
      t.rdps == s.rdps && t.households == s.households && t.individuals == s.individuals && t.programs == s.programs
  {
  }

  /** After ACCEPTED or an unconfirmed answer the worker does nothing any more. */
  lemma {:induction false} AcceptedWorkerIsDone(s0: State, events: seq<Event>, w: nat, e: Event)
    requires Initial(s0) && Told(s0, events, w) in {Some(Accepted), Some(Unconfirmed)} && OfWorker(e) && e.worker == w
    ensures Apply(Run(s0, events), e) == Run(s0, events)
  {
    var s := Run(s0, events);
    if w >= |s.workers| {
      NobodyTold(s0, events, w);
    }
    TellsPreparations(s0, events, w);
    StagesFollowAnswers(s0, events, w);
    OverDoesNothing(s, w, e);
  }

  lemma OverDoesNothing(s: State, w: nat, e: Event)
    requires w < |s.workers| && s.workers[w].Preparation? && s.workers[w].preparation == PreparationOver
    requires OfWorker(e) && e.worker == w
    ensures Apply(s, e) == s
  {
  }

  /** Only preparation workers are told anything. */
  lemma {:induction false} TellsPreparations(s0: State, events: seq<Event>, w: nat)
    requires Told(s0, events, w).Some?
    ensures w < |Run(s0, events).workers| && Run(s0, events).workers[w].Preparation?
  {
    var earlier, e := events[..|events| - 1], events[|events| - 1];
    if w < |Run(s0, earlier).workers| {
      WorkerMoves(Run(s0, earlier), e, w);
    }
    hide Apply;
    if !(e.ResetAnswered? && e.worker == w && Asking(Run(s0, earlier), w)) {
      TellsPreparations(s0, earlier, w);
    }
  }

  /** Failing the attempt now gives FAILURE with the recorded id kept, which is the one to reset while no data push is scheduled. */
  ghost predicate FailsWithId(s: State, w: nat)
    requires w < |s.workers| && s.workers[w].Preparation?
  {
    var x, t := s.workers[w], Apply(s, PreparationFailed(w));
    Current(s, x.rdp, x.attempt) && x.preparation == PreparationFailing ==>
      && x.rdp in t.rdps && t.rdps[x.rdp].status == Failure && t.rdps[x.rdp].attempt == None
      && (s.rdps[x.rdp].rdi.Real? ==> t.rdps[x.rdp].rdi == s.rdps[x.rdp].rdi)
      && (DataJob(x.attempt) !in s.rdps[x.rdp].jobs && x.toReset.Some? ==>
            t.rdps[x.rdp].rdi == s.rdps[x.rdp].rdi == Real(x.toReset.value))
  }

  /**
   * MERGE_IN_PROGRESS and other errors: the attempt is over or the worker is about to fail it, with
   * the id kept.
   */
  lemma {:induction false} RefusalFailsTheAttempt(s0: State, events: seq<Event>, w: nat)
    requires Initial(s0) && Told(s0, events, w) in {Some(MergeInProgress), Some(OtherError)}
    ensures var s := Run(s0, events);
      && w < |s.workers| && s.workers[w].Preparation? && s.workers[w].toReset.Some?
      && (Over(s, s.workers[w].attempt) || s.workers[w].preparation == PreparationFailing)
      && FailsWithId(s, w)
  {
    var s := Run(s0, events);
    RunInv(s0, events);
    hide Run, Apply, Inv, Told, Over, FailsWithId, WorkerOk;
    TellsPreparations(s0, events, w);
    StagesFollowAnswers(s0, events, w);
    EndsFollowAnswers(s0, events, w);
    WorkersAreOk(s, w);
    FailingWorker(s, w);
  }

  lemma FailingWorker(s: State, w: nat)
    requires Inv(s) && w < |s.workers| && s.workers[w].Preparation? && WorkerOk(s, s.workers[w])
    ensures FailsWithId(s, w)
  {
    var x := s.workers[w];
    if Current(s, x.rdp, x.attempt) && x.preparation == PreparationFailing {
      hide Apply, RowFits;
      NamesRecorded(s, w);
      RowIsOld(s, x.rdp);
      hide Inv, WorkerOk;
      PreparationWritesNoKey(s, PreparationFailed(w));
      TableHolds(s, PreparationFailed(w), x.rdp);
      FailedRow(s, w, Apply(s, PreparationFailed(w)));
    }
  }

  /** While no data push is scheduled the worker has the recorded id to reset. */
  lemma NamesRecorded(s: State, w: nat)
    requires Inv(s) && w < |s.workers| && s.workers[w].Preparation? && WorkerOk(s, s.workers[w])
    requires Current(s, s.workers[w].rdp, s.workers[w].attempt)
    ensures var x := s.workers[w];
      DataJob(x.attempt) !in s.rdps[x.rdp].jobs && x.toReset.Some? ==> s.rdps[x.rdp].rdi == Real(x.toReset.value)
  {
    var x := s.workers[w];
    assert PrepareJob(x.attempt, x.toReset) in s.rdps[x.rdp].jobs;
  }

  lemma FailedRow(s: State, w: nat, t: State)
    requires w < |s.workers| && s.workers[w].Preparation? && s.workers[w].preparation == PreparationFailing
    requires Current(s, s.workers[w].rdp, s.workers[w].attempt)
    requires s.workers[w].rdp in t.rdps && RowFits(s, PreparationFailed(w), t, s.workers[w].rdp)
    ensures Fails(s.rdps[s.workers[w].rdp], t.rdps[s.workers[w].rdp], s.workers[w].toReset)
  {
  }

  // ----- waiting for the callback -----

  /** The attempt waits: no data push is scheduled and HOPE has accepted, or not confirmed, every reset asked in it. */
  ghost predicate Waits(s0: State, events: seq<Event>, r: nat, a: nat) {
    var s := Run(s0, events);
    && Current(s, r, a) && DataJob(a) !in s.rdps[r].jobs
    && forall w :: 0 <= w < |s.workers| && s.workers[w].Preparation? && s.workers[w].attempt == a
         ==> Told(s0, events, w) in {Some(Accepted), Some(Unconfirmed)}
  }

  /** The events that may end the waiting: a callback, the call for stuck pushes, or the job delivered again. */
  predicate Concerns(e: Event, r: nat, a: nat) {
    e == CallbackBlock(r, a) || e == CallbackRaised(r, a) || e == StuckBlock(r, a)
    || (e.PreparationStarted? && e.rdp == r && e.attempt == a)
  }

  /** No worker of the attempt acts any more. */
  ghost predicate Idle(s: State, a: nat) {
    forall w :: 0 <= w < |s.workers| && s.workers[w].attempt == a ==>
      s.workers[w].Preparation? && s.workers[w].preparation == PreparationOver
  }

  lemma WaitingIsIdle(s0: State, events: seq<Event>, r: nat, a: nat)
    requires Initial(s0) && Waits(s0, events, r, a)
    ensures Idle(Run(s0, events), a)
  {
    var s := Run(s0, events);
    RunInv(s0, events);
    forall w | 0 <= w < |s.workers| && s.workers[w].attempt == a
      ensures s.workers[w].Preparation? && s.workers[w].preparation == PreparationOver
    {
      WorkersAreOk(s, w);
      OwnerIsCurrent(s, r, a, w);
      if s.workers[w].Preparation? {
        StagesFollowAnswers(s0, events, w);
      }
    }
  }

  lemma OwnerIsCurrent(s: State, r: nat, a: nat, w: nat)
    requires Inv(s) && Current(s, r, a) && w < |s.workers| && s.workers[w].attempt == a && WorkerOk(s, s.workers[w])
    ensures s.workers[w].rdp == r
  {
    assert Owns(s, r, a) && Owns(s, s.workers[w].rdp, a);
  }

  lemma PushPendingStays(s: State, e: Event, r: nat, a: nat)
    requires Inv(s) && Current(s, r, a)
    ensures r in Apply(s, e).rdps
  {
    hide Apply;
    StepIsSafe(s, e);
  }

  lemma IdleRow(s: State, e: Event, t: State, r: nat, a: nat)
    requires Current(s, r, a) && DataJob(a) !in s.rdps[r].jobs && Idle(s, a) && !Concerns(e, r, a)
    requires r in t.rdps && RowFits(s, e, t, r)
    ensures KeepsAttempt(s.rdps[r], t.rdps[r])
  {
    hide RecordFits, OperationFits;
    if IsRecordEvent(e) {
      RecordKeepsAttempt(s, e, t, r);
    } else if IsOperationEvent(e) {
      OperationKeepsAttempt(s, e, t, r);
    }
  }

  /** A new worker comes from a job of its attempt. */
  lemma BeginsFromJob(s: State, e: Event, w: nat)
    requires |s.workers| <= w < |Apply(s, e).workers|
    ensures (e.PreparationStarted? || e.ClaimBlock?) && e.rdp in s.rdps
    ensures Apply(s, e).workers[w].attempt == e.attempt
    ensures e.PreparationStarted? ==> PrepareJob(e.attempt, e.toReset) in s.rdps[e.rdp].jobs
    ensures e.ClaimBlock? ==> DataJob(e.attempt) in s.rdps[e.rdp].jobs
  {
    if !e.PreparationStarted? && !e.ClaimBlock? {
      if e.CallbackBlock? || e.CallbackRaised? || e.ClaimRaised? {
        CallbacksMoveNoWorker(s, e);
      } else if !IsPreparationEvent(e) && !IsDataEvent(e) {
        OthersMoveNoWorker(s, e);
      } else {
        WorkersStay(s, e);
      }
    } else {
      BeginsFrom(s, e, w);
    }
  }

  lemma BeginsFrom(s: State, e: Event, w: nat)
    requires (e.PreparationStarted? || e.ClaimBlock?) && |s.workers| <= w < |Apply(s, e).workers|
    ensures e.rdp in s.rdps && Apply(s, e).workers[w].attempt == e.attempt
    ensures e.PreparationStarted? ==> PrepareJob(e.attempt, e.toReset) in s.rdps[e.rdp].jobs
    ensures e.ClaimBlock? ==> DataJob(e.attempt) in s.rdps[e.rdp].jobs
  {
  }

  lemma IdleStays(s: State, e: Event, r: nat, a: nat)
    requires AttemptsOk(s) && Current(s, r, a) && DataJob(a) !in s.rdps[r].jobs && Idle(s, a) && !Concerns(e, r, a)
    ensures Idle(Apply(s, e), a)
  {
    var t := Apply(s, e);
    forall w | 0 <= w < |t.workers| && t.workers[w].attempt == a
      ensures t.workers[w].Preparation? && t.workers[w].preparation == PreparationOver
    {
      if w < |s.workers| {
        WorkerMoves(s, e, w);
      } else {
        BeginsFromJob(s, e, w);
      }
      hide Apply;
    }
  }

  /**
   * A waiting attempt keeps its status and its recorded id, and no data push is scheduled for it,
   * until a callback, the call for stuck pushes or a repeated delivery of its job.
   */
  lemma {:induction false} WaitsForCallback(s0: State, events: seq<Event>, more: seq<Event>, r: nat, a: nat)
    requires Initial(s0) && Waits(s0, events, r, a)
    requires forall e :: e in more ==> !Concerns(e, r, a)
    ensures var s, t := Run(s0, events), Run(s0, events + more);
      && Current(t, r, a) && t.rdps[r].rdi == s.rdps[r].rdi
      && DataJob(a) !in t.rdps[r].jobs && Idle(t, a)
    decreases |more|
  {
    if more == [] {
      assert events + more == events;
      WaitingIsIdle(s0, events, r, a);
    } else {
      var n := |more| - 1;
      var t, e := Run(s0, events + more[..n]), more[n];
      WaitsForCallback(s0, events, more[..n], r, a);
      RunInv(s0, events + more[..n]);
      RunMore(s0, events, more);
      hide Run, Apply, Idle, RowFits, Waits, AttemptsOk;
      RowIsOld(t, r);
      IdleStays(t, e, r, a);
      PushPendingStays(t, e, r, a);
      hide Inv;
      TableHolds(t, e, r);
      IdleRow(t, e, Apply(t, e), r, a);
    }
  }
}
