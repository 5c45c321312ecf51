/**
 * The statements of `complete_rdp_operation` (rdp/operations/completion.py), interleaved.
 *
 * Any number of transactions complete operations of one RDP at the same time. A transaction
 * reads what is committed and what it wrote itself; it locks its operation first and the RDP,
 * whose lock covers the programme row, only before it looks at the other operations. The module
 * shows that this amounts to completing each operation in one atomic step, the granularity of
 * RdpSteps, so that no evaluation job is lost.
 */
module CompletionLocks {
  import opened Common

  datatype OperationStatus = Running | Succeeded | Failed

  /** `Decided` holds the answer to "schedule the evaluation?" until the commit. */
  datatype Phase = Begun | OperationLocked | Written | RdpLocked | Decided(schedule: bool) | Over

  datatype Transaction = Transaction(operation: nat, phase: Phase)

  /** `operations`, `job` and `cleanup` are the committed values. */
  datatype State = State(operations: seq<OperationStatus>, job: bool, cleanup: bool, transactions: seq<Transaction>)

  predicate HoldsOperation(t: Transaction, operation: nat) {
    t.operation == operation && t.phase != Begun && t.phase != Over
  }

  predicate HoldsRdp(t: Transaction) {
    t.phase.RdpLocked? || t.phase.Decided?
  }

  predicate OperationFree(s: State, operation: nat) {
    forall i :: 0 <= i < |s.transactions| ==> !HoldsOperation(s.transactions[i], operation)
  }

  predicate RdpFree(s: State) {
    forall i :: 0 <= i < |s.transactions| ==> !HoldsRdp(s.transactions[i])
  }

  /** `has_incomplete_rdp_operations` as a transaction that wrote `own` sees it. */
  predicate OthersSucceeded(operations: seq<OperationStatus>, own: nat) {
    forall k :: 0 <= k < |operations| && k != own ==> operations[k] == Succeeded
  }

  predicate AllSucceeded(operations: seq<OperationStatus>) {
    forall k :: 0 <= k < |operations| ==> operations[k] == Succeeded
  }

  datatype Event =
    | Begin(operation: nat)
    | LockOperation(t: nat)
    | Write(t: nat)
    | LockRdp(t: nat)
    | Decide(t: nat)
    | Commit(t: nat)
    | Rollback(t: nat)
    | FailOperation(operation: nat)
    | ClaimOperation(operation: nat)
    | StartCleanup

  function To(s: State, t: nat, phase: Phase): State
    requires t < |s.transactions|
  {
    s.(transactions := s.transactions[t := s.transactions[t].(phase := phase)])
  }

  predicate In(s: State, t: nat, phase: Phase) {
    t < |s.transactions| && s.transactions[t].phase == phase
  }

  /** A step that has to wait for a lock, or that is not next, leaves the state alone. */
  function Apply(s: State, e: Event): State {
    match e
    case Begin(k) =>
      if k < |s.operations| then s.(transactions := s.transactions + [Transaction(k, Begun)]) else s
    case LockOperation(t) =>
      if In(s, t, Begun) && OperationFree(s, s.transactions[t].operation) then To(s, t, OperationLocked) else s
    case Write(t) =>
      if !In(s, t, OperationLocked) || s.transactions[t].operation >= |s.operations| then s
      else if s.operations[s.transactions[t].operation] == Running then To(s, t, Written)
      else To(s, t, Over)
    case LockRdp(t) =>
      if In(s, t, Written) && RdpFree(s) then To(s, t, RdpLocked) else s
    case Decide(t) =>
      if In(s, t, RdpLocked)
      then To(s, t, Decided(!s.cleanup && OthersSucceeded(s.operations, s.transactions[t].operation))) else s
    case Commit(t) =>
      if t >= |s.transactions| || !s.transactions[t].phase.Decided? || s.transactions[t].operation >= |s.operations| then s
      else To(s, t, Over).(
        operations := s.operations[s.transactions[t].operation := Succeeded],
        job := s.job || s.transactions[t].phase.schedule)
    case Rollback(t) =>
      if t < |s.transactions| then To(s, t, Over) else s
    case FailOperation(k) =>
      if k < |s.operations| && OperationFree(s, k) && s.operations[k] == Running
      then s.(operations := s.operations[k := Failed]) else s
    case ClaimOperation(k) =>
      if k < |s.operations| && OperationFree(s, k) && RdpFree(s) && s.operations[k] == Failed
      then s.(operations := s.operations[k := Running]) else s
    case StartCleanup =>
      if RdpFree(s) then s.(cleanup := true) else s
  }

  function Run(s: State, events: seq<Event>): State {
    if events == [] then s else Apply(Run(s, events[..|events| - 1]), events[|events| - 1])
  }

  /** An RDP with at least one operation, none of which has succeeded. */
  ghost predicate Initial(s: State) {
    && s.operations != [] && (forall k :: 0 <= k < |s.operations| ==> s.operations[k] != Succeeded)
    && !s.job && s.transactions == []
  }

  // ----- the invariant -----

  ghost predicate LocksOk(s: State) {
    && (forall i, j :: 0 <= i < j < |s.transactions| && HoldsRdp(s.transactions[i]) ==> !HoldsRdp(s.transactions[j]))
    && (forall i, j :: 0 <= i < j < |s.transactions| && HoldsOperation(s.transactions[i], s.transactions[i].operation)
          ==> !HoldsOperation(s.transactions[j], s.transactions[i].operation))
  }

  /** What a transaction has seen still holds of the committed state. */
  ghost predicate SeesTruth(s: State, t: Transaction) {
    && t.operation < |s.operations|
    && (t.phase.Written? || t.phase.RdpLocked? || t.phase.Decided? ==> s.operations[t.operation] == Running)
    && (t.phase.Decided? ==> t.phase.schedule == (!s.cleanup && OthersSucceeded(s.operations, t.operation)))
  }

  ghost predicate Inv(s: State) {
    && s.operations != []
    && LocksOk(s)
    && (forall i :: 0 <= i < |s.transactions| ==> SeesTruth(s, s.transactions[i]))
    && (AllSucceeded(s.operations) && !s.cleanup ==> s.job)
    && (s.job ==> AllSucceeded(s.operations))
  }

  /** `complete_rdp_operation` as one atomic step on the committed values. */
  function CompleteAtOnce(s: State, operation: nat): State
    requires operation < |s.operations|
  {
    var operations := s.operations[operation := Succeeded];
    s.(operations := operations, job := s.job || (!s.cleanup && AllSucceeded(operations)))
  }

  /** At its commit a transaction does to the database what completing the operation at that moment does. */
  lemma CommitIsAtomic(s: State, t: nat)
    requires Inv(s) && t < |s.transactions| && s.transactions[t].phase.Decided?
    ensures var k := s.transactions[t].operation;
      && k < |s.operations| && s.operations[k] == Running
      && Apply(s, Commit(t)) == CompleteAtOnce(s, k).(transactions := To(s, t, Over).transactions)
  {
    var k := s.transactions[t].operation;
    assert SeesTruth(s, s.transactions[t]);
    assert OthersSucceeded(s.operations, k) <==> AllSucceeded(s.operations[k := Succeeded]) by {
      if AllSucceeded(s.operations[k := Succeeded]) {
        forall j | 0 <= j < |s.operations| && j != k ensures s.operations[j] == Succeeded {
          assert s.operations[k := Succeeded][j] == Succeeded;
        }
      }
    }
  }

  lemma CommitInv(s: State, t: nat)
    requires Inv(s) && t < |s.transactions| && s.transactions[t].phase.Decided?
    ensures Inv(Apply(s, Commit(t)))
  {
    var u, k := Apply(s, Commit(t)), s.transactions[t].operation;
    CommitIsAtomic(s, t);
    forall i | 0 <= i < |u.transactions| ensures SeesTruth(u, u.transactions[i]) {
      assert SeesTruth(s, s.transactions[i]);
      if i != t {
        assert i < t || t < i;
        assert HoldsOperation(s.transactions[t], k) && HoldsRdp(s.transactions[t]);
      }
    }
  }

  /** One transaction moves on, within the locks that are free or its own. */
  lemma MovedInv(s: State, t: nat, phase: Phase)
    requires Inv(s) && t < |s.transactions|
    requires var after := s.transactions[t].(phase := phase);
      && SeesTruth(s, after)
      && (HoldsOperation(after, after.operation) ==>
            HoldsOperation(s.transactions[t], after.operation) || OperationFree(s, after.operation))
      && (HoldsRdp(after) ==> HoldsRdp(s.transactions[t]) || RdpFree(s))
    ensures Inv(To(s, t, phase))
  {
    assert LocksOk(To(s, t, phase));
  }

  lemma BegunInv(s: State, operation: nat)
    requires Inv(s) && operation < |s.operations|
    ensures Inv(s.(transactions := s.transactions + [Transaction(operation, Begun)]))
  {
  }

  lemma MoveInv(s: State, e: Event)
    requires Inv(s)
    requires e.Begin? || e.LockOperation? || e.Write? || e.LockRdp? || e.Decide? || e.Rollback?
    ensures Inv(Apply(s, e))
  {
    if e.Begin? {
      if e.operation < |s.operations| {
        BegunInv(s, e.operation);
      }
    } else if e.t < |s.transactions| {
      var u := Apply(s, e);
      assert SeesTruth(s, s.transactions[e.t]);
      hide Inv, LocksOk;
      if u != s {
        MovedInv(s, e.t, u.transactions[e.t].phase);
      }
    }
  }

  lemma OutsideInv(s: State, e: Event)
    requires Inv(s) && (e.FailOperation? || e.ClaimOperation? || e.StartCleanup?)
    ensures Inv(Apply(s, e))
  {
    var u := Apply(s, e);
    if u != s {
      if !e.StartCleanup? {
        assert u.operations[e.operation] != Succeeded && s.operations[e.operation] != Succeeded;
      }
      forall i | 0 <= i < |u.transactions| ensures SeesTruth(u, u.transactions[i]) {
        assert SeesTruth(s, s.transactions[i]);
        if !e.StartCleanup? {
          assert !HoldsOperation(s.transactions[i], e.operation);
          if s.transactions[i].phase.Decided? {
            SameOthers(s.operations, u.operations, s.transactions[i].operation, e.operation);
          }
        }
      }
    }
  }

  /** A change that leaves an operation incomplete does not change anybody's view. */
  lemma SameOthers(before: seq<OperationStatus>, after: seq<OperationStatus>, own: nat, changed: nat)
    requires |before| == |after| && changed < |before| && changed != own
    requires before[changed] != Succeeded && after[changed] != Succeeded
    requires forall k :: 0 <= k < |before| && k != changed ==> after[k] == before[k]
    ensures !OthersSucceeded(before, own) && !OthersSucceeded(after, own)
  {
  }

  lemma StepInv(s: State, e: Event)
    requires Inv(s)
    ensures Inv(Apply(s, e))
  {
    match e {
      case Commit(t) =>
        if t < |s.transactions| && s.transactions[t].phase.Decided? {
          CommitInv(s, t);
        }
      case FailOperation(_) => OutsideInv(s, e);
      case ClaimOperation(_) => OutsideInv(s, e);
      case StartCleanup => OutsideInv(s, e);
      case _ => MoveInv(s, e);
    }
  }

  /**
   * No lost wake-up: however the statements of any number of completions are interleaved, once
   * every operation has succeeded outside cleanup the evaluation job is committed, and never before.
   */
  lemma {:induction false} NoLostWakeUp(s: State, events: seq<Event>)
    requires Initial(s)
    ensures Inv(Run(s, events))
    ensures AllSucceeded(Run(s, events).operations) && !Run(s, events).cleanup ==> Run(s, events).job
    ensures Run(s, events).job ==> AllSucceeded(Run(s, events).operations)
  {
    if events == [] {
      assert s.operations[0] != Succeeded;
    } else {
      NoLostWakeUp(s, events[..|events| - 1]);
      StepInv(Run(s, events[..|events| - 1]), events[|events| - 1]);
    }
  }

  // ----- progress -----

  /** The locks never block each other: while a transaction is open, one of them can take its next step. */
  lemma NeverStuck(s: State, t: nat) returns (e: Event)
    requires Inv(s) && t < |s.transactions| && s.transactions[t].phase != Over
    ensures e.LockOperation? || e.Write? || e.LockRdp? || e.Decide? || e.Commit?
    ensures e.t < |s.transactions| && Apply(s, e).transactions[e.t].phase != s.transactions[e.t].phase
  {
    assert SeesTruth(s, s.transactions[t]);
    if i :| 0 <= i < |s.transactions| && HoldsRdp(s.transactions[i]) {
      assert SeesTruth(s, s.transactions[i]);
      e := if s.transactions[i].phase.RdpLocked? then Decide(i) else Commit(i);
    } else if i :| 0 <= i < |s.transactions| && s.transactions[i].phase == Written {
      e := LockRdp(i);
    } else if i :| 0 <= i < |s.transactions| && s.transactions[i].phase == OperationLocked {
      assert SeesTruth(s, s.transactions[i]);
      e := Write(i);
    } else {
      e := LockOperation(t);
    }
  }

  lemma RunMore(s: State, events: seq<Event>, e: Event)
    ensures Run(s, events + [e]) == Apply(Run(s, events), e)
  {
    assert (events + [e])[..|events|] == events;
  }

  function With(s: State, operation: nat, phase: Phase): State {
    s.(transactions := s.transactions + [Transaction(operation, phase)])
  }

  /** The steps of a transaction that meets no other. */
  lemma StepsAlone(s: State, k: nat)
    requires k < |s.operations| && s.operations[k] == Running
    requires forall i :: 0 <= i < |s.transactions| ==> s.transactions[i].phase == Over
    ensures var t, schedule := |s.transactions|, !s.cleanup && OthersSucceeded(s.operations, k);
      && Apply(s, Begin(k)) == With(s, k, Begun)
      && Apply(With(s, k, Begun), LockOperation(t)) == With(s, k, OperationLocked)
      && Apply(With(s, k, OperationLocked), Write(t)) == With(s, k, Written)
      && Apply(With(s, k, Written), LockRdp(t)) == With(s, k, RdpLocked)
      && Apply(With(s, k, RdpLocked), Decide(t)) == With(s, k, Decided(schedule))
  {
    hide OthersSucceeded;
  }

  lemma CommitAlone(s: State, k: nat)
    requires k < |s.operations| && s.operations[k] == Running
    ensures
      Apply(With(s, k, Decided(!s.cleanup && OthersSucceeded(s.operations, k))), Commit(|s.transactions|))
      == With(CompleteAtOnce(s, k), k, Over)
  {
    AllWithOwn(s.operations, k);
    hide OthersSucceeded, AllSucceeded;
  }

  function Completion(k: nat, t: nat): seq<Event> {
    [Begin(k), LockOperation(t), Write(t), LockRdp(t), Decide(t), Commit(t)]
  }

  /** A transaction that meets no other completes its operation as in one step. */
  lemma CompletesAlone(s: State, k: nat)
    requires k < |s.operations| && s.operations[k] == Running
    requires forall i :: 0 <= i < |s.transactions| ==> s.transactions[i].phase == Over
    ensures Run(s, Completion(k, |s.transactions|)) == With(CompleteAtOnce(s, k), k, Over)
  {
    StepsAlone(s, k);
    CommitAlone(s, k);
    var events := Completion(k, |s.transactions|);
    assert Run(s, []) == s && events[..0] == [] && events[..6] == events;
    hide Apply, Run, With, CompleteAtOnce, OthersSucceeded;
    for n := 0 to 6
      invariant Run(s, events[..n]) ==
        if n == 0 then s else if n == 1 then With(s, k, Begun) else if n == 2 then With(s, k, OperationLocked)
        else if n == 3 then With(s, k, Written) else if n == 4 then With(s, k, RdpLocked)
        else if n == 5 then With(s, k, Decided(!s.cleanup && OthersSucceeded(s.operations, k))) else With(CompleteAtOnce(s, k), k, Over)
    {
      RunMore(s, events[..n], events[n]);
      assert events[..n + 1] == events[..n] + [events[n]];
    }
  }

  lemma AllWithOwn(operations: seq<OperationStatus>, own: nat)
    requires own < |operations|
    ensures OthersSucceeded(operations, own) <==> AllSucceeded(operations[own := Succeeded])
  {
    var all := operations[own := Succeeded];
    assert forall k :: 0 <= k < |operations| ==> all[k] == if k == own then Succeeded else operations[k];
  }

  /** What the other blocks do to the database while no transaction is open; a rollback never does anything to it. */
  lemma OtherBlocks(s: State, k: nat, t: nat)
    requires k < |s.operations| && forall i :: 0 <= i < |s.transactions| ==> s.transactions[i].phase == Over
    ensures s.operations[k] == Running ==> Apply(s, FailOperation(k)) == s.(operations := s.operations[k := Failed])
    ensures s.operations[k] == Failed ==> Apply(s, ClaimOperation(k)) == s.(operations := s.operations[k := Running])
    ensures Apply(s, StartCleanup) == s.(cleanup := true)
    ensures Apply(s, Rollback(t)).(transactions := s.transactions) == s
  {
  }

  /** A rolled back transaction holds no lock and commits nothing. */
  lemma RolledBack(s: State, t: nat)
    requires t < |s.transactions|
    ensures var u := Apply(s, Rollback(t));
      && !HoldsRdp(u.transactions[t]) && !HoldsOperation(u.transactions[t], u.transactions[t].operation)
      && Apply(u, Commit(t)) == u
  {
  }
}
