/**
 * From DedupEngine's findings to the clean replacement of a reviewed RDP: how a result is
 * accepted, which beneficiaries a clean RDP keeps, and what its threshold decides.
 */
module CleanReplacement {
  import opened Common
  import opened PushPolicy
  import opened RdpState
  import opened RdpSteps
  import opened RdpInvariant
  import opened RdpRuns
  import opened RdpTheorems

  // ----- rdp/deduplication/workflow.py -----

  /** A finding as DedupEngine sends it; None is a status or reference that cannot be read. */
  datatype RawFinding = RawFinding(status: Option<FindingCode>, first: Option<nat>, second: Option<nat>)

  datatype SetState = Deduplicated | ProcessingFailed | OtherState

  datatype Remote = Unreachable | Answered(state: SetState, count: Option<int>, findings: seq<RawFinding>)

  datatype Decision = Ignore | Fail | Complete(findings: seq<Finding>)

  predicate ValidFinding(raw: RawFinding, current: set<nat>) {
    && raw.status.Some? && raw.first.Some? && raw.first.value in current
    && (raw.status.value.Duplicate? ==> raw.second.Some?)
  }

  function LocalFinding(raw: RawFinding, local: set<nat>): Finding
    requires raw.status.Some? && raw.first.Some?
  {
    Finding(raw.status.value, raw.first.value,
      if raw.status.value.Duplicate? && raw.second.Some? && raw.second.value in local then raw.second else None)
  }

  /** The finding keeps code and individual, and of a duplicate the counterpart if it is local. */
  predicate Describes(raw: RawFinding, local: set<nat>, finding: Finding) {
    && raw.status == Some(finding.code) && raw.first == Some(finding.individual)
    && (finding.related.Some? ==> finding.related == raw.second)
    && (finding.related.Some? <==> finding.code == Duplicate && raw.second.Some? && raw.second.value in local)
  }

  /** The local findings of a readable result, in its order. */
  ghost predicate LocalFindings(raws: seq<RawFinding>, local: set<nat>, findings: seq<Finding>) {
    && |findings| == |raws|
    && forall i :: 0 <= i < |raws| ==> Describes(raws[i], local, findings[i])
  }

  /** `_build_biometric_findings`: all or nothing; None is the RemoteError. */
  method BuildBiometricFindings(raws: seq<RawFinding>, current: set<nat>, local: set<nat>) returns (findings: Option<seq<Finding>>)
    ensures findings.Some? <==> forall i :: 0 <= i < |raws| ==> ValidFinding(raws[i], current)
    ensures findings.Some? ==> LocalFindings(raws, local, findings.value)
  {
    var built: seq<Finding> := [];
    for i := 0 to |raws|
      invariant |built| == i
      invariant forall j :: 0 <= j < i ==> ValidFinding(raws[j], current) && built[j] == LocalFinding(raws[j], local)
    {
      if raws[i].status.None? || raws[i].first.None? {
        return None;
      }
      if raws[i].first.value !in current {
        return None;
      }
      if raws[i].status.value.Duplicate? && raws[i].second.None? {
        return None;
      }
      built := built + [LocalFinding(raws[i], local)];
    }
    return Some(built);
  }

  predicate AnySystemError(raws: seq<RawFinding>) {
    exists i :: 0 <= i < |raws| && raws[i].status == Some(GenericError)
  }

  /** Reading statuses and first references for the system errors raises before anything is stored. */
  predicate ReadableForErrors(raws: seq<RawFinding>) {
    forall i :: 0 <= i < |raws| ==>
      raws[i].status.Some? && (raws[i].status.value.GenericError? ==> raws[i].first.Some?)
  }

  /** `sync_biometric_deduplication_result`: which of the operation's blocks runs, and with what. */
  method SyncDecision(running: bool, remote: Remote, current: set<nat>, local: set<nat>) returns (decision: Decision)
    ensures decision.Complete? <==>
      && running && remote.Answered? && remote.state.Deduplicated? && remote.count == Some(|remote.findings|)
      && !AnySystemError(remote.findings)
      && forall i :: 0 <= i < |remote.findings| ==> ValidFinding(remote.findings[i], current)
    ensures decision.Complete? ==> LocalFindings(remote.findings, local, decision.findings)
    ensures decision.Ignore? <==> !running || (remote.Answered? && remote.state.OtherState?)
  {
    if !running {
      return Ignore;
    }
    if remote.Unreachable? {
      return Fail;
    }
    if remote.state.ProcessingFailed? {
      return Fail;
    }
    if !remote.state.Deduplicated? {
      return Ignore;
    }
    if remote.count != Some(|remote.findings|) {
      return Fail;
    }
    if !ReadableForErrors(remote.findings) || AnySystemError(remote.findings) {
      return Fail;
    }
    var findings := BuildBiometricFindings(remote.findings, current, local);
    return if findings.Some? then Complete(findings.value) else Fail;
  }

  lemma {:induction false} CountAffecting(findings: seq<Finding>)
    ensures AffectingCount(findings) <= |findings|
    ensures AffectingCount(findings) == |findings| <==> forall i :: 0 <= i < |findings| ==> AffectsHope(findings[i])
    ensures AffectingCount(findings) > 0 <==> exists i :: 0 <= i < |findings| && AffectsHope(findings[i])
  {
    if findings != [] {
      CountAffecting(findings[1..]);
      assert forall i :: 0 < i < |findings| ==> findings[i] == findings[1..][i - 1];
      if exists i :: 0 < i < |findings| && AffectsHope(findings[i]) {
        var i :| 0 < i < |findings| && AffectsHope(findings[i]);
        assert AffectsHope(findings[1..][i - 1]);
      }
    }
  }

  /** Since system errors fail the operation, every stored finding counts towards the threshold. */
  lemma {:induction false} StoredFindingsAllCount(raws: seq<RawFinding>, local: set<nat>, findings: seq<Finding>)
    requires !AnySystemError(raws) && LocalFindings(raws, local, findings)
    ensures AffectingCount(findings) == |raws|
  {
    CountAffecting(findings);
    forall i | 0 <= i < |findings| ensures AffectsHope(findings[i]) {
      assert raws[i].status != Some(GenericError);
    }
  }

  // ----- rdp/deduplication/repository.py -----

  /** `[pk for pk in pks if pk not in excluded]` and what it leaves out. */
  function Without(pks: seq<nat>, excluded: set<nat>): seq<nat> {
    if pks == [] then []
    else (if pks[0] in excluded then [] else [pks[0]]) + Without(pks[1..], excluded)
  }

  function Only(pks: seq<nat>, excluded: set<nat>): seq<nat> {
    if pks == [] then []
    else (if pks[0] in excluded then [pks[0]] else []) + Only(pks[1..], excluded)
  }

  /** The two sorted lists put together again. */
  function Interleaved(a: seq<nat>, b: seq<nat>): seq<nat>
    decreases |a| + |b|
  {
    if a == [] then b
    else if b == [] then a
    else if a[0] < b[0] then [a[0]] + Interleaved(a[1..], b)
    else [b[0]] + Interleaved(a, b[1..])
  }

  lemma {:induction false} KeepsAbove(pks: seq<nat>, excluded: set<nat>, m: nat)
    requires forall i :: 0 <= i < |pks| ==> pks[i] > m
    ensures forall i :: 0 <= i < |Without(pks, excluded)| ==> Without(pks, excluded)[i] > m
    ensures forall i :: 0 <= i < |Only(pks, excluded)| ==> Only(pks, excluded)[i] > m
  {
    if pks != [] {
      KeepsAbove(pks[1..], excluded, m);
    }
  }

  lemma {:induction false} WithoutMembers(pks: seq<nat>, excluded: set<nat>)
    ensures forall x :: x in Without(pks, excluded) <==> x in pks && x !in excluded
    ensures forall x :: x in Only(pks, excluded) <==> x in pks && x in excluded
  {
    if pks != [] {
      WithoutMembers(pks[1..], excluded);
      assert forall x :: x in pks <==> x == pks[0] || x in pks[1..];
    }
  }

  /** The clean list keeps the order, and so does the list of what it leaves out. */
  lemma {:induction false} CleanListKeepsOrder(pks: seq<nat>, excluded: set<nat>)
    requires Increasing(pks)
    ensures Increasing(Without(pks, excluded)) && Increasing(Only(pks, excluded))
  {
    if pks != [] {
      CleanListKeepsOrder(pks[1..], excluded);
      KeepsAbove(pks[1..], excluded, pks[0]);
      WithoutHead(pks, excluded);
      var a, b := Without(pks[1..], excluded), Only(pks[1..], excluded);
      hide Without, Only;
      IncreasingHead(pks[0], a);
      IncreasingHead(pks[0], b);
    }
  }

  /** Together the two lists rebuild the old one. */
  lemma {:induction false} CleanListRebuilds(pks: seq<nat>, excluded: set<nat>)
    requires Increasing(pks)
    ensures Interleaved(Without(pks, excluded), Only(pks, excluded)) == pks
  {
    if pks != [] {
      CleanListRebuilds(pks[1..], excluded);
      KeepsAbove(pks[1..], excluded, pks[0]);
      WithoutHead(pks, excluded);
      var a, b := Without(pks[1..], excluded), Only(pks[1..], excluded);
      hide Without, Only;
      HeadFirst(pks[0], a, b);
      hide Interleaved;
      assert pks == [pks[0]] + pks[1..];
    }
  }

  lemma WithoutHead(pks: seq<nat>, excluded: set<nat>)
    requires pks != []
    ensures pks[0] in excluded ==>
      Without(pks, excluded) == Without(pks[1..], excluded) && Only(pks, excluded) == [pks[0]] + Only(pks[1..], excluded)
    ensures pks[0] !in excluded ==>
      Without(pks, excluded) == [pks[0]] + Without(pks[1..], excluded) && Only(pks, excluded) == Only(pks[1..], excluded)
  {
  }

  lemma IncreasingHead(x: nat, s: seq<nat>)
    requires Increasing(s) && forall i :: 0 <= i < |s| ==> s[i] > x
    ensures Increasing([x] + s)
  {
  }

  /** The least element comes first, whichever list it is in. */
  lemma HeadFirst(x: nat, a: seq<nat>, b: seq<nat>)
    requires forall i :: 0 <= i < |a| ==> a[i] > x
    requires forall i :: 0 <= i < |b| ==> b[i] > x
    ensures Interleaved([x] + a, b) == [x] + Interleaved(a, b)
    ensures Interleaved(a, [x] + b) == [x] + Interleaved(a, b)
  {
    assert ([x] + a)[1..] == a && ([x] + b)[1..] == b;
  }

  /** `affected.values_list("household_id" if master_detail else "pk")` */
  function Excluded(s: State, rdp: nat): set<nat>
    requires rdp in s.rdps && Biometric in s.rdps[rdp].operations
  {
    if MasterDetail(s, s.rdps[rdp].program)
    then set i | i in Affected(s, rdp) && i in s.individuals && s.individuals[i].household.Some? :: s.individuals[i].household.value
    else Affected(s, rdp)
  }

  /** The list that `create_clean_rdp` checks twice is the selection that RdpSteps gives the new row. */
  lemma CleanListIsCleanSelection(s: State, rdp: nat, pks: seq<nat>)
    requires rdp in s.rdps && Biometric in s.rdps[rdp].operations
    requires s.rdps[rdp].selection == set x | x in pks
    ensures CleanSelection(s, rdp) == set x | x in Without(pks, Excluded(s, rdp))
  {
    WithoutMembers(pks, Excluded(s, rdp));
    forall x ensures x in CleanSelection(s, rdp) <==> x in pks && x !in Excluded(s, rdp) {
      if MasterDetail(s, s.rdps[rdp].program) && x in pks {
        assert x in s.rdps[rdp].selection;
        if x !in CleanSelection(s, rdp) {
          var i :| i in Affected(s, rdp) && !(i in s.individuals && s.individuals[i].household != Some(x));
          assert i in s.individuals && s.individuals[i].household == Some(x);
        }
      }
    }
  }

  /** The individual is named on either side of a finding that HOPE would see. */
  predicate Named(findings: seq<Finding>, i: nat) {
    exists f :: f in findings && AffectsHope(f) && (f.individual == i || f.related == Some(i))
  }

  /**
   * Who the clean selection represents: exactly those of the old RDP who are not named in an
   * affecting finding and, in household mode, share no household with somebody who is.
   */
  lemma CleanRepresentsTheUnaffected(s: State, rdp: nat, i: nat)
    requires rdp in s.rdps && Biometric in s.rdps[rdp].operations
    ensures var row := s.rdps[rdp];
      var findings := row.operations[Biometric].findings;
      var masterDetail := MasterDetail(s, row.program);
      var represented := SelectedIndividuals(s, masterDetail, row.selection);
      i in SelectedIndividuals(s, masterDetail, CleanSelection(s, rdp)) <==>
        i in represented && !Named(findings, i)
        && (masterDetail ==> forall j :: j in represented && s.individuals[j].household == s.individuals[i].household ==> !Named(findings, j))
  {
    var row := s.rdps[rdp];
    var findings := row.operations[Biometric].findings;
    var masterDetail := MasterDetail(s, row.program);
    var represented := SelectedIndividuals(s, masterDetail, row.selection);
    assert forall j :: j in Affected(s, rdp) <==> j in represented && Named(findings, j);
  }

  // ----- the threshold of the replacement -----

  /** With the forced COUNT threshold of zero an evaluation asks for review exactly when a finding affects HOPE. */
  lemma ZeroThresholdReviews(s: State, rdp: nat)
    requires rdp in s.rdps && Biometric in s.rdps[rdp].operations
    requires s.rdps[rdp].operations[Biometric].threshold == Threshold(Count, 0)
    ensures var row := s.rdps[rdp];
      var evaluated := row.status == Pending && !CleanupInProgress(s, row.program) && AllSucceeded(row.operations);
      var represented := SelectedIndividuals(s, MasterDetail(s, row.program), row.selection);
      var findings := row.operations[Biometric].findings;
      var affecting := exists i :: 0 <= i < |findings| && AffectsHope(findings[i]);
      Verdict(s, rdp) ==
        if !evaluated then NotEvaluated
        else if represented == {} then EvaluationError
        else if affecting then Review else PushNow
  {
    CountAffecting(s.rdps[rdp].operations[Biometric].findings);
    var represented := SelectedIndividuals(s, MasterDetail(s, s.rdps[rdp].program), s.rdps[rdp].selection);
    if |represented| == 0 {
      assert represented == {};
    }
  }

  /** What a successful replacement leaves: the old RDP cancelled, the new one pending with the clean selection. */
  lemma ReplacementOutcome(s: State, rdp: nat, valid: bool, pushDate: int)
    requires rdp in s.rdps && s.nextRdp !in s.rdps && CreateClean(s, rdp, valid, pushDate) != s
    ensures var t := CreateClean(s, rdp, valid, pushDate); var n := s.nextRdp;
      && n in t.rdps && rdp in t.rdps && t.nextRdp == n + 1
      && t.rdps[rdp].status == Cancelled && RejectJob(Some(n)) in t.rdps[rdp].jobs
      && t.rdps[n].status == Pending && t.rdps[n].selection == CleanSelection(s, rdp) != {}
      && t.rdps[n].operations.Keys == s.rdps[rdp].operations.Keys
      && Biometric in t.rdps[n].operations && t.rdps[n].operations[Biometric].threshold == Threshold(Count, 0)
      && t.rdps[n].jobs == {}
      && (forall r :: r in s.rdps && r != rdp ==> r in t.rdps && t.rdps[r] == s.rdps[r])
  {
    hide CleanSelection, MeetsNoOther, Selectable, HasUnfinished;
    var operations := s.rdps[rdp].operations;
    assert Biometric in CleanThresholds(operations);
    assert NewOperations(CleanThresholds(operations)).Keys == operations.Keys;
    assert NewOperations(CleanThresholds(operations))[Biometric].threshold == Threshold(Count, 0);
  }

  lemma NextIsFree(s0: State, events: seq<Event>)
    requires Initial(s0)
    ensures Run(s0, events).nextRdp !in Run(s0, events).rdps
  {
    RunInv(s0, events);
  }

  /**
   * Over whole runs: whenever the RDP created by a clean replacement is evaluated, it goes to
   * review exactly when its own findings still affect HOPE, and is pushed otherwise.
   */
  lemma CleanRdpVerdict(s0: State, events: seq<Event>, rdp: nat, valid: bool, pushDate: int, more: seq<Event>)
    requires Initial(s0)
    requires var s := Run(s0, events); rdp in s.rdps && CreateClean(s, rdp, valid, pushDate) != s
    ensures var n := Run(s0, events).nextRdp;
      var t := Run(s0, events + [CleanBlock(rdp, valid, pushDate)] + more);
      n in t.rdps ==>
        && Biometric in t.rdps[n].operations
        && (Verdict(t, n) == Review ==> exists f :: f in t.rdps[n].operations[Biometric].findings && AffectsHope(f))
        && (Verdict(t, n) == PushNow ==> forall f :: f in t.rdps[n].operations[Biometric].findings ==> !AffectsHope(f))
  {
    var s, e := Run(s0, events), CleanBlock(rdp, valid, pushDate);
    hide Run, CreateClean, CleanSelection, Verdict;
    NextIsFree(s0, events);
    ReplacementOutcome(s, rdp, valid, pushDate);
    RunMore(s0, events, [e]);
    assert [e][..0] == [] && events + [] == events;
    assert HasThreshold(Apply(s, e), s.nextRdp, Biometric, Threshold(Count, 0));
    ThresholdForever(s0, events + [e], more, s.nextRdp, Biometric, Threshold(Count, 0));
    var t := Run(s0, events + [e] + more);
    if s.nextRdp in t.rdps {
      ZeroThresholdReviews(t, s.nextRdp);
    }
  }
}
