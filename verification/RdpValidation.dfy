/** The preflight of rdp/validation.py, which the data push and the clean replacement rely on. */
module RdpValidation {
  import opened Common
  import opened RdpState
  import opened RdpSteps

  datatype Message = NothingSelected | Invalid(household: bool, pk: nat) | InAnotherRdp(household: bool, pk: nat)

  /** What the last validation left on a row. */
  datatype Checked = NeverChecked | CheckedWith(errors: bool)

  /** `_is_valid_row`: a row that was never checked is not valid either. */
  predicate IsValidRow(c: Checked) {
    c.CheckedWith? && !c.errors
  }

  /** `Exists(rdp_qs.filter(...))`: another open or successful RDP of that mode selects the record. */
  predicate HasRdp(s: State, excluded: nat, household: bool, pk: nat) {
    exists r <- s.rdps ::
      && r != excluded && MasterDetail(s, s.rdps[r].program) == household
      && (s.rdps[r].status.Unfinished() || s.rdps[r].status == Success)
      && pk in s.rdps[r].selection
  }

  predicate Valid(checks: map<nat, Checked>, pk: nat) {
    pk in checks && IsValidRow(checks[pk])
  }

  predicate Fine(s: State, excluded: nat, household: bool, checks: map<nat, Checked>, pk: nat) {
    Valid(checks, pk) && !HasRdp(s, excluded, household, pk)
  }

  /** `collect`: up to two messages a row, in the order of the rows. */
  method Collect(s: State, excluded: nat, household: bool, checks: map<nat, Checked>, rows: seq<nat>) returns (errors: seq<Message>)
    ensures errors == [] <==> forall i :: 0 <= i < |rows| ==> Fine(s, excluded, household, checks, rows[i])
    ensures forall pk :: Invalid(household, pk) in errors <==> pk in rows && !(pk in checks && checks[pk] == CheckedWith(false))
    ensures forall pk :: InAnotherRdp(household, pk) in errors <==> pk in rows && HasRdp(s, excluded, household, pk)
  {
    errors := [];
    for i := 0 to |rows|
      invariant errors == [] <==> forall j :: 0 <= j < i ==> Fine(s, excluded, household, checks, rows[j])
      invariant forall pk :: Invalid(household, pk) in errors <==> pk in rows[..i] && !Valid(checks, pk)
      invariant forall pk :: InAnotherRdp(household, pk) in errors <==> pk in rows[..i] && HasRdp(s, excluded, household, pk)
    {
      var pk := rows[i];
      if !Valid(checks, pk) {
        errors := errors + [Invalid(household, pk)];
      }
      if HasRdp(s, excluded, household, pk) {
        errors := errors + [InAnotherRdp(household, pk)];
      }
      assert rows[..i + 1] == rows[..i] + [pk];
    }
    assert rows[..|rows|] == rows;
  }

  /** Row by row, the second half of the check says that the selection meets no other open or successful RDP. */
  lemma RowwiseIsMeetsNoOther(s: State, excluded: nat, program: nat, selection: set<nat>)
    ensures MeetsNoOther(s, excluded, program, selection)
      <==> forall pk :: pk in selection ==> !HasRdp(s, excluded, MasterDetail(s, program), pk)
  {
    if !MeetsNoOther(s, excluded, program, selection) {
      var other :| other in s.rdps && other != excluded
        && MasterDetail(s, s.rdps[other].program) == MasterDetail(s, program)
        && (s.rdps[other].status.Unfinished() || s.rdps[other].status == Success)
        && !(s.rdps[other].selection !! selection);
      var pk :| pk in s.rdps[other].selection && pk in selection;
      assert HasRdp(s, excluded, MasterDetail(s, program), pk);
    }
    if pk :| pk in selection && HasRdp(s, excluded, MasterDetail(s, program), pk) {
      var r :| r in s.rdps && r != excluded && MasterDetail(s, s.rdps[r].program) == MasterDetail(s, program)
        && (s.rdps[r].status.Unfinished() || s.rdps[r].status == Success) && pk in s.rdps[r].selection;
      assert !(s.rdps[r].selection !! selection);
    }
  }

  // ----- the whole preflight -----

  /** The answer of a query ordered by id: each row found, once. */
  ghost predicate Query(rows: seq<nat>, found: set<nat>) {
    Increasing(rows) && forall pk :: pk in rows <==> pk in found
  }

  /** The selected rows that exist. */
  function Existing(s: State, program: nat, pks: set<nat>): set<nat> {
    if MasterDetail(s, program) then set h <- s.households | h in pks else set i <- s.individuals | i in pks
  }

  /** `individual_rows`; `collectors` are the ids that the role fields of the selected households name. */
  function PushedIndividuals(s: State, program: nat, pks: set<nat>, collectors: set<nat>): set<nat> {
    if MasterDetail(s, program) then SelectedIndividuals(s, true, pks) + set i <- s.individuals | i in collectors
    else Existing(s, program, pks)
  }

  /** A member of a selected household, a collector that it names, or a selected individual. */
  predicate IsPushed(s: State, program: nat, pks: set<nat>, collectors: set<nat>, i: nat) {
    && i in s.individuals
    && if program in s.programs && s.programs[program].masterDetail
       then i in collectors || (s.individuals[i].household.Some? && s.individuals[i].household.value in pks)
       else i in pks
  }

  /** What a preflight without errors has established. */
  ghost predicate Passes(s: State, excluded: nat, program: nat, pks: set<nat>, collectors: set<nat>,
                         individuals: map<nat, Checked>, households: map<nat, Checked>) {
    && pks != {}
    && MeetsNoOther(s, excluded, program, Existing(s, program, pks))
    && (forall i :: IsPushed(s, program, pks, collectors, i) ==> i in individuals && individuals[i] == CheckedWith(false))
    && (MasterDetail(s, program) ==>
          && (forall h :: h in Existing(s, program, pks) ==> h in households && households[h] == CheckedWith(false))
          && (forall i :: IsPushed(s, program, pks, collectors, i) ==> !HasRdp(s, excluded, false, i)))
  }

  lemma AllFine(s: State, excluded: nat, household: bool, checks: map<nat, Checked>, rows: seq<nat>, found: set<nat>)
    requires Query(rows, found)
    ensures (forall i :: 0 <= i < |rows| ==> Fine(s, excluded, household, checks, rows[i]))
      <==> forall pk :: pk in found ==> Fine(s, excluded, household, checks, pk)
  {
    hide Fine;
    assert forall i :: 0 <= i < |rows| ==> rows[i] in rows;
  }

  /** `preflight_errors`: empty exactly when the selection is free, valid and, with its members and collectors, disjoint. */
  method PreflightErrors(s: State, excluded: nat, program: nat, pks: set<nat>, ghost collectors: set<nat>,
                         individualRows: seq<nat>, householdRows: seq<nat>,
                         individuals: map<nat, Checked>, households: map<nat, Checked>) returns (errors: seq<Message>)
    requires Query(individualRows, PushedIndividuals(s, program, pks, collectors))
    requires MasterDetail(s, program) ==> Query(householdRows, Existing(s, program, pks))
    ensures errors == [] <==> Passes(s, excluded, program, pks, collectors, individuals, households)
    ensures errors == [] && Selectable(s, program, pks) ==> MeetsNoOther(s, excluded, program, pks)
  {
    ghost var pushed, existing := PushedIndividuals(s, program, pks, collectors), Existing(s, program, pks);
    assert Selectable(s, program, pks) ==> existing == pks;
    assert forall i :: i in pushed <==> IsPushed(s, program, pks, collectors, i);
    if pks == {} {
      return [NothingSelected];
    }
    errors := Collect(s, excluded, false, individuals, individualRows);
    AllFine(s, excluded, false, individuals, individualRows, pushed);
    RowwiseIsMeetsNoOther(s, excluded, program, existing);
    hide MeetsNoOther, HasRdp, Selectable, IsPushed, PushedIndividuals;
    if !MasterDetail(s, program) {
      return;
    }
    var first := Collect(s, excluded, true, households, householdRows);
    AllFine(s, excluded, true, households, householdRows, existing);
    errors := first + errors;
  }
}
