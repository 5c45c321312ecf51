/**
 * The database and the running workers behind the RDP workflow, as one value.
 *
 * Operations and jobs live inside their RDP, because both foreign keys cascade from it.
 * `attempts`, `workers`, `resets` and `creations` only ever grow: they are the history that
 * the safety theorems speak about.
 */
module RdpState {
  import opened Common
  import opened PushPolicy

  datatype Status = Pending | ReviewPending | PushPending | Success | Failure | Cancelled {
    /** NON_TERMINAL_RDP_STATUSES */
    predicate Unfinished() {
      Pending? || Failure? || ReviewPending? || PushPending?
    }
  }

  /** The `hope_rdi_id` convention: None, "N/A", or an id that HOPE returned. */
  datatype RdiId = Unset | NotAvailable | Real(id: string)

  datatype OperationStatus = Waiting | Running | Succeeded | Failed

  datatype Kind = Biometric | OtherKind(n: nat)

  datatype FindingCode =
    Duplicate | FileNotFound | NoFaceDetected | FaceNotAccepted | BadImageQuality | MultipleFacesDetected
  | GenericError

  datatype Finding = Finding(code: FindingCode, individual: nat, related: Option<nat>)

  datatype Operation = Operation(status: OperationStatus, runs: nat, threshold: Threshold, findings: seq<Finding>)

  datatype Job =
    | EvaluateJob
    | PrepareJob(attempt: nat, toReset: Option<string>)
    | DataJob(attempt: nat)
    | OperationJob(kind: Kind)
    | RejectJob(replacement: Option<nat>)

  datatype Rdp = Rdp(
    program: nat, status: Status, rdi: RdiId, attempt: Option<nat>, selection: set<nat>, pushDate: int,
    operations: map<Kind, Operation>, jobs: set<Job>)

  /** `purged` says that the cleanup run in progress has deleted the programme's RDPs. */
  datatype Program = Program(masterDetail: bool, cleanup: bool, purged: bool)

  datatype Household = Household(program: nat, removed: bool)

  datatype Individual = Individual(program: nat, household: Option<nat>, removed: bool)

  datatype PreparationStage = Entered | AlreadyMerged | ReadyToSchedule | PreparationFailing | PreparationOver

  /** Stages of `push_rdp_data_core`; the id is the one `create_rdi` returned to this worker. */
  datatype DataStage =
    | Claimed | Checked | Created(rdi: string) | Pushing(rdi: string) | Pushed(rdi: string)
    | DataFailing(created: Option<string>) | DataOver

  datatype Worker =
    | Preparation(rdp: nat, attempt: nat, toReset: Option<string>, preparation: PreparationStage)
    | DataPush(rdp: nat, attempt: nat, data: DataStage)

  datatype ResetAnswer = Accepted | NotFound | MergeInProgress | MergedAlready | Unconfirmed | OtherError

  datatype State = State(
    programs: map<nat, Program>, households: map<nat, Household>, individuals: map<nat, Individual>,
    rdps: map<nat, Rdp>, nextRdp: nat, attempts: seq<nat>, workers: seq<Worker>,
    resets: set<(nat, string)>, creations: seq<nat>)

  /** No programme is being cleaned and nothing has happened yet. */
  ghost predicate Initial(s: State) {
    && (forall p :: p in s.programs ==> !s.programs[p].cleanup)
    && s.households == map[] && s.individuals == map[] && s.rdps == map[] && s.nextRdp == 0
    && s.attempts == [] && s.workers == [] && s.resets == {} && s.creations == []
  }

  function AffectsHope(f: Finding): bool {
    !f.code.GenericError?
  }

  /** `biometric_findings_count` */
  function AffectingCount(findings: seq<Finding>): nat {
    if findings == [] then 0
    else (if AffectsHope(findings[0]) then 1 else 0) + AffectingCount(findings[1..])
  }

  predicate AllSucceeded(operations: map<Kind, Operation>) {
    forall k <- operations :: operations[k].status == Succeeded
  }

  predicate AnyRunning(operations: map<Kind, Operation>) {
    exists k <- operations :: operations[k].status == Running
  }

  /** Individuals whose household is selected, or who are selected themselves. */
  function SelectedIndividuals(s: State, masterDetail: bool, selection: set<nat>): set<nat> {
    if masterDetail
    then set i <- s.individuals | s.individuals[i].household.Some? && s.individuals[i].household.value in selection
    else set i <- s.individuals | i in selection
  }

  /** The row that `lock_rdp_push_attempt` would return exists. */
  predicate Current(s: State, rdp: nat, attempt: nat) {
    rdp in s.rdps && s.rdps[rdp].status == PushPending && s.rdps[rdp].attempt == Some(attempt)
  }

  predicate CleanupInProgress(s: State, program: nat) {
    program in s.programs && s.programs[program].cleanup
  }

  predicate HasUnfinished(s: State, program: nat) {
    exists r <- s.rdps :: s.rdps[r].program == program && s.rdps[r].status.Unfinished()
  }

  predicate MasterDetail(s: State, program: nat) {
    program in s.programs && s.programs[program].masterDetail
  }

  /** Part of `preflight_errors`: the selection meets no open or successful RDP but `excluded`. */
  predicate MeetsNoOther(s: State, excluded: nat, program: nat, selection: set<nat>) {
    forall other <- s.rdps ::
      other != excluded && MasterDetail(s, s.rdps[other].program) == MasterDetail(s, program)
      && (s.rdps[other].status.Unfinished() || s.rdps[other].status == Success)
      ==> s.rdps[other].selection !! selection
  }
}
