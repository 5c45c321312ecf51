/** A reachable run in which a recorded RDI id is replaced by the id of an earlier attempt. */
module RdpWitness {
  import opened Common
  import opened RdpState
  import opened RdpSteps
  import opened RdpRuns

  function Row(status: Status, rdi: RdiId, attempt: Option<nat>, jobs: set<Job>): Rdp {
    Rdp(0, status, rdi, attempt, {7}, 0, map[], jobs)
  }

  datatype History = History(attempts: seq<nat>, workers: seq<Worker>, resets: set<(nat, string)>, creations: seq<nat>)

  /** One individual in a programme without households, and the RDP that selects it. */
  function World(row: Rdp, h: History): State {
    State(map[0 := Program(false, false, false)], map[], map[7 := Individual(0, None, false)],
      map[0 := row], 1, h.attempts, h.workers, h.resets, h.creations)
  }

  const START := State(map[0 := Program(false, false, false)], map[], map[], map[], 0, [], [], {}, [])

  const FIRST_JOBS := {EvaluateJob, PrepareJob(0, None), DataJob(0)}

  const FIRST_WORKERS := [Preparation(0, 0, None, PreparationOver), DataPush(0, 0, DataOver)]

  lemma Then(s: State, events: seq<Event>, e: Event, t: State)
    requires Apply(Run(s, events), e) == t
    ensures Run(s, events + [e]) == t
  {
    assert (events + [e])[..|events + [e]| - 1] == events;
  }

  // ----- single steps of this world -----

  predicate Pushes(row: Rdp, attempt: nat) {
    row == Row(PushPending, row.rdi, Some(attempt), row.jobs)
  }

  lemma Started(row: Rdp, h: History, a: nat, x: Option<string>)
    requires Pushes(row, a) && PrepareJob(a, x) in row.jobs
    ensures Apply(World(row, h), PreparationStarted(0, a, x))
      == World(row, h.(workers := h.workers + [Preparation(0, a, x, if x.None? then ReadyToSchedule else Entered)]))
  {
  }

  lemma Answered(row: Rdp, h: History, w: nat, answer: ResetAnswer, next: PreparationStage)
    requires w < |h.workers| && h.workers[w].Preparation? && h.workers[w].preparation == Entered && h.workers[w].toReset.Some?
    requires (answer == NotFound && next == ReadyToSchedule) || (answer == MergedAlready && next == AlreadyMerged)
    ensures Apply(World(row, h), ResetAnswered(w, answer)) == World(row, h.(
      workers := h.workers[w := h.workers[w].(preparation := next)],
      resets := h.resets + {(h.workers[w].attempt, h.workers[w].toReset.value)}))
  {
  }

  lemma Scheduled(row: Rdp, h: History, w: nat, a: nat)
    requires Pushes(row, a) && DataJob(a) !in row.jobs
    requires w < |h.workers| && h.workers[w].Preparation? && h.workers[w].preparation == ReadyToSchedule
    requires h.workers[w].rdp == 0 && h.workers[w].attempt == a
    ensures Apply(World(row, h), ScheduleBlock(w)) == World(row.(rdi := Unset, jobs := row.jobs + {DataJob(a)}),
      h.(workers := h.workers[w := h.workers[w].(preparation := PreparationOver)]))
  {
  }

  /** Claim, preflight, creation and recording by a new data worker. */
  lemma Recording(s: State, events: seq<Event>, row: Rdp, h: History, a: nat, id: string) returns (more: seq<Event>)
    requires Run(s, events) == World(row, h) && Pushes(row, a) && row.rdi == Unset && DataJob(a) in row.jobs
    ensures Run(s, more) == World(row.(rdi := Real(id)),
      h.(workers := h.workers + [DataPush(0, a, Pushing(id))], creations := h.creations + [a]))
  {
    var w := |h.workers|;
    var claimed := h.(workers := h.workers + [DataPush(0, a, Claimed)]);
    Then(s, events, ClaimBlock(0, a), World(row.(rdi := NotAvailable), claimed));
    more := events + [ClaimBlock(0, a)];
    var checked := h.(workers := h.workers + [DataPush(0, a, Checked)]);
    Checking(row.(rdi := NotAvailable), h, a);
    Then(s, more, Preflight(w, true), World(row.(rdi := NotAvailable), checked));
    more := more + [Preflight(w, true)];
    var created := h.(workers := h.workers + [DataPush(0, a, Created(id))], creations := h.creations + [a]);
    Creating(row.(rdi := NotAvailable), h, a, id);
    Then(s, more, CreateAnswered(w, Some(id)), World(row.(rdi := NotAvailable), created));
    more := more + [CreateAnswered(w, Some(id))];
    Storing(row.(rdi := NotAvailable), created, h.workers, a, id);
    Then(s, more, RecordBlock(w), World(row.(rdi := Real(id)),
      created.(workers := h.workers + [DataPush(0, a, Pushing(id))])));
    more := more + [RecordBlock(w)];
  }

  lemma Checking(row: Rdp, h: History, a: nat)
    requires Pushes(row, a)
    ensures Apply(World(row, h.(workers := h.workers + [DataPush(0, a, Claimed)])), Preflight(|h.workers|, true))
      == World(row, h.(workers := h.workers + [DataPush(0, a, Checked)]))
  {
    assert (h.workers + [DataPush(0, a, Claimed)])[|h.workers| := DataPush(0, a, Checked)] == h.workers + [DataPush(0, a, Checked)];
  }

  lemma Creating(row: Rdp, h: History, a: nat, id: string)
    ensures Apply(World(row, h.(workers := h.workers + [DataPush(0, a, Checked)])), CreateAnswered(|h.workers|, Some(id)))
      == World(row, h.(workers := h.workers + [DataPush(0, a, Created(id))], creations := h.creations + [a]))
  {
    assert (h.workers + [DataPush(0, a, Checked)])[|h.workers| := DataPush(0, a, Created(id))] == h.workers + [DataPush(0, a, Created(id))];
  }

  lemma Storing(row: Rdp, h: History, before: seq<Worker>, a: nat, id: string)
    requires Pushes(row, a) && h.workers == before + [DataPush(0, a, Created(id))]
    ensures Apply(World(row, h), RecordBlock(|before|))
      == World(row.(rdi := Real(id)), h.(workers := before + [DataPush(0, a, Pushing(id))]))
  {
    assert h.workers[|before| := DataPush(0, a, Pushing(id))] == before + [DataPush(0, a, Pushing(id))];
  }

  lemma Failing(row: Rdp, h: History, w: nat, a: nat, id: string)
    requires Pushes(row, a) && row.rdi == Real(id) && w < |h.workers| && h.workers[w] == DataPush(0, a, Pushing(id))
    ensures var failing := h.(workers := h.workers[w := DataPush(0, a, DataFailing(Some(id)))]);
      && Apply(World(row, h), DataRaised(w)) == World(row, failing)
      && Apply(World(row, failing), DataFailed(w)) == World(row.(status := Failure, attempt := None),
           h.(workers := h.workers[w := DataPush(0, a, DataOver)]))
  {
    assert h.workers[w := DataPush(0, a, DataFailing(Some(id)))][w := DataPush(0, a, DataOver)]
      == h.workers[w := DataPush(0, a, DataOver)];
  }

  lemma Merging(row: Rdp, h: History, w: nat, a: nat, id: string)
    requires Pushes(row, a) && w < |h.workers| && h.workers[w] == Preparation(0, a, Some(id), AlreadyMerged)
    ensures var t := Apply(World(row, h), MergedBlock(w));
      0 in t.rdps && t.rdps[0].rdi == Real(id) && t.rdps[0].status == Success
  {
  }

  // ----- the run -----

  lemma RdpCreated() returns (events: seq<Event>)
    ensures Run(START, events) == World(Row(Pending, Unset, None, {EvaluateJob}), History([], [], {}, []))
  {
    events := [];
    var t := START.(individuals := map[7 := Individual(0, None, false)]);
    Then(START, events, Imported(map[], t.individuals), t);
    events := events + [Imported(map[], t.individuals)];
    assert Selectable(t, 0, {7});
    t := World(Row(Pending, Unset, None, {EvaluateJob}), History([], [], {}, []));
    Then(START, events, CreateBlock(0, {7}, map[], 0), t);
    events := events + [CreateBlock(0, {7}, map[], 0)];
  }

  lemma PushStarts() returns (events: seq<Event>)
    ensures Run(START, events)
      == World(Row(PushPending, Unset, Some(0), {EvaluateJob, PrepareJob(0, None)}), History([0], [], {}, []))
  {
    events := RdpCreated();
    var t := World(Row(Pending, Unset, None, {EvaluateJob}), History([], [], {}, []));
    assert Verdict(t, 0) == PushNow;
    assert {EvaluateJob} + {PrepareJob(0, None)} == {EvaluateJob, PrepareJob(0, None)};
    Then(START, events, EvaluateBlock(0),
      World(Row(PushPending, Unset, Some(0), {EvaluateJob, PrepareJob(0, None)}), History([0], [], {}, [])));
    events := events + [EvaluateBlock(0)];
  }

  lemma FirstPushScheduled() returns (events: seq<Event>)
    ensures Run(START, events)
      == World(Row(PushPending, Unset, Some(0), FIRST_JOBS), History([0], FIRST_WORKERS[..1], {}, []))
  {
    events := PushStarts();
    var row, h := Row(PushPending, Unset, Some(0), {EvaluateJob, PrepareJob(0, None)}), History([0], [], {}, []);
    Started(row, h, 0, None);
    h := h.(workers := h.workers + [Preparation(0, 0, None, ReadyToSchedule)]);
    Then(START, events, PreparationStarted(0, 0, None), World(row, h));
    events := events + [PreparationStarted(0, 0, None)];
    Scheduled(row, h, 0, 0);
    assert row.jobs + {DataJob(0)} == FIRST_JOBS;
    assert h.workers[0 := h.workers[0].(preparation := PreparationOver)] == FIRST_WORKERS[..1];
    Then(START, events, ScheduleBlock(0),
      World(Row(PushPending, Unset, Some(0), FIRST_JOBS), h.(workers := FIRST_WORKERS[..1])));
    events := events + [ScheduleBlock(0)];
  }

  /** The first data push creates the RDI "x" and then fails. */
  lemma FirstAttemptFails() returns (events: seq<Event>)
    ensures Run(START, events) == World(Row(Failure, Real("x"), None, FIRST_JOBS), History([0], FIRST_WORKERS, {}, [0]))
  {
    hide Apply;
    events := FirstPushScheduled();
    var row, h := Row(PushPending, Unset, Some(0), FIRST_JOBS), History([0], FIRST_WORKERS[..1], {}, []);
    events := Recording(START, events, row, h, 0, "x");
    row := row.(rdi := Real("x"));
    assert h.creations + [0] == [0];
    h := h.(workers := h.workers + [DataPush(0, 0, Pushing("x"))], creations := [0]);
    Failing(row, h, 1, 0, "x");
    Then(START, events, DataRaised(1), World(row, h.(workers := h.workers[1 := DataPush(0, 0, DataFailing(Some("x")))])));
    events := events + [DataRaised(1)];
    assert h.workers[1 := DataPush(0, 0, DataOver)] == FIRST_WORKERS;
    Then(START, events, DataFailed(1), World(row.(status := Failure, attempt := None), h.(workers := FIRST_WORKERS)));
    events := events + [DataFailed(1)];
  }

  const RETRY_JOBS := FIRST_JOBS + {PrepareJob(1, Some("x"))}

  const SECOND_JOBS := RETRY_JOBS + {DataJob(1)}

  lemma Retried() returns (events: seq<Event>)
    ensures Run(START, events) == World(Row(PushPending, Real("x"), Some(1), RETRY_JOBS), History([0, 0], FIRST_WORKERS, {}, [0]))
  {
    events := FirstAttemptFails();
    Then(START, events, RetryBlock(0),
      World(Row(PushPending, Real("x"), Some(1), RETRY_JOBS), History([0, 0], FIRST_WORKERS, {}, [0])));
    events := events + [RetryBlock(0)];
  }

  /** After the retry, two deliveries of the preparation job wait for the answer to their reset requests. */
  lemma TwoPreparations() returns (events: seq<Event>)
    ensures Run(START, events) == World(Row(PushPending, Real("x"), Some(1), RETRY_JOBS), History([0, 0],
      FIRST_WORKERS + [Preparation(0, 1, Some("x"), Entered), Preparation(0, 1, Some("x"), Entered)], {}, [0]))
  {
    hide Apply;
    events := Retried();
    var row, h := Row(PushPending, Real("x"), Some(1), RETRY_JOBS), History([0, 0], FIRST_WORKERS, {}, [0]);
    var delivery, waiting := PreparationStarted(0, 1, Some("x")), Preparation(0, 1, Some("x"), Entered);
    Started(row, h, 1, Some("x"));
    h := h.(workers := h.workers + [waiting]);
    Then(START, events, delivery, World(row, h));
    events := events + [delivery];
    Started(row, h, 1, Some("x"));
    assert h.workers + [waiting] == FIRST_WORKERS + [waiting, waiting];
    h := h.(workers := h.workers + [waiting]);
    Then(START, events, delivery, World(row, h));
    events := events + [delivery];
  }

  /** The two deliveries once the first is done. */
  const PREPARATIONS := FIRST_WORKERS + [Preparation(0, 1, Some("x"), PreparationOver), Preparation(0, 1, Some("x"), Entered)]

  /** HOPE has no "x" left to reset for the first delivery, which schedules the data push. */
  lemma SecondPushScheduled() returns (events: seq<Event>)
    ensures Run(START, events)
      == World(Row(PushPending, Unset, Some(1), SECOND_JOBS), History([0, 0], PREPARATIONS, {(1, "x")}, [0]))
  {
    hide Apply;
    events := TwoPreparations();
    var row := Row(PushPending, Real("x"), Some(1), RETRY_JOBS);
    var waiting := Preparation(0, 1, Some("x"), Entered);
    var h := History([0, 0], FIRST_WORKERS + [waiting, waiting], {}, [0]);
    Answered(row, h, 2, NotFound, ReadyToSchedule);
    assert h.resets + {(1, "x")} == {(1, "x")};
    h := h.(workers := h.workers[2 := waiting.(preparation := ReadyToSchedule)], resets := {(1, "x")});
    Then(START, events, ResetAnswered(2, NotFound), World(row, h));
    events := events + [ResetAnswered(2, NotFound)];
    Scheduled(row, h, 2, 1);
    assert h.workers[2 := waiting.(preparation := PreparationOver)] == PREPARATIONS;
    Then(START, events, ScheduleBlock(2),
      World(Row(PushPending, Unset, Some(1), SECOND_JOBS), h.(workers := PREPARATIONS)));
    events := events + [ScheduleBlock(2)];
  }

  /**
   * The recorded id can be forgotten: while the second data push is sending into the RDI "y" it
   * recorded, the second delivery hears that "x" is merged and ends the attempt with "x".
   */
  lemma {:induction false} RecordedIdCanBeForgotten() returns (events: seq<Event>, e: Event)
    ensures Initial(START)
    ensures Recorded(Run(START, events), 0, "y") && Current(Run(START, events), 0, 1)
    ensures 0 in Apply(Run(START, events), e).rdps
    ensures Apply(Run(START, events), e).rdps[0].rdi == Real("x")
    ensures Apply(Run(START, events), e).rdps[0].status == Success
  {
    hide Apply;
    events := SecondPushScheduled();
    var row, h := Row(PushPending, Unset, Some(1), SECOND_JOBS), History([0, 0], PREPARATIONS, {(1, "x")}, [0]);
    events := Recording(START, events, row, h, 1, "y");
    row := row.(rdi := Real("y"));
    h := h.(workers := h.workers + [DataPush(0, 1, Pushing("y"))], creations := h.creations + [1]);
    Answered(row, h, 3, MergedAlready, AlreadyMerged);
    assert h.resets + {(1, "x")} == h.resets;
    h := h.(workers := h.workers[3 := Preparation(0, 1, Some("x"), AlreadyMerged)]);
    Then(START, events, ResetAnswered(3, MergedAlready), World(row, h));
    events := events + [ResetAnswered(3, MergedAlready)];
    Merging(row, h, 3, 1, "x");
    e := MergedBlock(3);
  }
}
