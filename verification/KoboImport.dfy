/**
 * Resumable import of Kobo submissions. Household ids come from a counter that starts at the
 * number of households the batch already has. The client asks for ids above the cursor but
 * for no particular order, and the cursor is the id committed last.
 */
module KoboImport {
  import opened Common
  import OnaImport

  // ----- the query -----

  function Above(ids: set<nat>, cursor: nat): set<nat> {
    set x | x in ids && x > cursor
  }

  function Elements(s: seq<nat>): set<nat> {
    set x | x in s
  }

  /** What the server may answer: the ids above the cursor, once each, in any order. */
  ghost predicate Answers(ids: set<nat>, cursor: nat, served: seq<nat>) {
    NoDuplicates(served) && Elements(served) == Above(ids, cursor)
  }

  // ----- one run -----

  /** A run as the ids on the server, its answer, the commits, the cursor it leaves and how it stopped. */
  datatype Run = Run(ids: set<nat>, served: seq<nat>, count: nat, cursor: nat, stop: OnaImport.Stop)

  /** What a run that began at `cursor` may have done: committed the first ids of the answer. */
  ghost predicate RunOutcome(run: Run, cursor: nat) {
    && Answers(run.ids, cursor, run.served)
    && run.count <= |run.served|
    && run.cursor == (if run.count == 0 then cursor else run.served[run.count - 1])
    && (run.stop == OnaImport.TimeExhausted ==> run.count > 0)
    && (run.stop == OnaImport.Completed ==> run.count == |run.served|)
  }

  /** No unserved id lies below the id committed last. */
  ghost predicate NoneSkipped(served: seq<nat>, count: nat)
    requires count <= |served|
  {
    count > 0 ==> forall j :: count <= j < |served| ==> served[j] > served[count - 1]
  }

  /** No id committed earlier in the run lies above the id committed last. */
  ghost predicate NoneAhead(served: seq<nat>, count: nat)
    requires count <= |served|
  {
    count > 0 ==> forall j :: 0 <= j < count - 1 ==> served[j] < served[count - 1]
  }

  ghost predicate StopsInOrder(served: seq<nat>, count: nat)
    requires count <= |served|
  {
    NoneSkipped(served, count) && NoneAhead(served, count)
  }

  lemma ServedIsAbove(run: Run, cursor: nat)
    requires RunOutcome(run, cursor)
    ensures forall x :: x in run.served <==> x in run.ids && x > cursor
    ensures cursor <= run.cursor && (run.cursor == cursor || run.cursor in run.ids)
  {
    assert forall x :: x in run.served <==> x in Elements(run.served);
    assert forall x :: x in Above(run.ids, cursor) <==> x in run.ids && x > cursor;
    assert run.count > 0 ==> run.served[run.count - 1] in run.served;
  }

  lemma TakenOrLeft(served: seq<nat>, count: nat)
    requires NoDuplicates(served) && count <= |served|
    ensures forall j :: 0 <= j < count ==> served[j] in served[..count]
    ensures forall j :: count <= j < |served| ==> served[j] !in served[..count]
  {
    assert forall j :: 0 <= j < count ==> served[..count][j] == served[j];
  }

  /**
   * After a stop the query above the new cursor leaves out no uncommitted id if and only if no
   * unserved id lies below the one committed last; it finds no committed id again if and only
   * if none lies above that one; so it finds exactly what is left if and only if both hold.
   */
  lemma NextQuery(run: Run, cursor: nat)
    requires RunOutcome(run, cursor)
    ensures var done, next := Elements(run.served[..run.count]), Above(run.ids, run.cursor);
      && (Above(run.ids, cursor) - done <= next <==> NoneSkipped(run.served, run.count))
      && (done !! next <==> NoneAhead(run.served, run.count))
      && (next == Above(run.ids, cursor) - done <==> StopsInOrder(run.served, run.count))
  {
    ServedIsAbove(run, cursor);
    TakenOrLeft(run.served, run.count);
    LeavesOut(run, cursor);
    FindsAgain(run, cursor);
    var done, next := Elements(run.served[..run.count]), Above(run.ids, run.cursor);
    assert next <= Above(run.ids, cursor);
    assert next == Above(run.ids, cursor) - done <==> done !! next && Above(run.ids, cursor) - done <= next;
  }

  lemma LeavesOut(run: Run, cursor: nat)
    requires RunOutcome(run, cursor)
    ensures Above(run.ids, cursor) - Elements(run.served[..run.count]) <= Above(run.ids, run.cursor)
      <==> NoneSkipped(run.served, run.count)
  {
    ServedIsAbove(run, cursor);
    TakenOrLeft(run.served, run.count);
    var left, next := Above(run.ids, cursor) - Elements(run.served[..run.count]), Above(run.ids, run.cursor);
    if left <= next {
      forall j | run.count > 0 && run.count <= j < |run.served| ensures run.served[j] > run.served[run.count - 1] {
        assert run.served[j] in left;
      }
    }
    if NoneSkipped(run.served, run.count) {
      forall x | x in left ensures x in next {
        var j :| 0 <= j < |run.served| && run.served[j] == x;
        assert j >= run.count;
      }
    }
  }

  lemma FindsAgain(run: Run, cursor: nat)
    requires RunOutcome(run, cursor)
    ensures Elements(run.served[..run.count]) !! Above(run.ids, run.cursor) <==> NoneAhead(run.served, run.count)
  {
    ServedIsAbove(run, cursor);
    TakenOrLeft(run.served, run.count);
    var done, next := Elements(run.served[..run.count]), Above(run.ids, run.cursor);
    if done !! next {
      forall j | 0 <= j < run.count - 1 ensures run.served[j] < run.served[run.count - 1] {
        assert run.served[j] in done && run.served[j] !in next;
      }
    }
    if NoneAhead(run.served, run.count) {
      forall x | x in done ensures x !in next {
        var j :| 0 <= j < run.count && run.served[..run.count][j] == x;
      }
    }
  }

  /** A run stops in order wherever it may be stopped if and only if the server answers in increasing order. */
  lemma EveryStopInOrder(served: seq<nat>)
    ensures (forall k :: 0 <= k <= |served| ==> StopsInOrder(served, k)) <==> Increasing(served)
  {
    if forall k :: 0 <= k <= |served| ==> StopsInOrder(served, k) {
      forall i, j | 0 <= i < j < |served| ensures served[i] < served[j] {
        assert StopsInOrder(served, i + 1);
      }
    }
  }

  // ----- any number of runs -----

  function CursorAfter(start: nat, runs: seq<Run>): nat {
    if runs == [] then start else runs[|runs| - 1].cursor
  }

  /** The server keeps its ids and only receives larger ones. */
  ghost predicate OnlyNewer(before: set<nat>, after: set<nat>) {
    before <= after && forall x, y :: x in after && x !in before && y in before ==> x > y
  }

  /** The runs follow one another, each on any answer to its query and stopped anywhere. */
  ghost predicate History(start: nat, runs: seq<Run>) {
    runs != [] ==>
      var earlier, run := runs[..|runs| - 1], runs[|runs| - 1];
      && History(start, earlier)
      && (earlier != [] ==> OnlyNewer(earlier[|earlier| - 1].ids, run.ids))
      && RunOutcome(run, CursorAfter(start, earlier))
  }

  ghost function Committed(start: nat, runs: seq<Run>): seq<nat>
    requires History(start, runs)
  {
    if runs == [] then []
    else
      var earlier, run := runs[..|runs| - 1], runs[|runs| - 1];
      Committed(start, earlier) + run.served[..run.count]
  }

  /** What one more run means for the commits, by elements. */
  lemma OneMoreRun(start: nat, runs: seq<Run>)
    requires runs != [] && History(start, runs)
    ensures var earlier, run := runs[..|runs| - 1], runs[|runs| - 1];
      && History(start, earlier) && RunOutcome(run, CursorAfter(start, earlier))
      && (forall x :: x in Committed(start, runs) <==> x in Committed(start, earlier) || x in run.served[..run.count])
      && (forall x :: x in run.served[..run.count] ==> x in run.ids && x > CursorAfter(start, earlier))
  {
    var earlier, run := runs[..|runs| - 1], runs[|runs| - 1];
    ServedIsAbove(run, CursorAfter(start, earlier));
    assert forall x :: x in run.served[..run.count] ==> x in run.served;
  }

  /** Commits are ids of the server above the first cursor; the cursor never falls and is an id of the server. */
  lemma {:induction false} CommitsAndCursor(start: nat, runs: seq<Run>)
    requires runs != [] && History(start, runs)
    ensures var last := runs[|runs| - 1];
      && (forall x :: x in Committed(start, runs) ==> x in last.ids && x > start)
      && start <= last.cursor && (last.cursor == start || last.cursor in last.ids)
  {
    var earlier, run := runs[..|runs| - 1], runs[|runs| - 1];
    OneMoreRun(start, runs);
    ServedIsAbove(run, CursorAfter(start, earlier));
    if earlier != [] {
      CommitsAndCursor(start, earlier);
    }
  }

  /** Every commit happened once, and the next query finds exactly the ids that are not committed. */
  ghost predicate InStep(start: nat, runs: seq<Run>)
    requires History(start, runs)
  {
    runs != [] ==>
      var last := runs[|runs| - 1];
      && NoDuplicates(Committed(start, runs))
      && Above(last.ids, last.cursor) == Above(last.ids, start) - Elements(Committed(start, runs))
  }

  /** The same by elements: the commits are the ids up to the cursor. */
  lemma InStepMeans(start: nat, runs: seq<Run>)
    requires runs != [] && History(start, runs)
    ensures var last, done := runs[|runs| - 1], Committed(start, runs);
      InStep(start, runs)
      <==> NoDuplicates(done) && forall x :: x in last.ids && x > start ==> (x in done <==> x <= last.cursor)
  {
    CommitsAndCursor(start, runs);
    var last, done := runs[|runs| - 1], Committed(start, runs);
    var next, left := Above(last.ids, last.cursor), Above(last.ids, start) - Elements(done);
    assert forall x :: x in next <==> x in last.ids && x > last.cursor;
    assert forall x :: x in left <==> x in last.ids && x > start && x !in done;
    if forall x :: x in last.ids && x > start ==> (x in done <==> x <= last.cursor) {
      assert next == left;
    }
  }

  /** What is committed before a run in step, on the ids that the run finds on the server. */
  lemma BeforeTheRun(start: nat, runs: seq<Run>)
    requires runs != [] && History(start, runs) && InStep(start, runs[..|runs| - 1])
    ensures var earlier, run := runs[..|runs| - 1], runs[|runs| - 1];
      && NoDuplicates(Committed(start, earlier))
      && start <= CursorAfter(start, earlier)
      && (forall x :: x in run.ids && x > start ==> (x in Committed(start, earlier) <==> x <= CursorAfter(start, earlier)))
      && (forall x :: x in Committed(start, earlier) ==> x in run.ids && x > start)
  {
    var earlier, run := runs[..|runs| - 1], runs[|runs| - 1];
    if earlier != [] {
      InStepMeans(start, earlier);
      CommitsAndCursor(start, earlier);
    }
  }

  lemma JoinedOnce(before: seq<nat>, more: seq<nat>)
    ensures NoDuplicates(before + more) <==> NoDuplicates(before) && NoDuplicates(more) && forall x :: x in before ==> x !in more
  {
    var all := before + more;
    if NoDuplicates(all) {
      assert forall i :: 0 <= i < |before| ==> all[i] == before[i];
      forall i, j | 0 <= i < |before| && 0 <= j < |more| ensures before[i] != more[j] {
        assert all[i] != all[|before| + j];
      }
      forall i, j | 0 <= i < j < |more| ensures more[i] != more[j] {
        assert all[|before| + i] != all[|before| + j];
      }
    }
    if NoDuplicates(before) && NoDuplicates(more) && forall x :: x in before ==> x !in more {
      forall i, j | 0 <= i < j < |all| ensures all[i] != all[j] {
        if i < |before| <= j {
          assert all[i] in before && all[j] in more;
        }
      }
    }
  }

  /** An import in step stays in step through a run if and only if the run stops in order. */
  lemma StaysInStep(start: nat, runs: seq<Run>)
    requires runs != [] && History(start, runs) && InStep(start, runs[..|runs| - 1])
    ensures InStep(start, runs) <==> StopsInOrder(runs[|runs| - 1].served, runs[|runs| - 1].count)
  {
    var earlier, run := runs[..|runs| - 1], runs[|runs| - 1];
    var cursor, before, taken := CursorAfter(start, earlier), Committed(start, earlier), run.served[..run.count];
    BeforeTheRun(start, runs);
    OneMoreRun(start, runs);
    ServedIsAbove(run, cursor);
    JoinedOnce(before, taken);
    assert NoDuplicates(taken);
    InStepMeans(start, runs);
    TakenUpTo(run, cursor);
    hide History, Committed, InStep, StopsInOrder, RunOutcome, NoDuplicates;
    assert forall x :: x in before ==> x !in taken;
    assert InStep(start, runs)
      <==> forall x :: x in run.ids && x > start ==> (x in Committed(start, runs) <==> x <= run.cursor);
    forall x | x in run.ids && x > start && x <= cursor ensures x in Committed(start, runs) && x <= run.cursor {
      assert x in before;
    }
    if StopsInOrder(run.served, run.count) {
      forall x | x in run.ids && x > start ensures x in Committed(start, runs) <==> x <= run.cursor {
      }
    }
  }

  /** A run stops in order if and only if it has committed exactly the ids from its cursor up to the new one. */
  lemma TakenUpTo(run: Run, cursor: nat)
    requires RunOutcome(run, cursor)
    ensures StopsInOrder(run.served, run.count)
      <==> forall x :: x in run.ids && x > cursor ==> (x in run.served[..run.count] <==> x <= run.cursor)
  {
    NextQuery(run, cursor);
    ServedIsAbove(run, cursor);
    var done, next, all := Elements(run.served[..run.count]), Above(run.ids, run.cursor), Above(run.ids, cursor);
    assert forall x :: x in done <==> x in run.served[..run.count];
    assert forall x :: x in next <==> x in run.ids && x > run.cursor;
    assert forall x :: x in all <==> x in run.ids && x > cursor;
    if forall x :: x in run.ids && x > cursor ==> (x in run.served[..run.count] <==> x <= run.cursor) {
      assert next == all - done;
    }
  }

  ghost predicate AlwaysInStep(start: nat, runs: seq<Run>)
    requires History(start, runs)
  {
    runs != [] ==> AlwaysInStep(start, runs[..|runs| - 1]) && InStep(start, runs)
  }

  ghost predicate AllStopInOrder(runs: seq<Run>) {
    forall i :: 0 <= i < |runs| ==> runs[i].count <= |runs[i].served| && StopsInOrder(runs[i].served, runs[i].count)
  }

  /** Over any runs: the import is in step after every one of them if and only if each stops in order. */
  lemma {:induction false} InStepIffInOrder(start: nat, runs: seq<Run>)
    requires History(start, runs)
    ensures AlwaysInStep(start, runs) <==> AllStopInOrder(runs)
  {
    if runs != [] {
      var earlier, run := runs[..|runs| - 1], runs[|runs| - 1];
      InStepIffInOrder(start, earlier);
      assert AllStopInOrder(runs) <==> AllStopInOrder(earlier) && StopsInOrder(run.served, run.count) by {
        assert forall i :: 0 <= i < |earlier| ==> runs[i] == earlier[i];
        hide StopsInOrder;
      }
      if AlwaysInStep(start, earlier) {
        assert InStep(start, earlier);
        StaysInStep(start, runs);
      }
    }
  }

  /** Every id above the first cursor is committed, each once. */
  ghost predicate ExactlyOnce(start: nat, runs: seq<Run>)
    requires runs != [] && History(start, runs)
  {
    NoDuplicates(Committed(start, runs)) && Elements(Committed(start, runs)) == Above(runs[|runs| - 1].ids, start)
  }

  lemma ExactlyOnceMeans(start: nat, runs: seq<Run>)
    requires runs != [] && History(start, runs)
    ensures ExactlyOnce(start, runs)
      <==> NoDuplicates(Committed(start, runs))
           && forall x :: x in runs[|runs| - 1].ids && x > start ==> x in Committed(start, runs)
  {
    CommitsAndCursor(start, runs);
    var done, all := Elements(Committed(start, runs)), Above(runs[|runs| - 1].ids, start);
    assert forall x :: x in done <==> x in Committed(start, runs);
    assert forall x :: x in all <==> x in runs[|runs| - 1].ids && x > start;
    if forall x :: x in runs[|runs| - 1].ids && x > start ==> x in Committed(start, runs) {
      assert done == all;
    }
  }

  /**
   * Exactly once: when a run completes, whatever the runs before it, every id has been committed
   * once if and only if the import was in step when that run began.
   */
  lemma {:induction false} ExactlyOnceIffInStep(start: nat, runs: seq<Run>)
    requires runs != [] && History(start, runs) && runs[|runs| - 1].stop == OnaImport.Completed
    ensures ExactlyOnce(start, runs) <==> InStep(start, runs[..|runs| - 1])
  {
    var earlier, run := runs[..|runs| - 1], runs[|runs| - 1];
    var cursor, before := CursorAfter(start, earlier), Committed(start, earlier);
    OneMoreRun(start, runs);
    ServedIsAbove(run, cursor);
    assert run.served[..run.count] == run.served;
    JoinedOnce(before, run.served);
    ExactlyOnceMeans(start, runs);
    assert Committed(start, runs) == before + run.served;
    assert NoDuplicates(run.served);
    hide NoDuplicates, ExactlyOnce, Committed, RunOutcome, Above, Elements;
    if InStep(start, earlier) {
      BeforeTheRun(start, runs);
      assert forall x :: x in run.ids && x > start && x <= cursor ==> x in before;
    }
    if ExactlyOnce(start, runs) && earlier != [] {
      InStepMeans(start, earlier);
      assert forall x :: x in earlier[|earlier| - 1].ids ==> x in run.ids;
      forall x | x in earlier[|earlier| - 1].ids && x > start ensures x in before <==> x <= cursor {
        assert x in Committed(start, runs);
      }
    }
  }

  /** The first stop out of order costs an id, or commits one twice, in the next run that completes. */
  lemma {:induction false} FirstDisorderShows(start: nat, runs: seq<Run>)
    requires |runs| >= 2 && History(start, runs) && runs[|runs| - 1].stop == OnaImport.Completed
    requires AllStopInOrder(runs[..|runs| - 2])
    ensures runs[|runs| - 2].count <= |runs[|runs| - 2].served|
    ensures ExactlyOnce(start, runs) <==> StopsInOrder(runs[|runs| - 2].served, runs[|runs| - 2].count)
  {
    var earlier := runs[..|runs| - 1];
    assert earlier[..|earlier| - 1] == runs[..|runs| - 2];
    InStepIffInOrder(start, earlier[..|earlier| - 1]);
    StaysInStep(start, earlier);
    ExactlyOnceIffInStep(start, runs);
  }

  /** At most once: no id is committed twice if no run leaves a committed id above its cursor. */
  lemma {:induction false} AtMostOnce(start: nat, runs: seq<Run>)
    requires History(start, runs)
    requires forall i :: 0 <= i < |runs| ==> runs[i].count <= |runs[i].served| && NoneAhead(runs[i].served, runs[i].count)
    ensures NoDuplicates(Committed(start, runs))
    ensures forall x :: x in Committed(start, runs) ==> x <= CursorAfter(start, runs)
  {
    if runs != [] {
      var earlier, run := runs[..|runs| - 1], runs[|runs| - 1];
      assert forall i :: 0 <= i < |earlier| ==> runs[i] == earlier[i];
      AtMostOnce(start, earlier);
      OneMoreRun(start, runs);
      ServedIsAbove(run, CursorAfter(start, earlier));
      JoinedOnce(Committed(start, earlier), run.served[..run.count]);
    }
  }

  /** An id that a cursor has passed uncommitted is never committed, whatever runs follow. */
  lemma {:induction false} LostForever(start: nat, runs: seq<Run>, n: nat, x: nat)
    requires 0 < n <= |runs| && History(start, runs)
    requires x in runs[n - 1].ids && x <= runs[n - 1].cursor
    requires History(start, runs[..n]) && x !in Committed(start, runs[..n])
    ensures x !in Committed(start, runs) && x <= runs[|runs| - 1].cursor
  {
    if n == |runs| {
      assert runs[..n] == runs;
    } else {
      var earlier, run := runs[..|runs| - 1], runs[|runs| - 1];
      assert earlier[..n] == runs[..n];
      OneMoreRun(start, runs);
      ServedIsAbove(run, CursorAfter(start, earlier));
      hide RunOutcome, Committed;
      LostForever(start, earlier, n, x);
    }
  }

  /** At least once: a completed run leaves nothing out if no run has skipped an id. */
  lemma {:induction false} AtLeastOnce(start: nat, runs: seq<Run>)
    requires runs != [] && History(start, runs)
    requires forall i :: 0 <= i < |runs| ==> runs[i].count <= |runs[i].served| && NoneSkipped(runs[i].served, runs[i].count)
    ensures forall x :: x in runs[|runs| - 1].ids && start < x <= runs[|runs| - 1].cursor ==> x in Committed(start, runs)
    ensures runs[|runs| - 1].stop == OnaImport.Completed ==> Above(runs[|runs| - 1].ids, start) <= Elements(Committed(start, runs))
  {
    var earlier, run := runs[..|runs| - 1], runs[|runs| - 1];
    var cursor := CursorAfter(start, earlier);
    OneMoreRun(start, runs);
    ServedIsAbove(run, cursor);
    if earlier != [] {
      assert forall i :: 0 <= i < |earlier| ==> runs[i] == earlier[i];
      AtLeastOnce(start, earlier);
      CommitsAndCursor(start, earlier);
    }
    forall x | x in run.ids && start < x && (x <= run.cursor || run.stop == OnaImport.Completed)
      ensures x in Committed(start, runs)
    {
      if x > cursor {
        var j :| 0 <= j < |run.served| && run.served[j] == x;
        assert run.served[..run.count][j] == x;
      }
    }
  }

  lemma Continues(start: nat, runs: seq<Run>, run: Run)
    requires History(start, runs) && RunOutcome(run, CursorAfter(start, runs))
    requires runs != [] ==> runs[|runs| - 1].ids == run.ids
    ensures History(start, runs + [run])
    ensures Committed(start, runs + [run]) == Committed(start, runs) + run.served[..run.count]
  {
    assert (runs + [run])[..|runs|] == runs;
  }

  lemma FirstRun(start: nat, run: Run)
    requires RunOutcome(run, start)
    ensures History(start, [run]) && Committed(start, [run]) == run.served[..run.count]
  {
    Continues(start, [], run);
    assert [] + [run] == [run];
  }

  // ----- what an unordered answer does -----

  /** Ids 1 and 2, answered as 2, 1, and one submission imported before the time is up. */
  const STOPPED_EARLY := Run({1, 2}, [2, 1], 1, 2, OnaImport.TimeExhausted)

  const FINISHED_BACKWARDS := Run({1, 2}, [2, 1], 2, 1, OnaImport.Completed)

  lemma AnswerOfTwo()
    ensures Answers({1, 2}, 0, [2, 1])
  {
    assert Elements([2, 1]) == {1, 2} == Above({1, 2}, 0);
  }

  lemma AnswerOfOne()
    ensures Answers({1, 2}, 1, [2])
  {
    assert Elements([2]) == {2} == Above({1, 2}, 1);
  }

  /** Stopped after submission 2, the import never commits submission 1, whatever runs follow. */
  lemma LostSubmission(more: seq<Run>)
    ensures History(0, [STOPPED_EARLY])
    ensures History(0, [STOPPED_EARLY] + more) ==> 1 !in Committed(0, [STOPPED_EARLY] + more)
  {
    AnswerOfTwo();
    hide Answers;
    FirstRun(0, STOPPED_EARLY);
    hide History, Committed, RunOutcome;
    assert STOPPED_EARLY.served[..1] == [2];
    if History(0, [STOPPED_EARLY] + more) {
      assert ([STOPPED_EARLY] + more)[..1] == [STOPPED_EARLY];
      LostForever(0, [STOPPED_EARLY] + more, 1, 1);
    }
  }

  /** Completed on the answer 2, 1, the import leaves the cursor at 1 and commits submission 2 again. */
  lemma CommittedTwice()
    ensures var runs := [FINISHED_BACKWARDS, Run({1, 2}, [2], 1, 2, OnaImport.Completed)];
      History(0, runs) && Committed(0, runs) == [2, 1, 2]
  {
    AnswerOfTwo();
    AnswerOfOne();
    hide Answers;
    FirstRun(0, FINISHED_BACKWARDS);
    var again := Run({1, 2}, [2], 1, 2, OnaImport.Completed);
    assert RunOutcome(again, 1);
    hide History, Committed, RunOutcome;
    Continues(0, [FINISHED_BACKWARDS], again);
    assert [FINISHED_BACKWARDS] + [again] == [FINISHED_BACKWARDS, again];
    assert FINISHED_BACKWARDS.served[..2] == [2, 1] && again.served[..1] == [2];
  }

  /** Ids 1 to 4: the first run leaves the committed 3 above its cursor, the second skips just that one. */
  const AHEAD := Run({1, 2, 3, 4}, [3, 1, 2, 4], 2, 1, OnaImport.TimeExhausted)

  const SKIPS_IT := Run({1, 2, 3, 4}, [2, 4, 3], 2, 4, OnaImport.TimeExhausted)

  const NOTHING_LEFT := Run({1, 2, 3, 4}, [], 0, 4, OnaImport.Completed)

  lemma AnswersOfFour()
    ensures Answers({1, 2, 3, 4}, 0, [3, 1, 2, 4]) && Answers({1, 2, 3, 4}, 1, [2, 4, 3]) && Answers({1, 2, 3, 4}, 4, [])
  {
    assert Elements([3, 1, 2, 4]) == {1, 2, 3, 4} == Above({1, 2, 3, 4}, 0);
    assert Elements([2, 4, 3]) == {2, 3, 4} == Above({1, 2, 3, 4}, 1);
    assert Elements([]) == {} == Above({1, 2, 3, 4}, 4);
  }

  /**
   * Two stops out of order can make up for each other, so order at every stop is what each next
   * query needs, and more than a whole history needs.
   */
  lemma DisordersCanCancel()
    ensures var runs := [AHEAD, SKIPS_IT, NOTHING_LEFT];
      && History(0, runs) && Committed(0, runs) == [3, 1, 2, 4] && ExactlyOnce(0, runs)
      && !StopsInOrder(AHEAD.served, AHEAD.count) && !StopsInOrder(SKIPS_IT.served, SKIPS_IT.count)
  {
    AnswersOfFour();
    assert AHEAD.served[0] > AHEAD.served[1] && SKIPS_IT.served[2] < SKIPS_IT.served[1];
    assert RunOutcome(AHEAD, 0) && RunOutcome(SKIPS_IT, 1) && RunOutcome(NOTHING_LEFT, 4);
    assert NoDuplicates([3, 1, 2, 4]) && Elements([3, 1, 2, 4]) == Above({1, 2, 3, 4}, 0);
    hide Answers, RunOutcome, StopsInOrder, NoDuplicates, Elements, Above;
    FirstRun(0, AHEAD);
    hide History, Committed;
    Continues(0, [AHEAD], SKIPS_IT);
    assert [AHEAD] + [SKIPS_IT] == [AHEAD, SKIPS_IT];
    Continues(0, [AHEAD, SKIPS_IT], NOTHING_LEFT);
    assert [AHEAD, SKIPS_IT] + [NOTHING_LEFT] == [AHEAD, SKIPS_IT, NOTHING_LEFT];
    assert AHEAD.served[..2] == [3, 1] && SKIPS_IT.served[..2] == [2, 4] && NOTHING_LEFT.served[..0] == [];
  }

  // ----- the import of one batch -----

  datatype Household = Household(submission: nat, id: nat)

  /** `get_id_generator`: a closure over `last_id`. */
  class IdGenerator {
    var lastId: nat

    constructor (start: nat)
      ensures lastId == start
    {
      lastId := start;
    }

    method Next() returns (id: nat)
      modifies this
      ensures lastId == old(lastId) + 1 && id == lastId
    {
      lastId := lastId + 1;
      return lastId;
    }
  }

  ghost predicate NumberedFromOne(households: seq<Household>) {
    forall i :: 0 <= i < |households| ==> households[i].id == i + 1
  }

  function Submissions(households: seq<Household>): seq<nat> {
    seq(|households|, i requires 0 <= i < |households| => households[i].submission)
  }

  class Import {
    var households: seq<Household>
    var cursor: nat

    /** The loop of `import_asset`; a fault may strike after the household id was drawn. */
    method ImportLoop(served: seq<nat>, outcomes: seq<OnaImport.Outcome>, ids: IdGenerator) returns (lastSuccessful: nat, stop: OnaImport.Stop)
      requires ids.lastId == |households| && NumberedFromOne(households)
      modifies `households, ids
      ensures old(households) <= households && NumberedFromOne(households)
      ensures var k := |households| - |old(households)|;
        && k <= |served|
        && Submissions(households) == Submissions(old(households)) + served[..k]
        && lastSuccessful == (if k == 0 then cursor else served[k - 1])
        && (stop == OnaImport.TimeExhausted ==> k > 0)
        && (stop == OnaImport.Completed ==> k == |served|)
      ensures OnaImport.StopsAt(outcomes, |households| - |old(households)|, stop)
      ensures stop == OnaImport.Failed ==> OnaImport.OutcomeAt(outcomes, |households| - |old(households)|).Fault?
      ensures (forall i :: 0 <= i < |outcomes| ==> outcomes[i].Imported?) ==> stop in {OnaImport.Completed, OnaImport.TimeExhausted}
    {
      lastSuccessful := cursor;
      for i := 0 to |served|
        invariant |households| == |old(households)| + i && old(households) <= households
        invariant ids.lastId == |households| && NumberedFromOne(households)
        invariant forall j :: 0 <= j < i ==> households[|old(households)| + j].submission == served[j]
        invariant lastSuccessful == if i == 0 then cursor else served[i - 1]
        invariant OnaImport.InTime(outcomes, i)
      {
        var outcome := OnaImport.OutcomeAt(outcomes, i);
        if outcome.CancelRequested? {
          return lastSuccessful, OnaImport.Cancelled;
        }
        var id := ids.Next();
        if outcome.Fault? {
          return lastSuccessful, OnaImport.Failed;
        }
        households := households + [Household(served[i], id)];
        lastSuccessful := served[i];
        if outcome.timeUp {
          return lastSuccessful, OnaImport.TimeExhausted;
        }
      }
      return lastSuccessful, OnaImport.Completed;
    }

    /**
     * `import_data` and `import_asset` up to the cursor write, on any answer to the query over
     * `ids`: wherever the run stops, it is a run in the sense above and the batch's household
     * ids stay 1..n.
     */
    method ImportAsset(ghost ids: set<nat>, served: seq<nat>, outcomes: seq<OnaImport.Outcome>) returns (stop: OnaImport.Stop)
      requires NumberedFromOne(households) && Answers(ids, cursor, served)
      modifies this
      ensures old(households) <= households && NumberedFromOne(households)
      ensures var k := |households| - |old(households)|;
        && RunOutcome(Run(ids, served, k, cursor, stop), old(cursor))
        && Submissions(households) == Submissions(old(households)) + served[..k]
      ensures OnaImport.StopsAt(outcomes, |households| - |old(households)|, stop)
      ensures stop == OnaImport.Failed ==> OnaImport.OutcomeAt(outcomes, |households| - |old(households)|).Fault?
      ensures (forall i :: 0 <= i < |outcomes| ==> outcomes[i].Imported?) ==> stop in {OnaImport.Completed, OnaImport.TimeExhausted}
    {
      var generator := new IdGenerator(|households|);
      var lastSuccessful;
      ghost var before := households;
      lastSuccessful, stop := ImportLoop(served, outcomes, generator);
      ghost var k := |households| - |before|;
      ServedIsAbove(Run(ids, served, k, lastSuccessful, stop), cursor);
      if lastSuccessful > cursor {
        cursor := lastSuccessful;
      }
    }

    /** One job of the chain, whose time is up after `box` more submissions than one. */
    method ImportNext(ghost ids: set<nat>, answer: nat -> seq<nat>, box: nat, ghost start: nat, ghost before: seq<Household>, ghost runs: seq<Run>)
      returns (stop: OnaImport.Stop, ghost run: Run)
      requires NumberedFromOne(households) && Answers(ids, cursor, answer(cursor)) && Reached(ids, start, before, runs)
      modifies this
      ensures NumberedFromOne(households) && Reached(ids, start, before, runs + [run])
      ensures RunOutcome(run, old(cursor)) && run.stop == stop && run.served == answer(old(cursor))
      ensures stop in {OnaImport.Completed, OnaImport.TimeExhausted}
      ensures |Above(ids, cursor)| <= |Above(ids, old(cursor))|
      ensures stop == OnaImport.TimeExhausted ==> |Above(ids, cursor)| < |Above(ids, old(cursor))|
    {
      var served := answer(cursor);
      hide NoDuplicates, Above, Elements, NumberedFromOne, Answers;
      stop := ImportAsset(ids, served, seq(box + 1, i => OnaImport.Imported(i == box)));
      run := Run(ids, served, |households| - |old(households)|, cursor, stop);
      Shrinks(run, old(cursor));
      Continues(start, runs, run);
    }

    /**
     * The chain of continuation jobs over a server that receives nothing new and answers the
     * query above c with `answer(c)`: it ends, with the commits of a history, and commits every
     * id exactly once if the answers are in order.
     */
    method ImportAll(ghost ids: set<nat>, answer: nat -> seq<nat>, boxes: seq<nat>) returns (ghost runs: seq<Run>)
      requires NumberedFromOne(households) && forall c :: Answers(ids, c, answer(c))
      modifies this
      ensures runs != [] && History(old(cursor), runs) && runs[|runs| - 1].stop == OnaImport.Completed
      ensures cursor == CursorAfter(old(cursor), runs) && NumberedFromOne(households)
      ensures Submissions(households) == Submissions(old(households)) + Committed(old(cursor), runs)
      ensures |runs| <= |Above(ids, old(cursor))| + 1 && runs[|runs| - 1].ids == ids
      ensures (forall c :: Increasing(answer(c))) ==> ExactlyOnce(old(cursor), runs)
    {
      runs := [];
      var stop := OnaImport.TimeExhausted;
      var box := 0;
      hide NoDuplicates, Above, Elements, NumberedFromOne, ExactlyOnce, StopsInOrder, Increasing, Answers, RunOutcome, History, Committed, AllStopInOrder;
      StartOfChain(cursor, households);
      while stop == OnaImport.TimeExhausted
        invariant NumberedFromOne(households) && Reached(ids, old(cursor), old(households), runs)
        invariant runs != [] ==> runs[|runs| - 1].stop == stop
        invariant stop in {OnaImport.Completed, OnaImport.TimeExhausted} && (stop == OnaImport.Completed ==> runs != [])
        invariant |runs| + |Above(ids, cursor)| <= |Above(ids, old(cursor))| + if stop == OnaImport.Completed then 1 else 0
        invariant (forall c :: Increasing(answer(c))) ==> AllStopInOrder(runs)
        decreases |Above(ids, cursor)|, stop == OnaImport.TimeExhausted
      {
        ghost var run;
        stop, run := ImportNext(ids, answer, if box < |boxes| then boxes[box] else 0, old(cursor), old(households), runs);
        OneMoreInOrder(runs, run, CursorAfter(old(cursor), runs));
        runs := runs + [run];
        box := box + 1;
      }
      if forall c :: Increasing(answer(c)) {
        InOrderIsExact(old(cursor), runs);
      }
    }

    /** Where a chain of runs has brought the batch. */
    ghost predicate Reached(ids: set<nat>, start: nat, before: seq<Household>, runs: seq<Run>)
      reads this
    {
      && History(start, runs) && cursor == CursorAfter(start, runs)
      && Submissions(households) == Submissions(before) + Committed(start, runs)
      && (runs != [] ==> runs[|runs| - 1].ids == ids)
    }
  }

  lemma StartOfChain(start: nat, households: seq<Household>)
    ensures History(start, []) && Submissions(households) == Submissions(households) + Committed(start, [])
    ensures AllStopInOrder([])
  {
  }

  lemma OneMoreInOrder(runs: seq<Run>, run: Run, cursor: nat)
    requires RunOutcome(run, cursor)
    ensures AllStopInOrder(runs) && Increasing(run.served) ==> AllStopInOrder(runs + [run])
  {
    EveryStopInOrder(run.served);
  }

  /** Completed runs that all stop in order commit every id exactly once. */
  lemma InOrderIsExact(start: nat, runs: seq<Run>)
    requires runs != [] && History(start, runs) && runs[|runs| - 1].stop == OnaImport.Completed && AllStopInOrder(runs)
    ensures ExactlyOnce(start, runs)
  {
    InStepIffInOrder(start, runs);
    assert AlwaysInStep(start, runs[..|runs| - 1]);
    ExactlyOnceIffInStep(start, runs);
  }

  lemma Shrinks(run: Run, cursor: nat)
    requires RunOutcome(run, cursor)
    ensures |Above(run.ids, run.cursor)| <= |Above(run.ids, cursor)|
    ensures run.stop == OnaImport.TimeExhausted ==> |Above(run.ids, run.cursor)| < |Above(run.ids, cursor)|
  {
    ServedIsAbove(run, cursor);
    var next, all := Above(run.ids, run.cursor), Above(run.ids, cursor);
    assert next <= all && all == next + (all - next);
    if run.stop == OnaImport.TimeExhausted {
      assert run.served[run.count - 1] in run.served;
      assert run.cursor in all - next;
    }
  }
}
