/**
 * Resumable import of ONA submissions: one commit per submission, a cursor written on every way
 * out of the loop, and a continuation job when the time box is used up.
 */
module OnaImport {
  import opened Common

  /** What happens to one submission: it is committed, or the loop is left before that. */
  datatype Outcome = Imported(timeUp: bool) | CancelRequested | Fault

  datatype Stop = Completed | TimeExhausted | Cancelled | Failed

  function OutcomeAt(outcomes: seq<Outcome>, i: nat): Outcome {
    if i < |outcomes| then outcomes[i] else Imported(false)
  }

  /** The first k submissions were imported within the time. */
  ghost predicate InTime(outcomes: seq<Outcome>, k: nat) {
    forall i :: 0 <= i < k ==> OutcomeAt(outcomes, i) == Imported(false)
  }

  /**
   * Where the outcomes make a run stop: all k submissions were imported, the time was up after the
   * last of them or not at all, and a cancellation was requested before the next one.
   */
  ghost predicate StopsAt(outcomes: seq<Outcome>, k: nat, stop: Stop) {
    && (forall i :: 0 <= i < k ==> OutcomeAt(outcomes, i).Imported? && (OutcomeAt(outcomes, i).timeUp ==> i == k - 1))
    && (stop == TimeExhausted <==> k > 0 && OutcomeAt(outcomes, k - 1) == Imported(true))
    && (stop == Cancelled ==> OutcomeAt(outcomes, k).CancelRequested?)
  }

  function Newer(stream: seq<nat>, last: Option<nat>): seq<nat> {
    if stream == [] then []
    else if last.Some? && stream[0] <= last.value then Newer(stream[1..], last)
    else [stream[0]] + Newer(stream[1..], last)
  }

  /** The submissions on the server in id order, and how many of them each request finds. */
  datatype Server = Server(stream: seq<nat>, visible: seq<nat>, faulty: set<nat>) {
    ghost predicate Valid() {
      && Increasing(stream)
      && (forall k :: 0 <= k < |visible| ==> visible[k] <= |stream|)
      && (forall j, k :: 0 <= j < k < |visible| ==> visible[j] <= visible[k])
    }

    function Seen(request: nat): nat {
      if request < |visible| then visible[request] else |stream|
    }

    /** `get_submissions_page`: sorted by id, only ids above `last`. */
    function Page(request: nat, start: nat, limit: nat, last: Option<nat>): seq<nat>
      requires Valid()
    {
      var found := Newer(stream[..Seen(request)], last);
      if start >= |found| then []
      else if start + limit < |found| then found[start..start + limit] else found[start..]
    }
  }

  // ----- the query -----

  lemma {:induction false} NewerConcat(a: seq<nat>, b: seq<nat>, last: Option<nat>)
    ensures Newer(a + b, last) == Newer(a, last) + Newer(b, last)
  {
    if a == [] {
      assert a + b == b;
    } else {
      assert (a + b)[1..] == a[1..] + b;
      NewerConcat(a[1..], b, last);
    }
  }

  lemma NewerPrefix(stream: seq<nat>, m: nat, n: nat, last: Option<nat>)
    requires m <= n <= |stream|
    ensures Newer(stream[..m], last) <= Newer(stream[..n], last) <= Newer(stream, last)
  {
    assert stream[..n] == stream[..m] + stream[m..n];
    NewerConcat(stream[..m], stream[m..n], last);
    assert stream == stream[..n] + stream[n..];
    NewerConcat(stream[..n], stream[n..], last);
  }

  /** On the sorted stream the query drops a prefix. */
  lemma {:induction false} NewerIsSuffix(stream: seq<nat>, last: Option<nat>) returns (p: nat)
    requires Increasing(stream)
    ensures p <= |stream| && Newer(stream, last) == stream[p..]
    ensures forall i :: 0 <= i < p ==> last.Some? && stream[i] <= last.value
    ensures forall i :: p <= i < |stream| && last.Some? ==> stream[i] > last.value
  {
    if stream == [] {
      p := 0;
    } else if last.Some? && stream[0] <= last.value {
      var q := NewerIsSuffix(stream[1..], last);
      p := q + 1;
      assert forall i :: 1 <= i < |stream| ==> stream[i] == stream[1..][i - 1];
    } else {
      p := 0;
      AllNewer(stream, last);
    }
  }

  lemma {:induction false} AllNewer(stream: seq<nat>, last: Option<nat>)
    requires forall i :: 0 <= i < |stream| && last.Some? ==> stream[i] > last.value
    ensures Newer(stream, last) == stream
  {
    if stream != [] {
      AllNewer(stream[1..], last);
    }
  }

  lemma NewerIsAbove(stream: seq<nat>, last: Option<nat>)
    requires Increasing(stream)
    ensures Increasing(Newer(stream, last))
    ensures forall i :: 0 <= i < |Newer(stream, last)| && last.Some? ==> Newer(stream, last)[i] > last.value
  {
    var p := NewerIsSuffix(stream, last);
  }

  lemma {:induction false} NewerThanElement(stream: seq<nat>, k: nat)
    requires Increasing(stream) && k < |stream|
    ensures Newer(stream, Some(stream[k])) == stream[k + 1..]
  {
    if k == 0 {
      AllNewer(stream[1..], Some(stream[0]));
    } else {
      NewerThanElement(stream[1..], k - 1);
    }
  }

  /** Asking again above an id that was delivered finds exactly what follows it. */
  lemma {:induction false} NewerResumes(stream: seq<nat>, last: Option<nat>, k: nat)
    requires Increasing(stream) && k < |Newer(stream, last)|
    ensures Newer(stream, Some(Newer(stream, last)[k])) == Newer(stream, last)[k + 1..]
  {
    if last.Some? && stream[0] <= last.value {
      NewerIsAbove(stream[1..], last);
      NewerResumes(stream[1..], last, k);
    } else {
      AllNewer(stream, last);
      NewerThanElement(stream, k);
    }
  }

  /** A page continues where the last one ended; an empty page means that nothing visible is left. */
  lemma PageOfNews(server: Server, request: nat, start: nat, limit: nat, last: Option<nat>)
    requires server.Valid() && limit > 0 && start <= |Newer(server.stream, last)|
    ensures var page, news := server.Page(request, start, limit, last), Newer(server.stream, last);
      && start + |page| <= |news| && page == news[start..start + |page|]
      && (page == [] ==> start >= |Newer(server.stream[..server.Seen(0)], last)|)
  {
    NewerPrefix(server.stream, server.Seen(request), |server.stream|, last);
    assert server.Seen(0) <= server.Seen(request);
    NewerPrefix(server.stream, server.Seen(0), server.Seen(request), last);
  }

  // ----- one run -----

  /** What a run that began at `cursor` may have done: committed the next k submissions. */
  ghost predicate RunOutcome(server: Server, cursor: Option<nat>, k: nat, after: Option<nat>, stop: Stop)
    requires server.Valid()
  {
    var news := Newer(server.stream, cursor);
    && k <= |news|
    && after == (if k == 0 then cursor else Some(news[k - 1]))
    && (stop == TimeExhausted ==> k > 0)
    && (stop == Completed ==> k >= |Newer(server.stream[..server.Seen(0)], cursor)|)
  }

  // ----- any number of runs -----

  /** A run as its server, its commits, the cursor it leaves and how it stopped. */
  datatype Run = Run(server: Server, count: nat, cursor: Option<nat>, stop: Stop)

  function CursorAfter(start: Option<nat>, runs: seq<Run>): Option<nat> {
    if runs == [] then start else runs[|runs| - 1].cursor
  }

  /** The runs follow one another, each as RunOutcome allows, on a server that only receives newer submissions. */
  ghost predicate History(start: Option<nat>, runs: seq<Run>) {
    runs != [] ==>
      var earlier, run := runs[..|runs| - 1], runs[|runs| - 1];
      && History(start, earlier)
      && run.server.Valid()
      && (earlier != [] ==> earlier[|earlier| - 1].server.stream <= run.server.stream)
      && RunOutcome(run.server, CursorAfter(start, earlier), run.count, run.cursor, run.stop)
  }

  ghost function CommittedBy(start: Option<nat>, runs: seq<Run>): seq<nat>
    requires History(start, runs)
  {
    if runs == [] then []
    else
      var earlier, run := runs[..|runs| - 1], runs[|runs| - 1];
      CommittedBy(start, earlier) + Newer(run.server.stream, CursorAfter(start, earlier))[..run.count]
  }

  /** `done` is what comes first after `start`, and the cursor is its last id. */
  ghost predicate Progress(stream: seq<nat>, start: Option<nat>, cursor: Option<nat>, done: seq<nat>) {
    && done <= Newer(stream, start)
    && cursor == if done == [] then start else Some(done[|done| - 1])
  }

  lemma ProgressResumes(stream: seq<nat>, start: Option<nat>, cursor: Option<nat>, done: seq<nat>)
    requires Increasing(stream) && Progress(stream, start, cursor, done)
    ensures Newer(stream, start) == done + Newer(stream, cursor)
  {
    if done != [] {
      NewerResumes(stream, start, |done| - 1);
    }
  }

  /**
   * Exactly once: after any runs, stopped by exceptions, cancellations or time boxes wherever
   * it may be, the committed submissions are a duplicate-free prefix of the stream that follows
   * the first cursor, the cursor is the last of them, and a run that completed has left out
   * nothing that was on the server when it began.
   */
  lemma {:induction false} ExactlyOnce(start: Option<nat>, runs: seq<Run>)
    requires History(start, runs) && runs != []
    ensures var stream, done := runs[|runs| - 1].server.stream, CommittedBy(start, runs);
      && Progress(stream, start, CursorAfter(start, runs), done)
      && Increasing(done) && NoDuplicates(done)
      && (runs[|runs| - 1].stop == Completed ==>
            Newer(stream[..runs[|runs| - 1].server.Seen(0)], start) <= done)
  {
    var earlier, run := runs[..|runs| - 1], runs[|runs| - 1];
    var before, cursor := CommittedBy(start, earlier), CursorAfter(start, earlier);
    if earlier != [] {
      ExactlyOnce(start, earlier);
      ProgressOnLongerStream(earlier[|earlier| - 1].server.stream, run.server.stream, start, cursor, before);
    }
    hide Newer, Increasing;
    RunKeepsProgress(run, start, cursor, before);
    ProgressIncreases(run.server.stream, start, run.cursor, CommittedBy(start, runs));
    if run.stop == Completed {
      CompletedLeavesNothing(run, start, cursor, before);
    }
  }

  lemma ProgressOnLongerStream(stream: seq<nat>, longer: seq<nat>, start: Option<nat>, cursor: Option<nat>, done: seq<nat>)
    requires stream <= longer && Progress(stream, start, cursor, done)
    ensures Progress(longer, start, cursor, done)
  {
    assert longer == stream + longer[|stream|..];
    NewerConcat(stream, longer[|stream|..], start);
  }

  lemma RunKeepsProgress(run: Run, start: Option<nat>, cursor: Option<nat>, before: seq<nat>)
    requires run.server.Valid() && Progress(run.server.stream, start, cursor, before)
    requires RunOutcome(run.server, cursor, run.count, run.cursor, run.stop)
    ensures Progress(run.server.stream, start, run.cursor, before + Newer(run.server.stream, cursor)[..run.count])
  {
    ProgressResumes(run.server.stream, start, cursor, before);
    hide Newer, Increasing;
    TakeMore(before, Newer(run.server.stream, cursor), run.count);
  }

  lemma ProgressIncreases(stream: seq<nat>, start: Option<nat>, cursor: Option<nat>, done: seq<nat>)
    requires Increasing(stream) && Progress(stream, start, cursor, done)
    ensures Increasing(done) && NoDuplicates(done)
  {
    NewerIsAbove(stream, start);
    hide Newer;
    PrefixIncreases(done, Newer(stream, start));
  }

  lemma TakeMore(before: seq<nat>, rest: seq<nat>, count: nat)
    requires count <= |rest|
    ensures var done := before + rest[..count];
      && |done| == |before| + count && done <= before + rest
      && (count == 0 ==> done == before)
      && (count > 0 ==> done[|done| - 1] == rest[count - 1])
  {
  }

  lemma PrefixIncreases(done: seq<nat>, news: seq<nat>)
    requires done <= news && Increasing(news)
    ensures Increasing(done) && NoDuplicates(done)
  {
    assert Increasing(done);
  }

  lemma CompletedLeavesNothing(run: Run, start: Option<nat>, cursor: Option<nat>, before: seq<nat>)
    requires run.server.Valid() && Progress(run.server.stream, start, cursor, before)
    requires RunOutcome(run.server, cursor, run.count, run.cursor, run.stop) && run.stop == Completed
    ensures Newer(run.server.stream[..run.server.Seen(0)], start)
      <= before + Newer(run.server.stream, cursor)[..run.count]
  {
    var stream, n := run.server.stream, run.server.Seen(0);
    ProgressResumes(stream, start, cursor, before);
    NewerPrefix(stream, n, |stream|, start);
    NewerPrefix(stream, n, |stream|, cursor);
    VisibleSplits(stream, n, start, cursor, before);
  }

  /** The visible part of the stream after `start` is no longer than what is done and what is visible after the cursor. */
  lemma VisibleSplits(stream: seq<nat>, n: nat, start: Option<nat>, cursor: Option<nat>, before: seq<nat>)
    requires Increasing(stream) && n <= |stream| && Progress(stream, start, cursor, before)
    ensures |Newer(stream[..n], start)| <= |before| + |Newer(stream[..n], cursor)|
  {
    ProgressResumes(stream, start, cursor, before);
    VisiblePart(stream, n, start);
    VisiblePart(stream, n, cursor);
  }

  lemma {:induction false} VisiblePart(stream: seq<nat>, n: nat, last: Option<nat>)
    requires Increasing(stream) && n <= |stream|
    ensures var all := |Newer(stream, last)|;
      |Newer(stream[..n], last)| == if n + all >= |stream| then n + all - |stream| else 0
  {
    if stream == [] {
    } else if last.Some? && stream[0] <= last.value {
      if n > 0 {
        VisiblePart(stream[1..], n - 1, last);
        assert stream[..n][1..] == stream[1..][..n - 1];
      } else {
        NewerIsShorter(stream, last);
      }
    } else {
      AllNewer(stream, last);
      AllNewer(stream[..n], last);
    }
  }

  lemma NewerIsShorter(stream: seq<nat>, last: Option<nat>)
    ensures |Newer(stream, last)| <= |stream|
  {
  }

  class Database {
    var committed: seq<nat>
    var cursor: Option<nat>

    /** What the run has done once `count` of the news it will find are committed. */
    ghost predicate Reached(before: seq<nat>, news: seq<nat>, count: nat, lastSuccessful: Option<nat>)
      reads this
    {
      && count <= |news| && committed == before + news[..count]
      && lastSuccessful == if count == 0 then cursor else Some(news[count - 1])
    }

    /** The submissions of one page, which are the news from `first` on. */
    method ImportPage(page: seq<nat>, first: nat, outcomes: seq<Outcome>, last: Option<nat>, ghost before: seq<nat>, ghost news: seq<nat>)
      returns (lastSuccessful: Option<nat>, stop: Option<Stop>, ghost count: nat)
      requires first + |page| <= |news| && page == news[first..first + |page|]
      requires forall i :: 0 <= i < |page| && cursor.Some? ==> page[i] > cursor.value
      requires Reached(before, news, first, last) && InTime(outcomes, first)
      modifies `committed
      ensures first <= count <= first + |page| && Reached(before, news, count, lastSuccessful)
      ensures stop.None? ==> count == first + |page|
      ensures stop == Some(TimeExhausted) ==> count > 0
      ensures stop != Some(Completed)
      ensures if stop.None? then InTime(outcomes, count) else StopsAt(outcomes, count, stop.value)
      ensures stop == Some(Failed) ==> OutcomeAt(outcomes, count).Fault?
      ensures (forall i :: 0 <= i < |outcomes| ==> outcomes[i].Imported?) ==> stop.None? || stop == Some(TimeExhausted)
    {
      lastSuccessful := last;
      for i := 0 to |page|
        invariant Reached(before, news, first + i, lastSuccessful) && InTime(outcomes, first + i)
      {
        var outcome := OutcomeAt(outcomes, first + i);
        if outcome.CancelRequested? {
          return lastSuccessful, Some(Cancelled), first + i;
        }
        if cursor.Some? && page[i] <= cursor.value {
          continue;
        }
        if outcome.Fault? {
          return lastSuccessful, Some(Failed), first + i;
        }
        committed := committed + [page[i]];
        lastSuccessful := Some(page[i]);
        if outcome.timeUp {
          return lastSuccessful, Some(TimeExhausted), first + i + 1;
        }
      }
      return lastSuccessful, None, first + |page|;
    }

    method GetPage(server: Server, request: nat, start: nat, limit: nat, last: Option<nat>) returns (page: seq<nat>)
      requires server.Valid() && limit > 0 && start <= |Newer(server.stream, last)|
      ensures var news := Newer(server.stream, last); start + |page| <= |news| && page == news[start..start + |page|]
      ensures page == [] ==> start >= |Newer(server.stream[..server.Seen(0)], last)|
    {
      PageOfNews(server, request, start, limit, last);
      page := server.Page(request, start, limit, last);
    }

    /** The loop of `import_submissions` over the pages of `iter_submissions`, without its `finally`. */
    method ImportLoop(server: Server, limit: nat, outcomes: seq<Outcome>) returns (lastSuccessful: Option<nat>, stop: Stop)
      requires server.Valid() && limit > 0
      modifies `committed
      ensures old(committed) <= committed
      ensures var k := |committed| - |old(committed)|;
        && RunOutcome(server, cursor, k, lastSuccessful, stop)
        && committed == old(committed) + Newer(server.stream, cursor)[..k]
      ensures StopsAt(outcomes, |committed| - |old(committed)|, stop)
      ensures stop == Failed ==> server.faulty != {} || OutcomeAt(outcomes, |committed| - |old(committed)|).Fault?
      ensures server.faulty == {} && (forall i :: 0 <= i < |outcomes| ==> outcomes[i].Imported?)
        ==> stop in {Completed, TimeExhausted}
    {
      ghost var before, news := committed, Newer(server.stream, cursor);
      hide Newer;
      lastSuccessful := cursor;
      var start, request := 0, 0;
      NewerIsAbove(server.stream, cursor);
      while true
        invariant Reached(before, news, start, lastSuccessful) && InTime(outcomes, start)
        decreases |news| - start
      {
        if request in server.faulty {
          return lastSuccessful, Failed;
        }
        var page := GetPage(server, request, start, limit, cursor);
        if page == [] {
          return lastSuccessful, Completed;
        }
        var left;
        ghost var count;
        lastSuccessful, left, count := ImportPage(page, start, outcomes, lastSuccessful, before, news);
        if left.Some? {
          return lastSuccessful, left.value;
        }
        start := start + |page|;
        request := request + 1;
      }
    }

    /** `import_submissions`: the cursor is written however the loop was left, if it moved. */
    method ImportSubmissions(server: Server, limit: nat, outcomes: seq<Outcome>) returns (stop: Stop)
      requires server.Valid() && limit > 0
      modifies this
      ensures old(committed) <= committed
      ensures var k := |committed| - |old(committed)|;
        && RunOutcome(server, old(cursor), k, cursor, stop)
        && committed == old(committed) + Newer(server.stream, old(cursor))[..k]
      ensures StopsAt(outcomes, |committed| - |old(committed)|, stop)
      ensures stop == Failed ==> server.faulty != {} || OutcomeAt(outcomes, |committed| - |old(committed)|).Fault?
      ensures server.faulty == {} && (forall i :: 0 <= i < |outcomes| ==> outcomes[i].Imported?)
        ==> stop in {Completed, TimeExhausted}
    {
      var lastSuccessful;
      lastSuccessful, stop := ImportLoop(server, limit, outcomes);
      if lastSuccessful.Some? && lastSuccessful != cursor {
        cursor := lastSuccessful;
      }
    }

    /**
     * The chain of continuation jobs on a server that receives nothing new. `boxes` decides
     * how many submissions each run commits before its time is up.
     */
    method ImportAll(stream: seq<nat>, limit: nat, boxes: seq<nat>) returns (runs: nat)
      requires Increasing(stream) && limit > 0
      modifies this
      ensures committed == old(committed) + Newer(stream, old(cursor))
      ensures cursor == if Newer(stream, old(cursor)) == [] then old(cursor)
                        else Some(Newer(stream, old(cursor))[|Newer(stream, old(cursor))| - 1])
      ensures runs <= |Newer(stream, old(cursor))| + 1
    {
      hide StopsAt, InTime;
      ghost var news := Newer(stream, cursor);
      ghost var done := 0;
      var server := Server(stream, [], {});
      runs := 0;
      var stop := TimeExhausted;
      while stop == TimeExhausted
        invariant done <= |news| && (stop == TimeExhausted || (stop == Completed && done == |news|))
        invariant runs <= if stop == TimeExhausted then done else done + 1
        invariant committed == old(committed) + news[..done]
        invariant cursor == if done == 0 then old(cursor) else Some(news[done - 1])
        decreases |news| - done, stop == TimeExhausted
      {
        var box := if runs < |boxes| then boxes[runs] else 0;
        if done > 0 {
          NewerResumes(stream, old(cursor), done - 1);
        }
        assert Newer(stream, cursor) == news[done..];
        ghost var before := committed;
        stop := ImportSubmissions(server, limit, seq(box + 1, i => Imported(i == box)));
        assert stream[..|stream|] == stream;
        ghost var k := |committed| - |before|;
        assert news[..done] + news[done..][..k] == news[..done + k];
        done := done + k;
        runs := runs + 1;
      }
    }
  }
}
