/**
 * Chunked deletion of import batches (tasks.py): foreign keys cascade, and shared external
 * collectors are first moved to a batch that still refers to them.
 */
module BatchCleanup {
  import opened Common

  /**
   * The text of a collector reference. `int()` reads more texts than `str.isdigit()` accepts
   * (IntLike: a sign, blanks, underscores); a negative number is no primary key, hence OtherText.
   */
  datatype Ref = NoRef | Digits(n: nat) | IntLike(n: nat) | OtherText

  datatype Household = Household(batch: nat, primary: Ref, alternate: Ref, data: string)

  datatype Individual = Individual(batch: nat, household: Option<nat>, data: string)

  datatype Rdp = Rdp(unfinished: bool, households: set<nat>, individuals: set<nat>)

  /** `batches` maps each batch to its programme. */
  datatype Db = Db(
    batches: map<nat, nat>, households: map<nat, Household>, individuals: map<nat, Individual>, rdps: map<nat, Rdp>)

  function IntOf(ref: Ref): Option<nat> {
    match ref
    case Digits(n) => Some(n)
    case IntLike(n) => Some(n)
    case _ => None
  }

  /** A collector is read by `int()`, the push query takes digits only. */
  lemma ReadByInt(n: nat)
    ensures IntOf(Digits(n)) == IntOf(IntLike(n)) == Some(n) && IntOf(NoRef) == IntOf(OtherText) == None
  {
  }

  predicate Refers(h: Household, x: nat) {
    IntOf(h.primary) == Some(x) || IntOf(h.alternate) == Some(x)
  }

  /** Foreign keys point to rows. */
  ghost predicate Valid(db: Db) {
    && (forall h :: h in db.households ==> db.households[h].batch in db.batches)
    && (forall x :: x in db.individuals ==>
          && db.individuals[x].batch in db.batches
          && (db.individuals[x].household.Some? ==> db.individuals[x].household.value in db.households))
  }

  // ----- what a cleanup is meant to leave -----

  /** A household of the programme, outside the listed batches. */
  predicate Outside(db: Db, program: Option<nat>, gone: set<nat>, h: nat) {
    && h in db.households && db.households[h].batch in db.batches
    && program == Some(db.batches[db.households[h].batch])
    && db.households[h].batch !in gone
  }

  /** The batches outside the list whose households refer to x. */
  function Targets(db: Db, program: Option<nat>, gone: set<nat>, x: nat): set<nat> {
    set h | h in db.households && Outside(db, program, gone, h) && Refers(db.households[h], x) :: db.households[h].batch
  }

  lemma FindLeast(s: set<nat>) returns (m: nat)
    requires s != {}
    ensures m in s && forall y :: y in s ==> m <= y
  {
    var x :| x in s;
    if s - {x} == {} {
      m := x;
      assert forall y :: y in s ==> y == x || y in s - {x};
    } else {
      var k := FindLeast(s - {x});
      m := if x < k then x else k;
      assert forall y :: y in s ==> y == x || y in s - {x};
    }
  }

  lemma LeastExists(s: set<nat>)
    requires s != {}
    ensures exists m :: m in s && forall y :: y in s ==> m <= y
  {
    var m := FindLeast(s);
  }

  ghost function Least(s: set<nat>): (m: nat)
    requires s != {}
    ensures m in s && forall y :: y in s ==> m <= y
  {
    LeastExists(s);
    var m :| m in s && forall y :: y in s ==> m <= y;
    m
  }

  predicate HouseholdGone(db: Db, gone: set<nat>, household: Option<nat>) {
    household.Some? && household.value in db.households && db.households[household.value].batch in gone
  }

  predicate Kept(db: Db, program: Option<nat>, gone: set<nat>, x: nat)
    requires x in db.individuals
  {
    && (db.individuals[x].batch !in gone || Targets(db, program, gone, x) != {})
    && !HouseholdGone(db, gone, db.individuals[x].household)
  }

  ghost function Moved(db: Db, program: Option<nat>, gone: set<nat>, x: nat): Individual
    requires x in db.individuals && Kept(db, program, gone, x)
  {
    var row := db.individuals[x];
    if row.batch in gone then row.(batch := Least(Targets(db, program, gone, x))) else row
  }

  ghost function Cleaned(db: Db, program: Option<nat>, gone: set<nat>): Db {
    Db(map b | b in db.batches && b !in gone :: db.batches[b],
       map h | h in db.households && db.households[h].batch !in gone :: db.households[h],
       map x | x in db.individuals && Kept(db, program, gone, x) :: Moved(db, program, gone, x),
       map r | r in db.rdps :: Linked(db, program, gone, db.rdps[r]))
  }

  /** The link rows of an RDP go with the beneficiaries. */
  ghost function Linked(db: Db, program: Option<nat>, gone: set<nat>, rdp: Rdp): Rdp {
    var households := set h | h in rdp.households && !HouseholdGone(db, gone, Some(h));
    var individuals := set x | x in rdp.individuals && (x in db.individuals ==> Kept(db, program, gone, x));
    rdp.(households := households, individuals := individuals)
  }

  // ----- cleaning in chunks is cleaning at once -----

  lemma TargetsAfter(db: Db, program: Option<nat>, first: set<nat>, second: set<nat>, x: nat)
    ensures Targets(Cleaned(db, program, first), program, second, x) == Targets(db, program, first + second, x)
    ensures Targets(db, program, first + second, x) == Targets(db, program, first, x) - second
  {
    var mid := Cleaned(db, program, first);
    assert forall h :: h in mid.households && Outside(mid, program, second, h) <==>
      h in db.households && Outside(db, program, first + second, h);
  }

  lemma KeptAfter(db: Db, program: Option<nat>, first: set<nat>, second: set<nat>, x: nat)
    requires Valid(db) && x in db.individuals
    ensures Kept(db, program, first + second, x) <==>
      Kept(db, program, first, x) && Kept(Cleaned(db, program, first), program, second, x)
    ensures Kept(db, program, first + second, x) ==>
      Moved(Cleaned(db, program, first), program, second, x) == Moved(db, program, first + second, x)
  {
    TargetsAfter(db, program, first, second, x);
    hide Targets;
    var mid, row := Cleaned(db, program, first), db.individuals[x];
    HouseholdAfter(db, program, first, second, row.household);
    if Kept(db, program, first, x) {
      assert mid.individuals[x] == Moved(db, program, first, x);
      if row.batch in first {
        LeastWithout(Targets(db, program, first, x), second);
      }
    }
  }

  lemma HouseholdAfter(db: Db, program: Option<nat>, first: set<nat>, second: set<nat>, household: Option<nat>)
    ensures HouseholdGone(db, first + second, household)
      <==> HouseholdGone(db, first, household) || HouseholdGone(Cleaned(db, program, first), second, household)
  {
  }

  lemma LeastWithout(s: set<nat>, gone: set<nat>)
    requires s != {}
    ensures Least(s) !in gone ==> s - gone != {} && Least(s - gone) == Least(s)
  {
    if Least(s) !in gone {
      assert Least(s) in s - gone;
      assert Least(s - gone) in s;
    }
  }

  /** A cleanup followed by a cleanup does what one cleanup of both lists does. */
  lemma CleanedTwice(db: Db, program: Option<nat>, first: set<nat>, second: set<nat>)
    requires Valid(db)
    ensures Cleaned(Cleaned(db, program, first), program, second) == Cleaned(db, program, first + second)
  {
    var mid := Cleaned(db, program, first);
    forall x | x in db.individuals
      ensures Kept(db, program, first + second, x) <==> x in mid.individuals && Kept(mid, program, second, x)
      ensures Kept(db, program, first + second, x) ==> Moved(mid, program, second, x) == Moved(db, program, first + second, x)
    {
      KeptAfter(db, program, first, second, x);
    }
    LinkedTwice(db, program, first, second);
    hide Targets, Kept, Moved, Linked, HouseholdGone;
    var a, b := Cleaned(mid, program, second), Cleaned(db, program, first + second);
    assert a.individuals == b.individuals;
    assert a.rdps == b.rdps;
  }

  lemma LinkedTwice(db: Db, program: Option<nat>, first: set<nat>, second: set<nat>)
    requires Valid(db)
    ensures forall r :: r in db.rdps ==>
      Linked(Cleaned(db, program, first), program, second, Linked(db, program, first, db.rdps[r]))
      == Linked(db, program, first + second, db.rdps[r])
  {
    var mid := Cleaned(db, program, first);
    forall r | r in db.rdps
      ensures Linked(mid, program, second, Linked(db, program, first, db.rdps[r]))
        == Linked(db, program, first + second, db.rdps[r])
    {
      LinkTwice(db, program, first, second, db.rdps[r]);
    }
  }

  lemma LinkTwice(db: Db, program: Option<nat>, first: set<nat>, second: set<nat>, rdp: Rdp)
    requires Valid(db)
    ensures Linked(Cleaned(db, program, first), program, second, Linked(db, program, first, rdp))
      == Linked(db, program, first + second, rdp)
  {
    var mid := Cleaned(db, program, first);
    var a, b := Linked(mid, program, second, Linked(db, program, first, rdp)), Linked(db, program, first + second, rdp);
    forall h ensures h in a.households <==> h in b.households {
      HouseholdAfter(db, program, first, second, Some(h));
    }
    forall x ensures x in a.individuals <==> x in b.individuals {
      if x in db.individuals {
        KeptAfter(db, program, first, second, x);
      }
    }
  }

  lemma CleanedIsValid(db: Db, program: Option<nat>, gone: set<nat>)
    requires Valid(db)
    ensures Valid(Cleaned(db, program, gone))
  {
    var after := Cleaned(db, program, gone);
    forall x | x in after.individuals ensures after.individuals[x].batch in after.batches {
      var row := db.individuals[x];
      if row.batch in gone {
        assert Least(Targets(db, program, gone, x)) in Targets(db, program, gone, x);
      }
    }
  }

  // ----- the store -----

  datatype Row = Row(batch: nat, primary: Ref, alternate: Ref)

  datatype Counts = Counts(batches: nat, households: nat, individuals: nat)

  /** The queryset of `_referenced_collector_reparenting`, ordered by batch. */
  ghost predicate IsQuery(db: Db, program: nat, chunk: set<nat>, rows: seq<Row>) {
    && (forall i, j :: 0 <= i < j < |rows| ==> rows[i].batch <= rows[j].batch)
    && (forall i :: 0 <= i < |rows| ==> Selected(db, program, chunk, rows[i]))
    && (forall h :: h in db.households && Outside(db, Some(program), chunk, h) ==> RowOf(db.households[h]) in rows)
  }

  ghost predicate Selected(db: Db, program: nat, chunk: set<nat>, row: Row) {
    exists h :: h in db.households && Outside(db, Some(program), chunk, h) && row == RowOf(db.households[h])
  }

  function RowOf(h: Household): Row {
    Row(h.batch, h.primary, h.alternate)
  }

  ghost predicate Names(row: Row, x: nat) {
    IntOf(row.primary) == Some(x) || IntOf(row.alternate) == Some(x)
  }

  /** The dictionary after the first rows: for every id named, the batch of the first row that names it. */
  ghost predicate Reparented(rows: seq<Row>, result: map<nat, nat>) {
    && (forall i, x :: 0 <= i < |rows| && Names(rows[i], x) ==> x in result)
    && (forall x :: x in result ==> exists i :: 0 <= i < |rows| && FirstNaming(rows, i, x) && result[x] == rows[i].batch)
  }

  ghost predicate FirstNaming(rows: seq<Row>, i: nat, x: nat) {
    i < |rows| && Names(rows[i], x) && forall j :: 0 <= j < i ==> !Names(rows[j], x)
  }

  /** Every collector referenced outside the chunk is mapped to the least batch that refers to it. */
  lemma ReparentedTargets(db: Db, program: nat, chunk: set<nat>, rows: seq<Row>, result: map<nat, nat>, x: nat)
    requires IsQuery(db, program, chunk, rows) && Reparented(rows, result)
    ensures x in result <==> Targets(db, Some(program), chunk, x) != {}
    ensures x in result ==> result[x] == Least(Targets(db, Some(program), chunk, x))
  {
    if Targets(db, Some(program), chunk, x) != {} {
      var b :| b in Targets(db, Some(program), chunk, x);
      TargetHasRow(db, program, chunk, rows, x, b);
    }
    if x in result {
      var i :| 0 <= i < |rows| && FirstNaming(rows, i, x) && result[x] == rows[i].batch;
      FirstRowIsLeast(db, program, chunk, rows, i, x);
    }
  }

  lemma TargetHasRow(db: Db, program: nat, chunk: set<nat>, rows: seq<Row>, x: nat, b: nat)
    requires IsQuery(db, program, chunk, rows) && b in Targets(db, Some(program), chunk, x)
    ensures exists k :: 0 <= k < |rows| && Names(rows[k], x) && rows[k].batch == b
  {
    var h :| h in db.households && Outside(db, Some(program), chunk, h) && Refers(db.households[h], x) && db.households[h].batch == b;
    var k :| 0 <= k < |rows| && rows[k] == RowOf(db.households[h]);
    assert Names(rows[k], x);
  }

  lemma FirstRowIsLeast(db: Db, program: nat, chunk: set<nat>, rows: seq<Row>, i: nat, x: nat)
    requires IsQuery(db, program, chunk, rows) && FirstNaming(rows, i, x)
    ensures Targets(db, Some(program), chunk, x) != {} && rows[i].batch == Least(Targets(db, Some(program), chunk, x))
  {
    var targets := Targets(db, Some(program), chunk, x);
    var h :| h in db.households && Outside(db, Some(program), chunk, h) && rows[i] == RowOf(db.households[h]);
    assert rows[i].batch in targets;
    forall b | b in targets ensures rows[i].batch <= b {
      TargetHasRow(db, program, chunk, rows, x, b);
    }
  }

  lemma HouseholdIsSelected(db: Db, program: nat, chunk: set<nat>, h: nat)
    requires h in db.households && Outside(db, Some(program), chunk, h)
    ensures Selected(db, program, chunk, RowOf(db.households[h])) && RowOf(db.households[h]).batch == db.households[h].batch
  {
  }

  class Store {
    var batches: map<nat, nat>
    var households: map<nat, Household>
    var individuals: map<nat, Individual>
    var rdps: map<nat, Rdp>

    function Snapshot(): Db
      reads this
    {
      Db(batches, households, individuals, rdps)
    }

    /** Runs the query; which of two rows of one batch comes first is up to the database. */
    method ReferencingRows(program: nat, chunk: set<nat>) returns (rows: seq<Row>)
      ensures IsQuery(Snapshot(), program, chunk, rows)
    {
      rows := [];
      var left := set h | h in households && Outside(Snapshot(), Some(program), chunk, h);
      ghost var all := left;
      hide Outside, Selected, RowOf;
      while left != {}
        invariant left <= all
        invariant forall i, j :: 0 <= i < j < |rows| ==> rows[i].batch <= rows[j].batch
        invariant forall i :: 0 <= i < |rows| ==> Selected(Snapshot(), program, chunk, rows[i])
        invariant forall i, h :: 0 <= i < |rows| && h in left ==> rows[i].batch <= households[h].batch
        invariant forall h :: h in all - left ==> RowOf(households[h]) in rows
        decreases |left|
      {
        LeastBatchExists(households, left);
        var h :| h in left && forall g :: g in left ==> households[h].batch <= households[g].batch;
        HouseholdIsSelected(Snapshot(), program, chunk, h);
        rows := rows + [RowOf(households[h])];
        left := left - {h};
      }
    }

    /** `reparenting.setdefault(int(value), batch_id)`, with ValueError suppressed. */
    static method SetDefault(reparenting: map<nat, nat>, value: Ref, batch: nat) returns (result: map<nat, nat>)
      ensures IntOf(value).None? ==> result == reparenting
      ensures IntOf(value).Some? ==>
        var x := IntOf(value).value; result == if x in reparenting then reparenting else reparenting[x := batch]
    {
      result := reparenting;
      var parsed := IntOf(value);
      if parsed.Some? && parsed.value !in reparenting {
        result := reparenting[parsed.value := batch];
      }
    }

    method ReferencedCollectorReparenting(program: nat, chunk: set<nat>) returns (reparenting: map<nat, nat>)
      ensures forall x :: x in reparenting <==> Targets(Snapshot(), Some(program), chunk, x) != {}
      ensures forall x :: x in reparenting ==> reparenting[x] == Least(Targets(Snapshot(), Some(program), chunk, x))
    {
      var rows := ReferencingRows(program, chunk);
      reparenting := map[];
      for i := 0 to |rows|
        invariant Reparented(rows[..i], reparenting)
      {
        var before := reparenting;
        reparenting := SetDefault(reparenting, rows[i].primary, rows[i].batch);
        reparenting := SetDefault(reparenting, rows[i].alternate, rows[i].batch);
        OneRowMore(rows, i, before, reparenting);
      }
      assert rows[..|rows|] == rows;
      forall x: nat
        ensures x in reparenting <==> Targets(Snapshot(), Some(program), chunk, x) != {}
        ensures x in reparenting ==> reparenting[x] == Least(Targets(Snapshot(), Some(program), chunk, x))
      {
        ReparentedTargets(Snapshot(), program, chunk, rows, reparenting, x);
      }
    }

    /** `Individual.objects.filter(pk=collector_id, batch_id__in=chunk).update(batch_id=...)` for every entry. */
    method MoveCollectors(reparenting: map<nat, nat>, chunk: set<nat>)
      requires forall x :: x in reparenting ==> reparenting[x] !in chunk
      modifies `individuals
      ensures individuals.Keys == old(individuals.Keys)
      ensures forall x :: x in individuals ==> individuals[x] == Reparent(reparenting, chunk, x, old(individuals)[x])
    {
      var left := reparenting;
      while left != map[]
        invariant left.Keys <= reparenting.Keys
        invariant individuals.Keys == old(individuals.Keys)
        invariant forall x :: x in individuals && x !in left ==>
          individuals[x] == Reparent(reparenting, chunk, x, old(individuals)[x])
        invariant forall x :: x in individuals && x in left ==> individuals[x] == old(individuals)[x]
        decreases |left|
      {
        var id :| id in left.Keys;
        if id in individuals && individuals[id].batch in chunk {
          individuals := individuals[id := individuals[id].(batch := reparenting[id])];
        }
        left := left - {id};
      }
    }

    /** `_clear_heavy_fields` on the rows that are about to go. */
    method ClearHeavyFields(chunk: set<nat>)
      modifies `individuals, `households
      ensures individuals.Keys == old(individuals.Keys) && households.Keys == old(households.Keys)
      ensures forall x :: x in individuals ==> individuals[x] == Cleared(chunk, old(individuals)[x])
      ensures forall h :: h in households ==> households[h] == ClearedHousehold(chunk, old(households)[h])
    {
      individuals := map x | x in individuals :: Cleared(chunk, individuals[x]);
      households := map h | h in households :: ClearedHousehold(chunk, households[h]);
    }

    /** Deletes individuals and, with them, their links to RDPs. */
    method DeleteIndividuals(gone: set<nat>)
      modifies `individuals, `rdps
      ensures individuals == old(individuals) - gone
      ensures rdps == Unlinked(old(rdps), {}, gone)
    {
      individuals := individuals - gone;
      rdps := Unlinked(rdps, {}, gone);
    }

    /** Deletes households; their members and all link rows cascade. */
    method DeleteHouseholds(gone: set<nat>)
      modifies `households, `individuals, `rdps
      ensures households == old(households) - gone
      ensures var members := MembersOf(old(individuals), gone);
        individuals == old(individuals) - members && rdps == Unlinked(old(rdps), gone, members)
    {
      var members := MembersOf(individuals, gone);
      households := households - gone;
      individuals := individuals - members;
      rdps := Unlinked(rdps, gone, members);
    }

    method MoveAndClear(chunk: set<nat>, program: Option<nat>)
      modifies `individuals, `households
      ensures exists reparenting ::
        Maps(old(Snapshot()), program, chunk, reparenting) && Snapshot() == Prepared(old(Snapshot()), chunk, reparenting)
    {
      ghost var db := Snapshot();
      var reparenting := map[];
      if program.Some? {
        reparenting := ReferencedCollectorReparenting(program.value, chunk);
      }
      TargetsOutside(db, program, chunk);
      assert Maps(db, program, chunk, reparenting);
      hide Targets, Maps, Cleared, Reparent, ClearedHousehold;
      MoveCollectors(reparenting, chunk);
      ClearHeavyFields(chunk);
      assert individuals == Prepared(db, chunk, reparenting).individuals;
      assert households == Prepared(db, chunk, reparenting).households;
      assert Snapshot() == Prepared(db, chunk, reparenting);
    }

    /** Nothing refers to these batches any more. */
    method DeleteBatches(chunk: set<nat>) returns (count: nat)
      modifies `batches
      ensures batches == old(batches) - chunk && count == |old(batches).Keys| - |batches.Keys|
    {
      var rows := batches.Keys * chunk;
      SplitKeys(batches, rows);
      assert batches - chunk == batches - rows;
      count := |rows|;
      batches := batches - chunk;
    }

    /** The deletions of one turn: individuals, then households with their members, then batches. */
    method DeleteChunk(chunk: set<nat>) returns (deleted: Counts)
      modifies this
      ensures Snapshot() == Deleted(old(Snapshot()), chunk)
      ensures deleted.batches == |old(batches).Keys| - |batches.Keys|
      ensures deleted.households == |old(households).Keys| - |households.Keys|
      ensures deleted.individuals == |InBatches(old(individuals), chunk)|
    {
      var own := InBatches(individuals, chunk);
      DeleteIndividuals(own);
      var gone := HouseholdsIn(households, chunk);
      SplitKeys(households, gone);
      hide InBatches, HouseholdsIn, MembersOf, Unlinked;
      DeleteHouseholds(gone);
      var count := DeleteBatches(chunk);
      deleted := Counts(count, |gone|, |own|);
    }

    /** One turn of the loop of `_cleanup_batches`, after the cancellation check. */
    method CleanupChunk(chunk: set<nat>, program: Option<nat>) returns (deleted: Counts)
      modifies this
      ensures Snapshot() == Cleaned(old(Snapshot()), program, chunk)
      ensures deleted.batches == |old(batches).Keys| - |batches.Keys|
      ensures deleted.households == |old(households).Keys| - |households.Keys|
      ensures deleted.individuals == |Counted(old(Snapshot()), program, chunk)|
    {
      hide Maps, Prepared, Deleted, Cleaned, Counted, InBatches;
      ghost var db := Snapshot();
      MoveAndClear(chunk, program);
      ghost var reparenting :| Maps(db, program, chunk, reparenting) && Snapshot() == Prepared(db, chunk, reparenting);
      PreparedKeys(db, chunk, reparenting);
      deleted := DeleteChunk(chunk);
      ChunkIsCleaned(db, program, chunk, reparenting);
    }

    /**
     * `_cleanup_batches`. The job is found cancelled at the offsets in `cancelled`; the answer
     * is then the offset, and the chunks before it stay deleted.
     */
    method CleanupBatches(batchIds: seq<nat>, program: Option<nat>, batchSize: nat, cancelled: set<nat>)
      returns (result: Result<Counts, nat>)
      requires batchSize > 0 && Valid(Snapshot())
      modifies this
      ensures result.Ok? ==> Snapshot() == Cleaned(old(Snapshot()), program, Listed(batchIds))
      ensures result.Err? ==>
        && result.error in cancelled && result.error < |batchIds|
        && Snapshot() == Cleaned(old(Snapshot()), program, Listed(batchIds[..result.error]))
      ensures result.Ok? <==> forall c: nat :: c * batchSize < |batchIds| ==> !CancelledAt(cancelled, batchSize, c)
      ensures result.Err? ==>
        exists c: nat :: CancelledAt(cancelled, batchSize, c) && result.error == c * batchSize
          && forall d: nat :: d < c ==> !CancelledAt(cancelled, batchSize, d)
      ensures result.Ok? ==>
        && result.value.batches == |old(batches).Keys| - |batches.Keys|
        && result.value.households == |old(households).Keys| - |households.Keys|
        && |GoneThemselves(old(Snapshot()), program, Listed(batchIds))| <= result.value.individuals
        && result.value.individuals <= |old(individuals).Keys| - |individuals.Keys|
    {
      hide Cleaned, Counted, Listed, Valid, GoneThemselves;
      ghost var db := Snapshot();
      NobodyGone(db, program);
      var deleted := Counts(0, 0, 0);
      var i := 0;
      ghost var chunks := 0;
      CleanedNothing(db, program);
      while i < |batchIds|
        invariant i <= |batchIds| && (i == chunks * batchSize || (i == |batchIds| && i <= chunks * batchSize))
        invariant forall c: nat :: c < chunks ==> !CancelledAt(cancelled, batchSize, c)
        invariant Snapshot() == Cleaned(db, program, Listed(batchIds[..i]))
        invariant deleted.batches == |db.batches.Keys| - |batches.Keys|
        invariant deleted.households == |db.households.Keys| - |households.Keys|
        invariant deleted.individuals <= |db.individuals.Keys| - |individuals.Keys|
        invariant |GoneThemselves(db, program, Listed(batchIds[..i]))| <= deleted.individuals
      {
        if i in cancelled {
          assert CancelledAt(cancelled, batchSize, chunks);
          return Err(i);
        }
        var end := if i + batchSize < |batchIds| then i + batchSize else |batchIds|;
        var chunk := Listed(batchIds[i..end]);
        CleanedTwice(db, program, Listed(batchIds[..i]), chunk);
        ListedMore(batchIds, i, end);
        CountedAreGone(Snapshot(), program, chunk);
        NewlyGoneAreCounted(db, program, Listed(batchIds[..i]), chunk);
        var counts := CleanupChunk(chunk, program);
        deleted := Counts(
          deleted.batches + counts.batches, deleted.households + counts.households, deleted.individuals + counts.individuals);
        i := end;
        NextChunk(chunks, batchSize);
        chunks := chunks + 1;
      }
      assert batchIds[..i] == batchIds;
      AllChunks(chunks, batchSize, |batchIds|);
      return Ok(deleted);
    }

    /**
     * `batch_cleanup`, in one transaction: the guard is read under the programme's lock, and an
     * exception rolls everything back.
     */
    method BatchCleanup(batch: nat, cancelled: bool) returns (result: Result<Counts, CleanupError>)
      requires Valid(Snapshot()) && batch in batches
      modifies this
      ensures result == Err(Referenced) <==> ReferencedByUnfinished(old(Snapshot()), batch)
      ensures result == Err(Cancelled) <==> cancelled && !ReferencedByUnfinished(old(Snapshot()), batch)
      ensures Snapshot() ==
        if result.Ok? then Cleaned(old(Snapshot()), Some(old(batches)[batch]), {batch}) else old(Snapshot())
      ensures result.Ok? ==>
        && result.value.batches == |old(batches).Keys| - |batches.Keys|
        && result.value.households == |old(households).Keys| - |households.Keys|
        && |GoneThemselves(old(Snapshot()), Some(old(batches)[batch]), {batch})| <= result.value.individuals
        && result.value.individuals <= |old(individuals).Keys| - |individuals.Keys|
    {
      if ReferencedByUnfinished(Snapshot(), batch) {
        return Err(Referenced);
      }
      var counts := CleanupBatches([batch], Some(batches[batch]), 5, if cancelled then {0} else {});
      assert Listed([batch]) == {batch};
      assert CancelledAt(if cancelled then {0} else {}, 5, 0) <==> cancelled;
      hide Cleaned, ReferencedByUnfinished, GoneThemselves;
      if counts.Err? {
        assert [batch][..0] == [];
        CleanedNothing(old(Snapshot()), Some(old(batches)[batch]));
        return Err(Cancelled);
      }
      return Ok(counts.value);
    }
  }

  datatype CleanupError = Referenced | Cancelled

  function Listed(batchIds: seq<nat>): set<nat> {
    set b | b in batchIds
  }

  lemma ListedMore(batchIds: seq<nat>, i: nat, end: nat)
    requires i <= end <= |batchIds|
    ensures Listed(batchIds[..end]) == Listed(batchIds[..i]) + Listed(batchIds[i..end])
  {
    assert batchIds[..end] == batchIds[..i] + batchIds[i..end];
  }

  lemma CleanedNothing(db: Db, program: Option<nat>)
    requires Valid(db)
    ensures Cleaned(db, program, Listed([])) == db
  {
    assert Listed([]) == {};
    var t := Cleaned(db, program, {});
    assert t.batches == db.batches && t.households == db.households;
    assert t.individuals == db.individuals;
    forall r | r in db.rdps ensures Linked(db, program, {}, db.rdps[r]) == db.rdps[r] {
    }
    assert t.rdps == db.rdps;
  }

  lemma CountedAreGone(db: Db, program: Option<nat>, chunk: set<nat>)
    ensures |Counted(db, program, chunk)| <= |db.individuals.Keys| - |Cleaned(db, program, chunk).individuals.Keys|
  {
    var counted, left := Counted(db, program, chunk), Cleaned(db, program, chunk).individuals.Keys;
    SubsetSize(left + counted, db.individuals.Keys);
  }

  /** A cancellation was requested before chunk c. */
  predicate CancelledAt(cancelled: set<nat>, batchSize: nat, c: nat) {
    c * batchSize in cancelled
  }

  lemma NextChunk(chunks: nat, batchSize: nat)
    ensures (chunks + 1) * batchSize == chunks * batchSize + batchSize
  {
  }

  lemma Multiples(c: nat, d: nat, size: nat)
    ensures c >= d ==> c * size >= d * size
  {
  }

  lemma AllChunks(chunks: nat, batchSize: nat, size: nat)
    requires size <= chunks * batchSize
    ensures forall c: nat :: c * batchSize < size ==> c < chunks
  {
    forall c: nat | c * batchSize < size ensures c < chunks {
      Multiples(c, chunks, batchSize);
    }
  }

  /** The individuals that go without their household going: each is counted. */
  function GoneThemselves(db: Db, program: Option<nat>, gone: set<nat>): set<nat> {
    set x | x in db.individuals && !Kept(db, program, gone, x) && !HouseholdGone(db, gone, db.individuals[x].household)
  }

  lemma NobodyGone(db: Db, program: Option<nat>)
    ensures GoneThemselves(db, program, Listed([])) == {}
  {
    assert Listed([]) == {};
  }

  lemma NewlyGoneAreCounted(db: Db, program: Option<nat>, first: set<nat>, second: set<nat>)
    requires Valid(db)
    ensures |GoneThemselves(db, program, first + second)|
      <= |GoneThemselves(db, program, first)| + |Counted(Cleaned(db, program, first), program, second)|
  {
    var before, counted, all := GoneThemselves(db, program, first), Counted(Cleaned(db, program, first), program, second),
      GoneThemselves(db, program, first + second);
    forall x | x in all ensures x in before + counted {
      KeptAfter(db, program, first, second, x);
    }
    SubsetSize(all, before + counted);
    assert |before + counted| <= |before| + |counted|;
  }

  lemma SubsetSize(a: set<nat>, b: set<nat>)
    requires a <= b
    ensures |a| <= |b|
  {
    assert b == a + (b - a);
  }

  /** Some unfinished RDP selects a record of the batch, or a household with a member in it, or a member of its households. */
  predicate ReferencedByUnfinished(db: Db, batch: nat) {
    exists r <- db.rdps :: db.rdps[r].unfinished && References(db, db.rdps[r], batch)
  }

  /** The guard looks at unfinished RDPs only, in the four ways that it names. */
  lemma GuardMeans(db: Db, batch: nat)
    ensures ReferencedByUnfinished(db, batch) <==>
      || (exists r, h :: r in db.rdps && db.rdps[r].unfinished && h in db.rdps[r].households
            && h in db.households && db.households[h].batch == batch)
      || (exists r, x :: r in db.rdps && db.rdps[r].unfinished && x in db.individuals && db.individuals[x].batch == batch
            && db.individuals[x].household.Some? && db.individuals[x].household.value in db.rdps[r].households)
      || (exists r, x :: r in db.rdps && db.rdps[r].unfinished && x in db.rdps[r].individuals
            && x in db.individuals && db.individuals[x].batch == batch)
      || (exists r, x :: r in db.rdps && db.rdps[r].unfinished && x in db.rdps[r].individuals && x in db.individuals
            && db.individuals[x].household.Some? && db.individuals[x].household.value in db.households
            && db.households[db.individuals[x].household.value].batch == batch)
  {
  }

  predicate References(db: Db, rdp: Rdp, batch: nat) {
    || (exists h <- rdp.households :: h in db.households && db.households[h].batch == batch)
    || (exists x <- db.individuals :: IsMember(db, rdp, x) && db.individuals[x].batch == batch)
    || (exists x <- rdp.individuals :: x in db.individuals && db.individuals[x].batch == batch)
    || (exists x <- rdp.individuals :: x in db.individuals && HouseholdGone(db, {batch}, db.individuals[x].household))
  }

  predicate IsMember(db: Db, rdp: Rdp, x: nat)
    requires x in db.individuals
  {
    db.individuals[x].household.Some? && db.individuals[x].household.value in rdp.households
  }

  // ----- who survives -----

  /** A household-less collector of a listed batch survives exactly when a household outside the list needs it. */
  lemma CollectorSurvives(db: Db, program: nat, gone: set<nat>, x: nat)
    requires Valid(db) && x in db.individuals && db.individuals[x].household.None? && db.individuals[x].batch in gone
    ensures var after := Cleaned(db, Some(program), gone);
      x in after.individuals <==>
        exists h :: h in db.households && Outside(db, Some(program), gone, h) && Refers(db.households[h], x)
    ensures var after := Cleaned(db, Some(program), gone);
      x in after.individuals ==>
        && after.individuals[x] == db.individuals[x].(batch := after.individuals[x].batch)
        && after.individuals[x].batch in after.batches && after.batches[after.individuals[x].batch] == program
        && exists h :: h in after.households && Refers(after.households[h], x) && after.households[h].batch == after.individuals[x].batch
  {
    var targets := Targets(db, Some(program), gone, x);
    if exists h :: h in db.households && Outside(db, Some(program), gone, h) && Refers(db.households[h], x) {
      var h :| h in db.households && Outside(db, Some(program), gone, h) && Refers(db.households[h], x);
      assert db.households[h].batch in targets;
    }
    if targets != {} {
      var least := Least(targets);
      var h :| h in db.households && Outside(db, Some(program), gone, h) && Refers(db.households[h], x) && db.households[h].batch == least;
      assert h in Cleaned(db, Some(program), gone).households;
    }
  }

  /** Nothing else of the listed batches is left, and nothing outside them changes but through its household. */
  lemma OthersGoWithTheirBatch(db: Db, program: Option<nat>, gone: set<nat>)
    requires Valid(db)
    ensures var after := Cleaned(db, program, gone);
      && Valid(after) && after.batches.Keys == db.batches.Keys - gone
      && (forall h :: h in after.households <==> h in db.households && db.households[h].batch !in gone)
      && (forall x :: x in db.individuals && HouseholdGone(db, gone, db.individuals[x].household) ==> x !in after.individuals)
      && (forall x :: x in db.individuals && db.individuals[x].batch !in gone
            && !HouseholdGone(db, gone, db.individuals[x].household)
            ==> x in after.individuals && after.individuals[x] == db.individuals[x])
  {
    CleanedIsValid(db, program, gone);
  }

  /** Cleaning all batches of a programme leaves no row of it and no row of another programme changes its batch. */
  lemma ProgramCleanupIsComplete(db: Db, program: nat, gone: set<nat>)
    requires Valid(db) && gone == set b | b in db.batches && db.batches[b] == program
    ensures var after := Cleaned(db, Some(program), gone);
      && Valid(after)
      && (forall b :: b in after.batches <==> b in db.batches && db.batches[b] != program)
      && (forall h :: h in db.households && db.batches[db.households[h].batch] != program ==>
            h in after.households && after.households[h] == db.households[h])
      && (forall x :: x in after.individuals ==>
            after.individuals[x] == db.individuals[x] && db.batches[db.individuals[x].batch] != program)
  {
    CleanedIsValid(db, Some(program), gone);
    forall x: nat ensures Targets(db, Some(program), gone, x) == {} {
    }
  }

  // ----- push sets of unfinished RDPs -----

  function DigitsOf(ref: Ref): Option<nat> {
    if ref.Digits? then Some(ref.n) else None
  }

  /** `qs_individuals_for_push`: members, and collectors named by a decimal reference. */
  function PushSet(db: Db, rdp: Rdp): set<nat> {
    set x | x in db.individuals && (IsMember(db, rdp, x) || IsCollector(db, rdp, x))
  }

  predicate IsCollector(db: Db, rdp: Rdp, x: nat) {
    exists h <- rdp.households :: h in db.households
      && (DigitsOf(db.households[h].primary) == Some(x) || DigitsOf(db.households[h].alternate) == Some(x))
  }

  /** The selection of an unfinished RDP survives the cleanup of a batch that the guard lets through. */
  lemma SelectionKept(db: Db, batch: nat, r: nat)
    requires Valid(db) && batch in db.batches && !ReferencedByUnfinished(db, batch)
    requires r in db.rdps && db.rdps[r].unfinished
    ensures Cleaned(db, Some(db.batches[batch]), {batch}).rdps[r] == db.rdps[r]
  {
    var rdp := db.rdps[r];
    assert !References(db, rdp, batch);
    forall x | x in rdp.individuals && x in db.individuals ensures Kept(db, Some(db.batches[batch]), {batch}, x) {
    }
    forall h | h in rdp.households ensures !HouseholdGone(db, {batch}, Some(h)) {
    }
  }

  /** The households of the RDP are of the batch's programme. */
  predicate SameProgram(db: Db, batch: nat, rdp: Rdp)
    requires Valid(db) && batch in db.batches
  {
    forall h <- rdp.households :: h in db.households ==> db.batches[db.households[h].batch] == db.batches[batch]
  }

  /** Under the guard, what is left of a push set: all members, and collectors as far as the programme needs them. */
  lemma PushedIndividualKept(db: Db, batch: nat, r: nat, x: nat)
    requires Valid(db) && batch in db.batches && !ReferencedByUnfinished(db, batch)
    requires r in db.rdps && db.rdps[r].unfinished
    requires x in PushSet(db, db.rdps[r])
    ensures IsMember(db, db.rdps[r], x) ==> Kept(db, Some(db.batches[batch]), {batch}, x)
    ensures SameProgram(db, batch, db.rdps[r]) ==>
      (Kept(db, Some(db.batches[batch]), {batch}, x) <==> !HouseholdGone(db, {batch}, db.individuals[x].household))
  {
    var rdp, program := db.rdps[r], Some(db.batches[batch]);
    assert !References(db, rdp, batch);
    if !IsMember(db, rdp, x) && SameProgram(db, batch, rdp) {
      var h :| h in rdp.households && h in db.households
        && (DigitsOf(db.households[h].primary) == Some(x) || DigitsOf(db.households[h].alternate) == Some(x));
      assert Outside(db, program, {batch}, h) && Refers(db.households[h], x);
      assert db.households[h].batch in Targets(db, program, {batch}, x);
    }
  }

  /**
   * After `batch_cleanup` the push set of an unfinished RDP of any programme is what it was, row by
   * row except for the batch of moved collectors, if and only if each collector in it is kept: it is
   * no member of a household of the deleted batch, and if it lies in that batch, some other household
   * of the batch's programme names it. For an RDP of that programme the second half always holds.
   */
  lemma BatchCleanupKeepsPushSet(db: Db, batch: nat, r: nat)
    requires Valid(db) && batch in db.batches && !ReferencedByUnfinished(db, batch)
    requires r in db.rdps && db.rdps[r].unfinished
    ensures var program, after := Some(db.batches[batch]), Cleaned(db, Some(db.batches[batch]), {batch});
      && after.rdps[r] == db.rdps[r]
      && PushSet(after, after.rdps[r]) <= PushSet(db, db.rdps[r])
      && (PushSet(after, after.rdps[r]) == PushSet(db, db.rdps[r]) <==>
            forall x :: x in PushSet(db, db.rdps[r]) ==> Kept(db, program, {batch}, x))
      && (SameProgram(db, batch, db.rdps[r]) ==>
            forall x :: x in PushSet(db, db.rdps[r]) ==>
              (Kept(db, program, {batch}, x) <==> !HouseholdGone(db, {batch}, db.individuals[x].household)))
      && (forall x :: x in PushSet(db, db.rdps[r]) && IsMember(db, db.rdps[r], x) ==> x in PushSet(after, after.rdps[r]))
      && (forall x :: x in PushSet(after, after.rdps[r]) ==>
            && after.individuals[x] == db.individuals[x].(batch := after.individuals[x].batch)
            && (db.individuals[x].batch != batch ==> after.individuals[x] == db.individuals[x]))
  {
    var rdp, program := db.rdps[r], Some(db.batches[batch]);
    var after := Cleaned(db, program, {batch});
    SelectionKept(db, batch, r);
    forall x | x in PushSet(db, rdp)
      ensures IsMember(db, rdp, x) ==> Kept(db, program, {batch}, x)
      ensures SameProgram(db, batch, rdp) ==>
        (Kept(db, program, {batch}, x) <==> !HouseholdGone(db, {batch}, db.individuals[x].household))
    {
      PushedIndividualKept(db, batch, r, x);
    }
    forall x ensures x in PushSet(after, rdp) <==> x in PushSet(db, rdp) && Kept(db, program, {batch}, x) {
      PushSetAfter(db, batch, r, x);
    }
    hide Kept, HouseholdGone, SameProgram, IsMember, References, ReferencedByUnfinished, PushSet;
  }

  /**
   * A collector that is itself a member of a household of the batch is lost, although a
   * household of an unfinished RDP refers to it and the guard lets the cleanup through.
   */
  lemma MemberCollectorIsLost()
    ensures var db := Db(map[1 := 0, 2 := 0],
        map[10 := Household(1, NoRef, NoRef, ""), 20 := Household(2, Digits(7), NoRef, "")],
        map[7 := Individual(1, Some(10), "")], map[5 := Rdp(true, {20}, {})]);
      && Valid(db) && !ReferencedByUnfinished(db, 1)
      && 7 in PushSet(db, db.rdps[5])
      && var after := Cleaned(db, Some(0), {1}); 5 in after.rdps && 7 !in PushSet(after, after.rdps[5])
  {
    var db := Db(map[1 := 0, 2 := 0],
      map[10 := Household(1, NoRef, NoRef, ""), 20 := Household(2, Digits(7), NoRef, "")],
      map[7 := Individual(1, Some(10), "")], map[5 := Rdp(true, {20}, {})]);
    assert 20 in db.rdps[5].households;
    assert IsCollector(db, db.rdps[5], 7);
    assert HouseholdGone(db, {1}, Some(10));
  }

  lemma PushSetAfter(db: Db, batch: nat, r: nat, x: nat)
    requires Valid(db) && batch in db.batches && !ReferencedByUnfinished(db, batch)
    requires r in db.rdps && db.rdps[r].unfinished
    ensures x in PushSet(Cleaned(db, Some(db.batches[batch]), {batch}), db.rdps[r]) <==>
      x in PushSet(db, db.rdps[r]) && Kept(db, Some(db.batches[batch]), {batch}, x)
  {
    var rdp := db.rdps[r];
    var after := Cleaned(db, Some(db.batches[batch]), {batch});
    assert !References(db, rdp, batch);
    forall h | h in rdp.households && h in db.households ensures h in after.households && after.households[h] == db.households[h] {
    }
    assert IsCollector(db, rdp, x) <==> IsCollector(after, rdp, x);
  }

  lemma SplitKeys<T>(m: map<nat, T>, gone: set<nat>)
    requires gone <= m.Keys
    ensures |gone| == |m.Keys| - |(m - gone).Keys|
  {
    assert m.Keys == (m - gone).Keys + gone;
  }

  lemma PreparedKeys(db: Db, chunk: set<nat>, reparenting: map<nat, nat>)
    ensures var mid := Prepared(db, chunk, reparenting);
      mid.batches == db.batches && mid.households.Keys == db.households.Keys
  {
  }

  /** Link rows go with either of their ends. */
  function Unlinked(rdps: map<nat, Rdp>, households: set<nat>, individuals: set<nat>): map<nat, Rdp> {
    map r | r in rdps ::
      rdps[r].(households := rdps[r].households - households, individuals := rdps[r].individuals - individuals)
  }

  /** The state between the updates and the deletions of one turn. */
  ghost function Prepared(db: Db, chunk: set<nat>, reparenting: map<nat, nat>): Db {
    Db(db.batches,
       map h | h in db.households :: ClearedHousehold(chunk, db.households[h]),
       map x | x in db.individuals :: Cleared(chunk, Reparent(reparenting, chunk, x, db.individuals[x])),
       db.rdps)
  }

  ghost function Deleted(db: Db, chunk: set<nat>): Db {
    var own, gone := InBatches(db.individuals, chunk), HouseholdsIn(db.households, chunk);
    var members := MembersOf(db.individuals - own, gone);
    Db(db.batches - chunk, db.households - gone, db.individuals - own - members,
       Unlinked(Unlinked(db.rdps, {}, own), gone, members))
  }

  function InBatches(individuals: map<nat, Individual>, chunk: set<nat>): set<nat> {
    set x | x in individuals && individuals[x].batch in chunk
  }

  function HouseholdsIn(households: map<nat, Household>, chunk: set<nat>): set<nat> {
    set h | h in households && households[h].batch in chunk
  }

  lemma TargetsOutside(db: Db, program: Option<nat>, chunk: set<nat>)
    ensures forall x :: Targets(db, program, chunk, x) !! chunk
    ensures program.None? ==> forall x :: Targets(db, program, chunk, x) == {}
  {
  }

  function Reparent(reparenting: map<nat, nat>, chunk: set<nat>, x: nat, row: Individual): Individual {
    if x in reparenting && row.batch in chunk then row.(batch := reparenting[x]) else row
  }

  function Cleared(chunk: set<nat>, row: Individual): Individual {
    if row.batch in chunk then row.(data := "") else row
  }

  function ClearedHousehold(chunk: set<nat>, row: Household): Household {
    if row.batch in chunk then Household(row.batch, NoRef, NoRef, "") else row
  }

  ghost predicate Maps(db: Db, program: Option<nat>, chunk: set<nat>, reparenting: map<nat, nat>) {
    forall x :: (x in reparenting <==> Targets(db, program, chunk, x) != {})
      && (x in reparenting ==> reparenting[x] == Least(Targets(db, program, chunk, x)))
  }

  lemma ChunkIndividual(db: Db, program: Option<nat>, chunk: set<nat>, reparenting: map<nat, nat>, x: nat)
    requires x in db.individuals && Maps(db, program, chunk, reparenting)
    ensures var row := Cleared(chunk, Reparent(reparenting, chunk, x, db.individuals[x]));
      && (row.batch in chunk <==> x in Counted(db, program, chunk))
      && row.household == db.individuals[x].household
      && (Kept(db, program, chunk, x) <==> row.batch !in chunk && !HouseholdGone(db, chunk, row.household))
      && (Kept(db, program, chunk, x) ==> row == Moved(db, program, chunk, x))
  {
    if x in reparenting {
      assert reparenting[x] in Targets(db, program, chunk, x);
    }
  }

  lemma ChunkIsCleaned(db: Db, program: Option<nat>, chunk: set<nat>, reparenting: map<nat, nat>)
    requires Maps(db, program, chunk, reparenting)
    ensures var mid := Prepared(db, chunk, reparenting);
      Deleted(mid, chunk) == Cleaned(db, program, chunk) && InBatches(mid.individuals, chunk) == Counted(db, program, chunk)
  {
    ChunkOutcome(db, program, chunk, reparenting);
    ChunkLinks(db, program, chunk, reparenting);
    hide Maps, Kept, Moved, Counted, Cleared, Reparent, HouseholdGone, Linked;
    var a, b := Deleted(Prepared(db, chunk, reparenting), chunk), Cleaned(db, program, chunk);
    assert a.households == b.households;
    assert a.batches == b.batches;
    assert a.rdps == b.rdps;
  }

  /** The individuals left by the two deletions. */
  lemma ChunkOutcome(db: Db, program: Option<nat>, chunk: set<nat>, reparenting: map<nat, nat>)
    requires Maps(db, program, chunk, reparenting)
    ensures var mid := Prepared(db, chunk, reparenting);
      var own, gone := InBatches(mid.individuals, chunk), HouseholdsIn(mid.households, chunk);
      var members := MembersOf(mid.individuals - own, gone);
      && own == Counted(db, program, chunk) && gone == HouseholdsIn(db.households, chunk)
      && (forall x :: x in db.individuals ==> (Kept(db, program, chunk, x) <==> x !in own && x !in members))
      && mid.individuals - own - members == Cleaned(db, program, chunk).individuals
  {
    var mid := Prepared(db, chunk, reparenting);
    var own, gone := InBatches(mid.individuals, chunk), HouseholdsIn(mid.households, chunk);
    var members := MembersOf(mid.individuals - own, gone);
    assert gone == HouseholdsIn(db.households, chunk);
    forall x | x in db.individuals
      ensures x in own <==> x in Counted(db, program, chunk)
      ensures Kept(db, program, chunk, x) <==> x !in own && x !in members
      ensures Kept(db, program, chunk, x) ==> mid.individuals[x] == Moved(db, program, chunk, x)
    {
      ChunkIndividual(db, program, chunk, reparenting, x);
    }
    hide Maps, Kept, Moved, Cleared, Reparent, Targets;
    assert own == Counted(db, program, chunk);
  }

  lemma ChunkLinks(db: Db, program: Option<nat>, chunk: set<nat>, reparenting: map<nat, nat>)
    requires Maps(db, program, chunk, reparenting)
    ensures var t := Deleted(Prepared(db, chunk, reparenting), chunk);
      forall r :: r in db.rdps ==> t.rdps[r] == Linked(db, program, chunk, db.rdps[r])
  {
    ChunkOutcome(db, program, chunk, reparenting);
    hide Maps, Kept, Cleared, Reparent;
    var mid := Prepared(db, chunk, reparenting);
    var t := Deleted(mid, chunk);
    forall r | r in db.rdps ensures t.rdps[r] == Linked(db, program, chunk, db.rdps[r]) {
      var link := Linked(db, program, chunk, db.rdps[r]);
      assert t.rdps[r].households == link.households;
      assert t.rdps[r].individuals == link.individuals;
    }
  }

  function MembersOf(individuals: map<nat, Individual>, gone: set<nat>): set<nat> {
    set x | x in individuals && individuals[x].household.Some? && individuals[x].household.value in gone
  }

  /** The individuals that the counter sees: members that cascade from a household are not among them. */
  function Counted(db: Db, program: Option<nat>, gone: set<nat>): set<nat> {
    set x | x in db.individuals && db.individuals[x].batch in gone && Targets(db, program, gone, x) == {}
  }

  lemma LeastBatchExists(households: map<nat, Household>, left: set<nat>)
    requires left != {} && forall h :: h in left ==> h in households
    ensures exists h :: h in left && forall g :: g in left ==> households[h].batch <= households[g].batch
  {
    var batches := set h | h in left :: households[h].batch;
    var h :| h in left;
    assert households[h].batch in batches;
    var least := Least(batches);
    var k :| k in left && households[k].batch == least;
    forall g | g in left ensures households[k].batch <= households[g].batch {
      assert households[g].batch in batches;
    }
  }

  lemma OneRowMore(rows: seq<Row>, i: nat, before: map<nat, nat>, after: map<nat, nat>)
    requires i < |rows| && Reparented(rows[..i], before)
    requires forall x :: x in after <==> x in before || Names(rows[i], x)
    requires forall x :: x in after ==> after[x] == if x in before then before[x] else rows[i].batch
    ensures Reparented(rows[..i + 1], after)
  {
    var done := rows[..i + 1];
    forall x | x in after ensures exists k :: 0 <= k < |done| && FirstNaming(done, k, x) && after[x] == done[k].batch {
      if x in before {
        var k :| 0 <= k < i && FirstNaming(rows[..i], k, x) && before[x] == rows[..i][k].batch;
        assert FirstNaming(done, k, x);
      } else {
        assert forall j :: 0 <= j < i ==> rows[..i][j] == done[j];
        assert FirstNaming(done, i, x);
      }
    }
    forall k, x | 0 <= k < |done| && Names(done[k], x) ensures x in after {
      if k < i {
        assert rows[..i][k] == done[k];
      }
    }
  }
}
