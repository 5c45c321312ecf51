/** The push pipeline (rdp/push/processor.py): batches, POSTs, accounting and the error list. */
module PushProcessing {
  import opened Common

  const MAX_ERRORS: nat := 300
  const MAX_ERROR_LEN: nat := 2000
  const MARKER := "\U{2026} further errors truncated \U{2026}"
  const BATCH_SIZE: nat := 10

  // ----- the error list -----

  function Truncated(msg: string): string {
    if |msg| > MAX_ERROR_LEN then msg[..MAX_ERROR_LEN - 1] + "\U{2026}" else msg
  }

  /** `_err` */
  function Appended(errors: seq<string>, msg: string): seq<string> {
    if errors != [] && errors[|errors| - 1] == MARKER then errors
    else if |errors| >= MAX_ERRORS - 1 then errors + [MARKER]
    else errors + [Truncated(msg)]
  }

  ghost predicate Capped(errors: seq<string>) {
    && |errors| <= MAX_ERRORS
    && (|errors| == MAX_ERRORS ==> errors[MAX_ERRORS - 1] == MARKER)
    && (forall i :: 0 <= i < |errors| ==> |errors[i]| <= MAX_ERROR_LEN && (errors[i] == MARKER ==> i == |errors| - 1))
  }

  lemma AppendedIsCapped(errors: seq<string>, msg: string)
    requires Capped(errors)
    ensures Capped(Appended(errors, msg)) && Appended(errors, msg) != []
    ensures errors <= Appended(errors, msg)
  {
  }

  function AppendedAll(errors: seq<string>, msgs: seq<string>): seq<string> {
    if msgs == [] then errors else Appended(AppendedAll(errors, msgs[..|msgs| - 1]), msgs[|msgs| - 1])
  }

  lemma {:induction false} AppendedAllIsCapped(errors: seq<string>, msgs: seq<string>)
    requires Capped(errors)
    ensures Capped(AppendedAll(errors, msgs)) && errors <= AppendedAll(errors, msgs)
    ensures AppendedAll(errors, msgs) == [] <==> errors == [] && msgs == []
  {
    if msgs != [] {
      AppendedAllIsCapped(errors, msgs[..|msgs| - 1]);
      AppendedIsCapped(AppendedAll(errors, msgs[..|msgs| - 1]), msgs[|msgs| - 1]);
    }
  }

  /** At most 2000 characters are kept; of a longer message the first 1999 and an ellipsis. */
  lemma LongMessages(msg: string)
    ensures |msg| <= 2000 ==> Truncated(msg) == msg
    ensures |msg| > 2000 ==> |Truncated(msg)| == 2000 && Truncated(msg)[..1999] == msg[..1999] && Truncated(msg)[1999] == '\U{2026}'
  {
  }

  /** The first 299 messages are kept in order; from the 300th on there is only the marker. */
  lemma {:induction false} ErrorListIsPrefix(msgs: seq<string>)
    requires forall i :: 0 <= i < |msgs| ==> Truncated(msgs[i]) != MARKER
    ensures AppendedAll([], msgs) ==
      if |msgs| < 300 then seq(|msgs|, i requires 0 <= i < |msgs| => Truncated(msgs[i]))
      else seq(299, i requires 0 <= i < 299 => Truncated(msgs[i])) + ["\U{2026} further errors truncated \U{2026}"]
  {
    if msgs != [] {
      ErrorListIsPrefix(msgs[..|msgs| - 1]);
    }
  }

  // ----- HOPE's answers -----

  datatype Kind = Households | Individuals | People

  /** An entry of the id mapping: a valid pair, or one whose key or value is refused. */
  datatype Entry = Pair(id: nat, tag: string) | Refused(text: string)

  /** `Mapped` is a reply of counts that also carries an id mapping. */
  datatype Reply =
    | RemoteErrors
    | Counts(processed: int, accepted: int)
    | Mapped(processed: int, accepted: int, mapping: seq<Entry>)
    | PeopleList(rdi: string, count: nat)
    | Unexpected

  datatype Answer = RequestFailed | Answered(reply: Reply)

  /** What HOPE saw, with the number of errors recorded at that moment. */
  datatype Call =
    | Create(errors: nat)
    | Post(kind: Kind, ids: seq<nat>, answer: Answer, errors: nat)
    | Complete(rdi: string, answer: Answer, errors: nat)

  predicate AcceptedInFull(kind: Kind, rdi: string, reply: Reply, expected: nat) {
    match kind
    case Households => (reply.Counts? || reply.Mapped?) && reply.processed == reply.accepted == expected
    case Individuals => reply.Mapped? && reply.processed == reply.accepted == expected
    case People => reply.PeopleList? && reply.rdi == rdi && reply.count == expected
  }

  predicate AllPairs(mapping: seq<Entry>) {
    forall i :: 0 <= i < |mapping| ==> mapping[i].Pair?
  }

  /** HOPE answered, accepted the whole batch and named every individual by a valid pair. */
  predicate Good(rdi: string, call: Call) {
    match call
    case Create(_) => true
    case Post(kind, ids, answer, _) =>
      && answer.Answered? && AcceptedInFull(kind, rdi, answer.reply, |ids|)
      && (kind == Individuals ==> AllPairs(answer.reply.mapping))
    case Complete(id, answer, _) => id == rdi && answer.Answered?
  }

  predicate AllGood(rdi: string, calls: seq<Call>) {
    forall i :: 0 <= i < |calls| ==> Good(rdi, calls[i])
  }

  function PostedIds(calls: seq<Call>, kind: Kind): seq<nat> {
    if calls == [] then []
    else
      var last := calls[|calls| - 1];
      PostedIds(calls[..|calls| - 1], kind) + if last.Post? && last.kind == kind then last.ids else []
  }

  // ----- the ids that HOPE gave to individuals -----

  /** Of several pairs for one id the last one counts. */
  function WithPairs(tags: map<nat, string>, mapping: seq<Entry>): map<nat, string> {
    if mapping == [] then tags
    else
      var earlier, last := WithPairs(tags, mapping[..|mapping| - 1]), mapping[|mapping| - 1];
      if last.Pair? then earlier[last.id := last.tag] else earlier
  }

  /** No later entry is a pair for the same id. */
  predicate LastPair(mapping: seq<Entry>, i: int) {
    && 0 <= i < |mapping| && mapping[i].Pair?
    && forall j :: i < j < |mapping| && mapping[j].Pair? ==> mapping[j].id != mapping[i].id
  }

  predicate Named(mapping: seq<Entry>, id: nat) {
    exists i :: 0 <= i < |mapping| && mapping[i].Pair? && mapping[i].id == id
  }

  lemma {:induction false} LastPairCounts(tags: map<nat, string>, mapping: seq<Entry>, i: nat)
    requires LastPair(mapping, i)
    ensures var all := WithPairs(tags, mapping); mapping[i].id in all && all[mapping[i].id] == mapping[i].tag
  {
    var n := |mapping| - 1;
    if i < n {
      assert mapping[..n][i] == mapping[i];
      assert forall j :: i < j < n ==> mapping[..n][j] == mapping[j];
      LastPairCounts(tags, mapping[..n], i);
    }
  }

  lemma {:induction false} UnnamedIdsStay(tags: map<nat, string>, mapping: seq<Entry>, id: nat)
    requires !Named(mapping, id)
    ensures var all := WithPairs(tags, mapping); (id in all <==> id in tags) && (id in all ==> all[id] == tags[id])
  {
    if mapping != [] {
      var n := |mapping| - 1;
      assert forall j :: 0 <= j < n ==> mapping[..n][j] == mapping[j];
      UnnamedIdsStay(tags, mapping[..n], id);
    }
  }

  /** The ids named in the replies to the individuals posted. */
  function Tags(calls: seq<Call>): map<nat, string> {
    if calls == [] then map[]
    else
      var earlier, last := Tags(calls[..|calls| - 1]), calls[|calls| - 1];
      if last.Post? && last.kind == Individuals && last.answer.Answered? && last.answer.reply.Mapped?
      then WithPairs(earlier, last.answer.reply.mapping) else earlier
  }

  // ----- what a household refers to -----

  datatype Role = NoRole | ById(id: nat) | ByTag | Invalid

  datatype References = References(roles: seq<Role>, members: seq<nat>)

  predicate RoleMapped(indIdMap: map<nat, string>, role: Role) {
    role.NoRole? || role.ByTag? || (role.ById? && role.id in indIdMap)
  }

  /** Every role and every member has a HOPE id. */
  predicate Resolved(indIdMap: map<nat, string>, r: References) {
    && (forall i :: 0 <= i < |r.roles| ==> RoleMapped(indIdMap, r.roles[i]))
    && (forall i :: 0 <= i < |r.members| ==> r.members[i] in indIdMap)
  }

  class PushProcessor {
    const serializer: seq<nat> -> seq<nat>
    const references: map<nat, References>
    /** HOPE's answer to a post or a completion that is the n-th call. */
    const replies: nat -> Answer
    var errors: seq<string>
    var total: map<Kind, nat>
    var indIdMap: map<nat, string>
    var hopeRdiId: Option<string>
    var calls: seq<Call>

    constructor (serializer: seq<nat> -> seq<nat>, references: map<nat, References>, replies: nat -> Answer)
      ensures this.serializer == serializer && this.references == references && this.replies == replies
      ensures Valid() && indIdMap == map[] && errors == [] && calls == [] && hopeRdiId.None?
    {
      this.serializer := serializer;
      this.references := references;
      this.replies := replies;
      errors := [];
      total := map[];
      indIdMap := map[];
      hopeRdiId := None;
      calls := [];
    }

    function Total(kind: Kind): nat
      reads this
    {
      if kind in total then total[kind] else 0
    }

    /** A post has at most ten rows and got HOPE's reply to it. */
    ghost predicate Honest(calls: seq<Call>) {
      forall i :: 0 <= i < |calls| ==>
        match calls[i]
        case Create(_) => true
        case Post(_, ids, answer, _) => 0 < |ids| <= 10 && answer == replies(i)
        case Complete(_, answer, _) => answer == replies(i)
    }

    /**
     * Nothing was sent after an error; without an error everything sent was accepted in full and
     * counted, and the ids that HOPE named are known.
     */
    ghost predicate Valid()
      reads this
    {
      && Capped(errors)
      && (forall i :: 0 <= i < |calls| ==> calls[i].errors == 0)
      && Honest(calls)
      && (errors == [] ==>
            && indIdMap == Tags(calls)
            && (calls != [] ==> hopeRdiId.Some?)
            && (calls != [] ==> AllGood(hopeRdiId.value, calls))
            && (forall k :: Total(k) == |PostedIds(calls, k)|))
    }

    method Err(msg: string)
      requires Capped(errors)
      modifies `errors
      ensures errors == Appended(old(errors), msg) && Capped(errors) && errors != []
    {
      AppendedIsCapped(errors, msg);
      if errors != [] && errors[|errors| - 1] == MARKER {
        return;
      }
      if |errors| >= MAX_ERRORS - 1 {
        errors := errors + [MARKER];
        return;
      }
      errors := errors + [Truncated(msg)];
    }

    /** Every preflight message becomes an error. */
    method Preflight(msgs: seq<string>)
      requires Capped(errors)
      modifies `errors
      ensures errors == AppendedAll(old(errors), msgs) && Capped(errors)
      ensures errors == [] <==> old(errors) == [] && msgs == []
    {
      for i := 0 to |msgs|
        invariant errors == AppendedAll(old(errors), msgs[..i]) && Capped(errors)
      {
        Err(msgs[i]);
        assert msgs[..i + 1][..i] == msgs[..i];
      }
      assert msgs[..|msgs|] == msgs;
      AppendedAllIsCapped(old(errors), msgs);
    }

    /** `rdi_create`; None is a failed request, Some(None) an answer without a valid id. */
    method RdiCreate(answer: Option<Option<string>>)
      requires Valid() && errors == [] && calls == []
      modifies `errors, `calls, `hopeRdiId
      ensures Valid() && calls == [Create(0)]
      ensures errors == [] <==> answer.Some? && answer.value.Some?
      ensures errors == [] ==> hopeRdiId == answer.value
    {
      assert indIdMap == map[] && forall k :: Total(k) == 0;
      calls := calls + [Create(|errors|)];
      NothingPosted();
      assert calls == [Create(0)] && Honest(calls);
      hide Capped, PostedIds, Tags, Appended;
      if answer.None? {
        Err("request failed");
        return;
      }
      if answer.value.None? {
        Err("can't create: no valid id in response");
        return;
      }
      hopeRdiId := answer.value;
      assert Capped(errors);
      assert indIdMap == Tags(calls);
      assert AllGood(hopeRdiId.value, calls);
      assert forall k :: Total(k) == |PostedIds(calls, k)|;
      assert forall i :: 0 <= i < |calls| ==> calls[i].errors == 0;
    }

    /** `map_role_value` and `map_members` for one household. */
    method MapReferences(r: References)
      requires Capped(errors)
      modifies `errors
      ensures Capped(errors)
      ensures errors == [] <==> old(errors) == [] && Resolved(indIdMap, r)
    {
      for i := 0 to |r.roles|
        invariant Capped(errors)
        invariant errors == [] <==> old(errors) == [] && forall j :: 0 <= j < i ==> RoleMapped(indIdMap, r.roles[j])
      {
        match r.roles[i] {
          case NoRole =>
          case ByTag =>
          case ById(id) =>
            if id !in indIdMap {
              Err("no mapping for a role");
            }
          case Invalid =>
            Err("invalid role");
        }
      }
      var missing := false;
      for i := 0 to |r.members|
        invariant missing <==> exists j :: 0 <= j < i && r.members[j] !in indIdMap
      {
        if r.members[i] !in indIdMap {
          missing := true;
        }
      }
      if missing {
        Err("no mapping for member ids");
      }
    }

    predicate AllResolved(batch: seq<nat>)
      reads `indIdMap
    {
      ResolvedIn(indIdMap, batch)
    }

    predicate ResolvedIn(tags: map<nat, string>, batch: seq<nat>) {
      forall i :: 0 <= i < |batch| && batch[i] in references ==> Resolved(tags, references[batch[i]])
    }

    /** Nothing has gone wrong with the first `at` rows; `tags` are the ids known before households are sent. */
    ghost predicate Fine(kind: Kind, rows: seq<nat>, at: nat, broken: set<nat>, tags: map<nat, string>, rdi: string, calls: seq<Call>)
      requires at <= |rows|
    {
      UnbrokenTo(at, broken) && (kind == Households ==> ResolvedIn(tags, rows[..at])) && AllGood(rdi, calls)
    }

    /** One batch more is fine exactly when the rows before it were and the batch is. */
    lemma OneBatchMore(kind: Kind, rows: seq<nat>, at: nat, broken: set<nat>, tags: map<nat, string>, rdi: string,
                       earlier: seq<Call>, later: seq<Call>)
      requires at < |rows| && at % BATCH_SIZE == 0 && earlier <= later
      ensures var batch := FirstBatch(rows[at..]);
        && at + |batch| <= |rows| && ((at + |batch|) % BATCH_SIZE == 0 || at + |batch| == |rows|)
        && (Fine(kind, rows, at + |batch|, broken, tags, rdi, later) <==>
              && Fine(kind, rows, at, broken, tags, rdi, earlier)
              && at !in broken && (kind == Households ==> ResolvedIn(tags, batch)) && AllGood(rdi, later))
        && (Fine(kind, rows, |rows|, broken, tags, rdi, later) ==> Fine(kind, rows, at + |batch|, broken, tags, rdi, later))
    {
      var batch := FirstBatch(rows[at..]);
      GoodParts(rdi, earlier, later);
      MoreResolved(tags, rows, at, batch);
      MoreUnbroken(rows, at, batch, broken);
      assert rows[..|rows|] == rows;
      hide AllGood, PushProcessor.ResolvedIn, UnbrokenTo;
    }

    /** The payload of a batch; preparing households may record errors. */
    method Prepare(kind: Kind, batch: seq<nat>) returns (payload: seq<nat>)
      requires Capped(errors)
      modifies `errors
      ensures Capped(errors) && payload == serializer(batch)
      ensures errors == [] <==> old(errors) == [] && (kind == Households ==> AllResolved(batch))
    {
      if kind == Households {
        for i := 0 to |batch|
          invariant Capped(errors)
          invariant errors == [] <==> old(errors) == [] && AllResolved(batch[..i])
        {
          if batch[i] in references {
            MapReferences(references[batch[i]]);
          }
          assert batch[..i + 1] == batch[..i] + [batch[i]];
        }
        assert batch[..|batch|] == batch;
      }
      payload := serializer(batch);
    }

    /** `load_mapping_from_api` joined into `ind_id_map`: of several pairs for one id the last one counts. */
    method LoadMapping(mapping: seq<Entry>)
      requires Capped(errors)
      modifies `errors, `indIdMap
      ensures Capped(errors)
      ensures errors == [] <==> old(errors) == [] && AllPairs(mapping)
      ensures indIdMap == WithPairs(old(indIdMap), mapping)
    {
      for i := 0 to |mapping|
        invariant Capped(errors)
        invariant errors == [] <==> old(errors) == [] && forall j :: 0 <= j < i ==> mapping[j].Pair?
        invariant indIdMap == WithPairs(old(indIdMap), mapping[..i])
      {
        assert mapping[..i + 1][..i] == mapping[..i];
        match mapping[i] {
          case Pair(id, tag) => indIdMap := indIdMap[id := tag];
          case Refused(text) => Err(text);
        }
      }
      assert mapping[..|mapping|] == mapping;
    }

    /** The three `_process_*_response` methods: an error, or the whole batch is counted. */
    method Process(kind: Kind, reply: Reply, ids: seq<nat>)
      requires Capped(errors) && hopeRdiId.Some?
      modifies `errors, `total, `indIdMap
      ensures Capped(errors)
      ensures errors == [] <==> old(errors) == [] && Good(hopeRdiId.value, Post(kind, ids, Answered(reply), 0))
      ensures AcceptedInFull(kind, hopeRdiId.value, reply, |ids|) ==>
        total == old(total)[kind := old(Total(kind)) + |ids|]
      ensures !AcceptedInFull(kind, hopeRdiId.value, reply, |ids|) ==> total == old(total)
      ensures indIdMap == if kind == Individuals && AcceptedInFull(kind, hopeRdiId.value, reply, |ids|)
        then WithPairs(old(indIdMap), reply.mapping) else old(indIdMap)
    {
      match reply {
        case RemoteErrors =>
          Err("remote returned errors");
        case Unexpected =>
          Err("unexpected response");
        case Counts(p, a) =>
          if kind != Households {
            Err("unexpected response");
          } else if p != a || a != |ids| {
            Err("accepted mismatch");
          } else {
            total := total[kind := Total(kind) + a];
          }
        case Mapped(p, a, mapping) =>
          if kind == People {
            Err("unexpected response");
          } else if p != a || a != |ids| {
            Err("accepted mismatch");
          } else {
            total := total[kind := Total(kind) + a];
            if kind == Individuals {
              LoadMapping(mapping);
            }
          }
        case PeopleList(rdi, count) =>
          if kind != People {
            Err("unexpected response");
          } else if Some(rdi) != hopeRdiId {
            Err("rdi mismatch");
          } else if count != |ids| {
            Err("people length mismatch");
          } else {
            total := total[kind := Total(kind) + |ids|];
          }
      }
    }

    lemma OneMoreHonest(before: seq<Call>, call: Call)
      requires Honest(before) && call.Post? && 0 < |call.ids| <= 10 && call.answer == replies(|before|)
      ensures Honest(before + [call])
    {
      assert forall i :: 0 <= i < |before| ==> (before + [call])[i] == before[i];
    }

    lemma OneMorePost(before: seq<Call>, all: seq<Call>, rdi: string, kind: Kind, ids: seq<nat>, answer: Answer)
      requires all == before + [Post(kind, ids, answer, 0)]
      ensures OnlyPosts(before, all) && PostedIds(all, kind) == PostedIds(before, kind) + ids
      ensures forall k :: k != kind ==> PostedIds(all, k) == PostedIds(before, k)
      ensures AllGood(rdi, all) <==> AllGood(rdi, before) && Good(rdi, Post(kind, ids, answer, 0))
      ensures Good(rdi, Post(kind, ids, answer, 0)) ==>
        && answer.Answered? && AcceptedInFull(kind, rdi, answer.reply, |ids|)
        && (kind == Individuals ==> answer.reply.Mapped? && Tags(all) == WithPairs(Tags(before), answer.reply.mapping))
      ensures kind != Individuals ==> Tags(all) == Tags(before)
    {
      var call := Post(kind, ids, answer, 0);
      assert all[..|before|] == before && all[|all| - 1] == call;
      PostedOneMore(all, kind);
      OneMoreGood(rdi, before, call);
      FailedIsBad(rdi, kind, ids);
      GoodIsFull(rdi, call);
      TagsOneMore(before, call);
      hide PostedIds, Good, AllGood, Tags, WithPairs, AcceptedInFull;
    }

    /** Sends one prepared batch; `false` stops the loop of `_push_batched`. */
    method PostBatch(kind: Kind, ids: seq<nat>) returns (goOn: bool)
      requires Valid() && errors == [] && hopeRdiId.Some? && 0 < |ids| <= 10
      modifies `errors, `total, `indIdMap, `calls
      ensures Valid() && (errors == [] ==> goOn)
      ensures OnlyPosts(old(calls), calls)
      ensures errors == [] <==> AllGood(hopeRdiId.value, calls)
      ensures kind != Individuals ==> indIdMap == old(indIdMap) && Tags(calls) == Tags(old(calls))
      ensures PostedIds(calls, kind) == PostedIds(old(calls), kind) + ids
      ensures forall k :: k != kind ==> PostedIds(calls, k) == PostedIds(old(calls), k)
    {
      ghost var before := calls;
      var answer := replies(|calls|);
      assert AllGood(hopeRdiId.value, before);
      calls := calls + [Post(kind, ids, answer, |errors|)];
      OneMoreHonest(before, Post(kind, ids, answer, 0));
      OneMorePost(before, calls, hopeRdiId.value, kind, ids, answer);
      hide PostedIds, Good, AllGood, Appended, Capped, AcceptedInFull, Tags, WithPairs, PushProcessor.Honest;
      match answer {
        case RequestFailed =>
          Err("request failed");
          return false;
        case Answered(reply) =>
          Process(kind, reply, ids);
          return true;
      }
    }

    /** What a push of one kind has achieved since `before`; without errors it has posted `sent`. */
    ghost predicate Sending(before: seq<Call>, failed: bool, kind: Kind, sent: seq<nat>)
      reads this
    {
      && Valid() && OnlyPosts(before, calls)
      && (failed ==> calls == before && errors != [])
      && (errors == [] ==> PostedIds(calls, kind) == PostedIds(before, kind) + sent)
      && (forall k :: k != kind ==> PostedIds(calls, k) == PostedIds(before, k))
      && (kind != Individuals ==> Tags(calls) == Tags(before))
    }

    lemma SendsMore(before: seq<Call>, kind: Kind, sent: seq<nat>, earlier: seq<Call>, batch: seq<nat>)
      requires Valid() && OnlyPosts(before, calls)
      requires PostedIds(earlier, kind) == PostedIds(before, kind) + sent
      requires PostedIds(calls, kind) == PostedIds(earlier, kind) + batch
      requires forall k :: k != kind ==> PostedIds(calls, k) == PostedIds(before, k)
      requires kind != Individuals ==> Tags(calls) == Tags(before)
      ensures Sending(before, false, kind, sent + batch)
    {
      hide PushProcessor.Valid, PostedIds, Tags, OnlyPosts;
    }

    /** Posts a prepared batch unless its payload is empty. */
    method PushPayload(kind: Kind, batch: seq<nat>, payload: seq<nat>, ghost before: seq<Call>, ghost failed: bool, ghost sent: seq<nat>)
      returns (goOn: bool)
      requires Sending(before, failed, kind, sent) && errors == [] && hopeRdiId.Some?
      requires 0 < |batch| <= 10 && payload == serializer(batch)
      modifies `errors, `total, `indIdMap, `calls
      ensures Sending(before, failed, kind, sent + SentOf(serializer, batch)) && old(calls) <= calls
      ensures errors == [] <==> AllGood(hopeRdiId.value, calls)
      ensures kind != Individuals ==> indIdMap == old(indIdMap)
      ensures !goOn ==> errors != []
    {
      assert AllGood(hopeRdiId.value, calls);
      ghost var earlier := calls;
      hide PushProcessor.Valid, PostedIds, AllGood, Tags, OnlyPosts;
      goOn := true;
      assert sent + [] == sent;
      if payload != [] {
        goOn := PostBatch(kind, batch);
        StillOnlyPosts(before, earlier, calls);
        SendsMore(before, kind, sent, earlier, batch);
      }
    }

    /** One turn of the loop of `_push_batched`. */
    method PushBatch(kind: Kind, batch: seq<nat>, broken: bool, ghost before: seq<Call>, ghost failed: bool, ghost sent: seq<nat>)
      returns (goOn: bool)
      requires Sending(before, failed, kind, sent) && hopeRdiId.Some? && 0 < |batch| <= 10
      modifies `errors, `total, `indIdMap, `calls
      ensures Sending(before, failed, kind, sent + SentOf(serializer, batch)) && old(calls) <= calls
      ensures errors == [] <==>
        && old(errors) == [] && !broken && (kind == Households ==> old(AllResolved(batch)))
        && AllGood(hopeRdiId.value, calls)
      ensures kind != Individuals ==> indIdMap == old(indIdMap)
      ensures !goOn ==> errors != [] && forall x :: Sending(before, failed, kind, x)
    {
      assert errors == [] ==> AllGood(hopeRdiId.value, calls);
      hide Capped, PostedIds, Good, AllGood, Appended, PushProcessor.AllResolved, Tags, PushProcessor.Honest;
      if broken {
        Err("prepare failed");
        return false;
      }
      var payload := Prepare(kind, batch);
      if errors != [] {
        return false;
      }
      goOn := PushPayload(kind, batch, payload, before, failed, sent);
    }

    /** Where the loop of `_push_batched` stands: `sent` is what a run without errors has posted. */
    ghost predicate LoopAt(kind: Kind, rows: seq<nat>, at: nat, broken: set<nat>, before: seq<Call>, failed: bool,
                           tags: map<nat, string>, sent: seq<nat>)
      reads this
    {
      && at <= |rows| && (at % BATCH_SIZE == 0 || at == |rows|) && hopeRdiId.Some?
      && sent + Sent(serializer, rows[at..]) == Sent(serializer, rows)
      && Sending(before, failed, kind, sent)
      && (kind != Individuals ==> indIdMap == tags)
      && (errors == [] <==> !failed && Fine(kind, rows, at, broken, tags, hopeRdiId.value, calls))
    }

    /** The loop was left early, with an error, and every later position would find the same. */
    ghost predicate Stopped(kind: Kind, rows: seq<nat>, broken: set<nat>, before: seq<Call>, failed: bool, tags: map<nat, string>)
      reads this
    {
      && hopeRdiId.Some? && errors != [] && (forall x :: Sending(before, failed, kind, x))
      && (kind != Individuals ==> indIdMap == tags)
      && (failed || !Fine(kind, rows, |rows|, broken, tags, hopeRdiId.value, calls))
    }

    /** One turn of the loop. */
    method PushTurn(kind: Kind, rows: seq<nat>, at: nat, broken: set<nat>, ghost before: seq<Call>, ghost failed: bool,
                    ghost tags: map<nat, string>, ghost sent: seq<nat>) returns (goOn: bool, next: nat, ghost sentNow: seq<nat>)
      requires LoopAt(kind, rows, at, broken, before, failed, tags, sent) && at < |rows|
      modifies `errors, `total, `indIdMap, `calls
      ensures at < next <= |rows|
      ensures goOn ==> LoopAt(kind, rows, next, broken, before, failed, tags, sentNow)
      ensures !goOn ==> Stopped(kind, rows, broken, before, failed, tags)
    {
      var batch := FirstBatch(rows[at..]);
      SentStep(serializer, rows, at, sent);
      ghost var earlier := calls;
      sentNow := sent + SentOf(serializer, batch);
      next := at + |batch|;
      assert batch != [];
      hide PushProcessor.Sending, Sent, SentOf, AllGood, Tags, OnlyPosts, PushProcessor.Fine, PushProcessor.ResolvedIn, PushProcessor.Honest;
      goOn := PushBatch(kind, batch, at in broken, before, failed, sent);
      OneBatchMore(kind, rows, at, broken, tags, hopeRdiId.value, earlier, calls);
    }

    /** `_push_batched` over a query set; `broken` are the batches whose files cannot be stored. */
    method PushBatched(kind: Kind, queryset: Option<seq<nat>>, broken: set<nat>)
      requires Valid()
      modifies `errors, `total, `indIdMap, `calls
      ensures Sending(old(calls), old(errors) != [], kind, if queryset.Some? then Sent(serializer, queryset.value) else [])
      ensures hopeRdiId.None? || queryset.None? ==> calls == old(calls) && errors != []
      ensures hopeRdiId.Some? && queryset.Some? ==>
        (errors == [] <==>
          old(errors) == [] && Fine(kind, queryset.value, |queryset.value|, broken, old(indIdMap), hopeRdiId.value, calls))
      ensures kind != Individuals ==> indIdMap == old(indIdMap)
    {
      if hopeRdiId.None? {
        Err("can't push: hope_rdi_id is not set");
        return;
      }
      if queryset.None? {
        Err("can't push: queryset is not set");
        return;
      }
      var rows, at := queryset.value, 0;
      ghost var sent, failed, tags := [], errors != [], indIdMap;
      assert rows[0..] == rows && rows[..0] == [];
      assert LoopAt(kind, rows, 0, broken, old(calls), failed, tags, []);
      NothingSent(serializer);
      hide PushProcessor.LoopAt, PushProcessor.Stopped, PushProcessor.Sending, PushProcessor.Fine, PushProcessor.Valid, Sent;
      while at < |rows|
        invariant at <= |rows| && LoopAt(kind, rows, at, broken, old(calls), failed, tags, sent)
      {
        var goOn;
        goOn, at, sent := PushTurn(kind, rows, at, broken, old(calls), failed, tags, sent);
        if !goOn {
          StoppedMeans(kind, rows, broken, old(calls), failed, tags);
          return;
        }
      }
      LoopEnds(kind, rows, broken, old(calls), failed, tags, sent);
    }

    lemma StoppedMeans(kind: Kind, rows: seq<nat>, broken: set<nat>, before: seq<Call>, failed: bool, tags: map<nat, string>)
      requires Stopped(kind, rows, broken, before, failed, tags)
      ensures Sending(before, failed, kind, Sent(serializer, rows)) && errors != []
      ensures kind != Individuals ==> indIdMap == tags
      ensures hopeRdiId.Some? && (failed || !Fine(kind, rows, |rows|, broken, tags, hopeRdiId.value, calls))
    {
    }

    lemma LoopEnds(kind: Kind, rows: seq<nat>, broken: set<nat>, before: seq<Call>, failed: bool, tags: map<nat, string>, sent: seq<nat>)
      requires LoopAt(kind, rows, |rows|, broken, before, failed, tags, sent)
      ensures Sending(before, failed, kind, Sent(serializer, rows))
      ensures kind != Individuals ==> indIdMap == tags
      ensures hopeRdiId.Some? && (errors == [] <==> !failed && Fine(kind, rows, |rows|, broken, tags, hopeRdiId.value, calls))
    {
      assert rows[|rows|..] == [];
      NothingSent(serializer);
    }

    lemma MoreResolved(tags: map<nat, string>, rows: seq<nat>, at: nat, batch: seq<nat>)
      requires at + |batch| <= |rows| && batch == rows[at..at + |batch|]
      ensures ResolvedIn(tags, rows[..at + |batch|]) <==> ResolvedIn(tags, rows[..at]) && ResolvedIn(tags, batch)
      ensures ResolvedIn(tags, rows) ==> ResolvedIn(tags, rows[..at + |batch|])
    {
      hide Resolved;
      var more := rows[..at + |batch|];
      assert forall i :: 0 <= i < at ==> more[i] == rows[..at][i];
      assert forall i :: 0 <= i < |batch| ==> more[at + i] == batch[i];
      assert forall i :: at <= i < |more| ==> more[i] == batch[i - at];
    }

    method RdiComplete()
      requires Valid() && errors == []
      modifies `errors, `calls
      ensures Capped(errors) && Honest(calls)
      ensures hopeRdiId.None? ==> calls == old(calls) && errors != []
      ensures hopeRdiId.Some? ==>
        && |calls| == |old(calls)| + 1 && calls[..|old(calls)|] == old(calls)
        && calls[|old(calls)|] == Complete(hopeRdiId.value, replies(|old(calls)|), 0)
        && (errors == [] <==> replies(|old(calls)|).Answered?)
    {
      if hopeRdiId.None? {
        Err("can't complete: hope_rdi_id is not set");
        return;
      }
      var answer := replies(|calls|);
      calls := calls + [Complete(hopeRdiId.value, answer, |errors|)];
      if answer.RequestFailed? {
        Err("request failed");
      }
    }

    lemma FineThroughout(kind: Kind, rows: seq<nat>, broken: set<nat>, tags: map<nat, string>, rdi: string, calls: seq<Call>)
      ensures Fine(kind, rows, |rows|, broken, tags, rdi, calls) <==>
        Unbroken(rows, broken) && (kind == Households ==> ResolvedIn(tags, rows)) && AllGood(rdi, calls)
    {
      assert rows[..|rows|] == rows;
    }

    /** Nothing has gone wrong with the beneficiaries of this mode. */
    ghost predicate AllFine(calls: seq<Call>, rdi: string, masterDetail: bool,
                            individuals: seq<nat>, households: seq<nat>, people: seq<nat>, broken: map<Kind, set<nat>>) {
      && AllGood(rdi, calls)
      && AllUnbroken(masterDetail, individuals, households, people, broken)
      && (masterDetail ==> ResolvedIn(Tags(calls), households))
    }

    /** The posts of one mode so far, without errors. */
    ghost predicate AllPosted(calls: seq<Call>, masterDetail: bool, individuals: seq<nat>, households: seq<nat>, people: seq<nat>) {
      && PostedIds(calls, Individuals) == (if masterDetail then Sent(serializer, individuals) else [])
      && PostedIds(calls, Households) == (if masterDetail then Sent(serializer, households) else [])
      && PostedIds(calls, People) == (if masterDetail then [] else Sent(serializer, people))
    }

    /** The steps before the completion. */
    method PushBeneficiaries(masterDetail: bool, individuals: seq<nat>, households: seq<nat>, people: seq<nat>, broken: map<Kind, set<nat>>)
      requires Valid() && errors == [] && calls == [Create(0)] && hopeRdiId.Some?
      modifies `errors, `total, `indIdMap, `calls
      ensures Valid() && OnlyPosts([Create(0)], calls)
      ensures errors == [] ==> AllPosted(calls, masterDetail, individuals, households, people)
      ensures errors == [] <==> AllFine(calls, hopeRdiId.value, masterDetail, individuals, households, people, broken)
    {
      NothingPosted();
      hide PostedIds, Capped, AllGood, Sent, Unbroken, Tags, PushProcessor.ResolvedIn, PushProcessor.Fine, PushProcessor.Honest;
      if masterDetail {
        ghost var tags := indIdMap;
        PushBatched(Individuals, Some(individuals), BrokenOf(broken, Individuals));
        FineThroughout(Individuals, individuals, BrokenOf(broken, Individuals), tags, hopeRdiId.value, calls);
        if errors != [] {
          return;
        }
        PushBatched(Households, Some(households), BrokenOf(broken, Households));
        FineThroughout(Households, households, BrokenOf(broken, Households), indIdMap, hopeRdiId.value, calls);
      } else {
        ghost var tags := indIdMap;
        PushBatched(People, Some(people), BrokenOf(broken, People));
        FineThroughout(People, people, BrokenOf(broken, People), tags, hopeRdiId.value, calls);
      }
    }

    /**
     * `_push_data_steps`, with the errors raised after each step. It is `ok` exactly when its last
     * call is a completion that HOPE answered, and exactly when every call got a good answer, no
     * batch failed to be prepared and every household's references were among the ids that HOPE
     * named in its replies to the individuals.
     */
    method PushData(masterDetail: bool, individuals: seq<nat>, households: seq<nat>, people: seq<nat>, broken: map<Kind, set<nat>>)
      returns (ok: bool)
      requires Valid() && errors == [] && calls == [Create(0)] && hopeRdiId.Some?
      modifies `errors, `total, `indIdMap, `calls
      ensures ok <==> errors == []
      ensures Capped(errors) && Honest(calls) && forall i :: 0 <= i < |calls| ==> calls[i].errors == 0
      ensures ok <==> Completed(calls) && calls[|calls| - 1].answer.Answered?
      ensures ok <==> AllFine(calls, hopeRdiId.value, masterDetail, individuals, households, people, broken)
      ensures Completed(calls) ==>
        && OnlyPosts([Create(0)], calls[..|calls| - 1]) && calls[|calls| - 1].rdi == hopeRdiId.value
        && AllGood(hopeRdiId.value, calls[..|calls| - 1])
        && AllPosted(calls, masterDetail, individuals, households, people)
        && forall k :: Total(k) == |PostedIds(calls, k)|
    {
      hide PushProcessor.AllFine, PushProcessor.AllPosted, PostedIds, Capped, AllGood, OnlyPosts, PushProcessor.Honest;
      PushBeneficiaries(masterDetail, individuals, households, people, broken);
      if errors != [] {
        PostsDoNotComplete(calls);
        return false;
      }
      ghost var posted, rdi := calls, hopeRdiId.value;
      assert forall k :: Total(k) == |PostedIds(posted, k)|;
      RdiComplete();
      CompletionKeeps(posted, calls, rdi, masterDetail, individuals, households, people, broken);
      return errors == [];
    }

    lemma CompletionKeeps(posted: seq<Call>, calls: seq<Call>, rdi: string, masterDetail: bool,
                          individuals: seq<nat>, households: seq<nat>, people: seq<nat>, broken: map<Kind, set<nat>>)
      requires |calls| == |posted| + 1 && calls[..|posted|] == posted && calls[|posted|].Complete? && calls[|posted|].rdi == rdi
      requires AllFine(posted, rdi, masterDetail, individuals, households, people, broken)
      requires AllPosted(posted, masterDetail, individuals, households, people)
      ensures AllPosted(calls, masterDetail, individuals, households, people)
      ensures AllFine(calls, rdi, masterDetail, individuals, households, people, broken) <==> calls[|posted|].answer.Answered?
      ensures AllGood(rdi, posted) && forall k :: PostedIds(calls, k) == PostedIds(posted, k)
    {
      CompletionPostsNothing(posted, calls, rdi);
      hide PostedIds, AllGood, Sent, AllUnbroken, Tags, PushProcessor.ResolvedIn;
    }
  }

  function BrokenOf(broken: map<Kind, set<nat>>, kind: Kind): set<nat> {
    if kind in broken then broken[kind] else {}
  }

  /** No batch fails to be prepared; a batch is named by the position of its first row. */
  predicate UnbrokenTo(end: nat, broken: set<nat>) {
    forall at :: 0 <= at < end && at % BATCH_SIZE == 0 ==> at !in broken
  }

  predicate Unbroken(rows: seq<nat>, broken: set<nat>) {
    UnbrokenTo(|rows|, broken)
  }

  predicate AllUnbroken(masterDetail: bool, individuals: seq<nat>, households: seq<nat>, people: seq<nat>, broken: map<Kind, set<nat>>) {
    if masterDetail
    then Unbroken(individuals, BrokenOf(broken, Individuals)) && Unbroken(households, BrokenOf(broken, Households))
    else Unbroken(people, BrokenOf(broken, People))
  }

  lemma MoreUnbroken(rows: seq<nat>, at: nat, batch: seq<nat>, broken: set<nat>)
    requires at % BATCH_SIZE == 0 && at < |rows| && batch == FirstBatch(rows[at..])
    ensures UnbrokenTo(at + |batch|, broken) <==> UnbrokenTo(at, broken) && at !in broken
    ensures Unbroken(rows, broken) ==> UnbrokenTo(at + |batch|, broken)
    ensures (at + |batch|) % BATCH_SIZE == 0 || at + |batch| == |rows|
  {
  }

  lemma OneMoreGood(rdi: string, before: seq<Call>, call: Call)
    ensures AllGood(rdi, before + [call]) <==> AllGood(rdi, before) && Good(rdi, call)
    ensures AllGood(rdi, [call]) <==> Good(rdi, call)
  {
    hide Good;
    var all := before + [call];
    assert forall i :: 0 <= i < |before| ==> all[i] == before[i];
    assert all[|before|] == call && [call][0] == call;
  }

  lemma TagsOneMore(before: seq<Call>, call: Call)
    ensures Tags(before + [call]) ==
      if call.Post? && call.kind == Individuals && call.answer.Answered? && call.answer.reply.Mapped?
      then WithPairs(Tags(before), call.answer.reply.mapping) else Tags(before)
  {
    assert (before + [call])[..|before|] == before;
  }

  lemma FailedIsBad(rdi: string, kind: Kind, ids: seq<nat>)
    ensures !Good(rdi, Post(kind, ids, RequestFailed, 0))
  {
  }

  lemma GoodIsFull(rdi: string, call: Call)
    ensures Good(rdi, call) && call.Post? ==>
      && call.answer.Answered? && AcceptedInFull(call.kind, rdi, call.answer.reply, |call.ids|)
      && (call.kind == Individuals ==> call.answer.reply.Mapped?)
  {
  }

  lemma GoodParts(rdi: string, before: seq<Call>, all: seq<Call>)
    requires before <= all
    ensures AllGood(rdi, all) <==> AllGood(rdi, before) && AllGood(rdi, all[|before|..])
  {
    hide Good;
    assert forall i :: 0 <= i < |before| ==> all[i] == before[i];
    assert forall i :: |before| <= i < |all| ==> all[i] == all[|before|..][i - |before|];
  }

  lemma PostsDoNotComplete(calls: seq<Call>)
    requires OnlyPosts([Create(0)], calls)
    ensures !Completed(calls)
  {
    if |calls| == 1 {
      assert calls[0] == [Create(0)][0];
    }
  }

  lemma NothingPosted()
    ensures forall k :: PostedIds([Create(0)], k) == []
    ensures Tags([Create(0)]) == map[]
  {
    assert [Create(0)][..0] == [];
  }

  lemma CompletionPostsNothing(posted: seq<Call>, calls: seq<Call>, rdi: string)
    requires |calls| == |posted| + 1 && calls[..|posted|] == posted && calls[|posted|].Complete? && calls[|posted|].rdi == rdi
    ensures forall k :: PostedIds(calls, k) == PostedIds(posted, k)
    ensures Tags(calls) == Tags(posted)
    ensures AllGood(rdi, calls) <==> AllGood(rdi, posted) && calls[|posted|].answer.Answered?
  {
    assert calls == posted + [calls[|posted|]];
    OneMoreGood(rdi, posted, calls[|posted|]);
  }

  /** The rows that a push of this mode sends of each kind. */
  function ToPush(masterDetail: bool, kind: Kind, individuals: seq<nat>, households: seq<nat>, people: seq<nat>): seq<nat> {
    match kind
    case Individuals => if masterDetail then individuals else []
    case Households => if masterDetail then households else []
    case People => if masterDetail then [] else people
  }

  ghost predicate IsIdentity(serializer: seq<nat> -> seq<nat>) {
    forall batch :: serializer(batch) == batch
  }

  lemma IdentitySendsAll(serializer: seq<nat> -> seq<nat>, rows: seq<nat>)
    requires IsIdentity(serializer)
    ensures Sent(serializer, rows) == rows
  {
    SentIsEverything(serializer, rows);
  }

  /**
   * The data push from preflight to completion: HOPE is not asked for an RDI after a preflight
   * error, and it is told to complete the RDI only if every batch was accepted in full and the
   * totals are the numbers of rows. The push succeeds exactly when HOPE answered the completion,
   * that is when every answer was good and nothing failed on this side.
   */
  method PushRdp(processor: PushProcessor, preflight: seq<string>, created: Option<Option<string>>, masterDetail: bool,
                 individuals: seq<nat>, households: seq<nat>, people: seq<nat>, broken: map<Kind, set<nat>>) returns (ok: bool)
    requires processor.Valid() && processor.errors == [] && processor.calls == []
    requires IsIdentity(processor.serializer)
    modifies processor
    ensures ok <==> processor.errors == []
    ensures Capped(processor.errors) && processor.Honest(processor.calls)
    ensures forall i :: 0 <= i < |processor.calls| ==> processor.calls[i].errors == 0
    ensures preflight != [] ==> processor.calls == [] && !ok
    ensures ok <==> Completed(processor.calls) && processor.calls[|processor.calls| - 1].answer.Answered?
    ensures ok <==>
      && preflight == [] && created.Some? && created.value.Some?
      && processor.hopeRdiId == created.value
      && processor.AllFine(processor.calls, processor.hopeRdiId.value, masterDetail, individuals, households, people, broken)
    ensures Completed(processor.calls) ==>
      && processor.hopeRdiId.Some?
      && AllGood(processor.hopeRdiId.value, processor.calls[..|processor.calls| - 1])
      && (forall k :: PostedIds(processor.calls, k) == ToPush(masterDetail, k, individuals, households, people))
      && (forall k :: processor.Total(k) == |ToPush(masterDetail, k, individuals, households, people)|)
  {
    hide PostedIds, Sent, Good, Capped, OnlyPosts, IsIdentity, AllUnbroken, Tags, PushProcessor.ResolvedIn;
    IdentitySendsAll(processor.serializer, individuals);
    IdentitySendsAll(processor.serializer, households);
    IdentitySendsAll(processor.serializer, people);
    processor.Preflight(preflight);
    if processor.errors != [] {
      return false;
    }
    processor.RdiCreate(created);
    if processor.errors != [] {
      return false;
    }
    ok := processor.PushData(masterDetail, individuals, households, people, broken);
  }

  predicate OnlyPosts(before: seq<Call>, after: seq<Call>) {
    && before <= after
    && forall i :: |before| <= i < |after| ==> after[i].Post?
  }

  lemma StillOnlyPosts(before: seq<Call>, between: seq<Call>, after: seq<Call>)
    requires OnlyPosts(before, between) && OnlyPosts(between, after)
    ensures OnlyPosts(before, after) && between <= after
  {
    assert forall i :: 0 <= i < |between| ==> after[i] == between[i];
  }

  predicate Completed(calls: seq<Call>) {
    calls != [] && calls[|calls| - 1].Complete?
  }

  /** `itertools.batched` */
  function FirstBatch(rows: seq<nat>): seq<nat> {
    if |rows| <= BATCH_SIZE then rows else rows[..BATCH_SIZE]
  }

  function SentOf(serializer: seq<nat> -> seq<nat>, batch: seq<nat>): seq<nat> {
    if serializer(batch) == [] then [] else batch
  }

  /** The rows of the batches whose payload is not empty. */
  function Sent(serializer: seq<nat> -> seq<nat>, rows: seq<nat>): seq<nat> {
    if rows == [] then []
    else
      SentOf(serializer, FirstBatch(rows)) + Sent(serializer, rows[|FirstBatch(rows)|..])
  }

  lemma SentStep(serializer: seq<nat> -> seq<nat>, rows: seq<nat>, at: nat, sent: seq<nat>)
    requires at < |rows|
    ensures var batch := FirstBatch(rows[at..]);
      && at + |batch| <= |rows|
      && sent + Sent(serializer, rows[at..]) == sent + SentOf(serializer, batch) + Sent(serializer, rows[at + |batch|..])
  {
    var batch := FirstBatch(rows[at..]);
    assert rows[at..][|batch|..] == rows[at + |batch|..];
  }

  lemma NothingSent(serializer: seq<nat> -> seq<nat>)
    ensures Sent(serializer, []) == []
  {
  }

  predicate EveryBatchSerialized(serializer: seq<nat> -> seq<nat>, rows: seq<nat>) {
    rows == [] || (serializer(FirstBatch(rows)) != [] && EveryBatchSerialized(serializer, rows[|FirstBatch(rows)|..]))
  }

  /** All rows are sent, in order, exactly when the serializer empties no batch; the identity serializer does not. */
  lemma {:induction false} SentIsEverything(serializer: seq<nat> -> seq<nat>, rows: seq<nat>)
    ensures |Sent(serializer, rows)| <= |rows|
    ensures Sent(serializer, rows) == rows <==> EveryBatchSerialized(serializer, rows)
    ensures |Sent(serializer, rows)| == |rows| <==> EveryBatchSerialized(serializer, rows)
    ensures IsIdentity(serializer) ==> EveryBatchSerialized(serializer, rows)
  {
    if rows != [] {
      var batch := FirstBatch(rows);
      SentIsEverything(serializer, rows[|batch|..]);
      assert rows == batch + rows[|batch|..];
    }
  }

  lemma PostedOneMore(calls: seq<Call>, kind: Kind)
    requires calls != [] && calls[|calls| - 1].Post? && calls[|calls| - 1].kind == kind
    ensures forall k :: k != kind ==> PostedIds(calls, k) == PostedIds(calls[..|calls| - 1], k)
    ensures PostedIds(calls, kind) == PostedIds(calls[..|calls| - 1], kind) + calls[|calls| - 1].ids
  {
  }
}
