/**
 * Files of an ONA submission: attachment names are first replaced by pending markers
 * (contrib/ona/attachments.py) and the markers later by references to stored files
 * (utils/flex_files.py), over nested JSON.
 */
module FlexMarkers {
  import opened Common

  datatype Json = Text(s: string) | Scalar(n: int) | Null | Object(fields: Fields) | Array(items: Items)

  /** The entries of a mapping in order. */
  datatype Fields = NoFields | Field(key: string, value: Json, rest: Fields)

  datatype Items = NoItems | Item(head: Json, tail: Items)

  datatype File = File(content: seq<bv8>, mimetype: string)

  const PENDING_PREFIX := "flexfile-pending:"

  function PendingMarker(key: string): string {
    PENDING_PREFIX + key
  }

  function ParseMarker(s: string): Option<string> {
    if PENDING_PREFIX <= s then Some(s[|PENDING_PREFIX|..]) else None
  }

  lemma MarkerRoundTrip(key: string)
    ensures ParseMarker(PendingMarker(key)) == Some(key)
  {
    assert PendingMarker(key)[|PENDING_PREFIX|..] == key;
  }

  /** What follows the last slash. */
  function LastSegment(key: string): string {
    if key == [] then [] else if key[|key| - 1] == '/' then [] else LastSegment(key[..|key| - 1]) + [key[|key| - 1]]
  }

  /** The last segment begins with an underscore. */
  predicate IsSysField(key: string) {
    "_" <= LastSegment(key)
  }

  // ----- what marking and resolving yield -----

  /** A memo of downloads: None is an attachment that was skipped. */
  type Fetched = map<string, Option<File>>

  function MarkedText(fetched: Fetched, s: string): string {
    if s !in fetched then s else if fetched[s].Some? then PendingMarker(s) else ""
  }

  function Marked(fetched: Fetched, v: Json): Json {
    match v
    case Text(s) => Text(MarkedText(fetched, s))
    case Object(fields) => Object(MarkedFields(fetched, fields))
    case Array(items) => Array(MarkedItems(fetched, items))
    case _ => v
  }

  function MarkedFields(fetched: Fetched, f: Fields): Fields {
    if f == NoFields then f
    else Field(f.key, if IsSysField(f.key) then f.value else Marked(fetched, f.value), MarkedFields(fetched, f.rest))
  }

  function MarkedItems(fetched: Fetched, l: Items): Items {
    if l == NoItems then l else Item(Marked(fetched, l.head), MarkedItems(fetched, l.tail))
  }

  function ResolvedText(references: map<string, string>, s: string): string {
    var key := ParseMarker(s);
    if key.None? then s else if key.value in references then references[key.value] else ""
  }

  function Resolved(references: map<string, string>, v: Json): Json {
    match v
    case Text(s) => Text(ResolvedText(references, s))
    case Object(fields) => Object(ResolvedFields(references, fields))
    case Array(items) => Array(ResolvedItems(references, items))
    case _ => v
  }

  function ResolvedFields(references: map<string, string>, f: Fields): Fields {
    if f == NoFields then f
    else Field(f.key, Resolved(references, f.value), ResolvedFields(references, f.rest))
  }

  function ResolvedItems(references: map<string, string>, l: Items): Items {
    if l == NoItems then l else Item(Resolved(references, l.head), ResolvedItems(references, l.tail))
  }

  // ----- one direct substitution -----

  function SubstitutedText(fetched: Fetched, references: map<string, string>, s: string): string {
    if s !in fetched then s
    else if fetched[s].None? || s !in references then ""
    else references[s]
  }

  function Substituted(fetched: Fetched, references: map<string, string>, v: Json): Json {
    match v
    case Text(s) => Text(SubstitutedText(fetched, references, s))
    case Object(fields) => Object(SubstitutedFields(fetched, references, fields))
    case Array(items) => Array(SubstitutedItems(fetched, references, items))
    case _ => v
  }

  function SubstitutedFields(fetched: Fetched, references: map<string, string>, f: Fields): Fields {
    if f == NoFields then f
    else Field(f.key, if IsSysField(f.key) then f.value else Substituted(fetched, references, f.value),
               SubstitutedFields(fetched, references, f.rest))
  }

  function SubstitutedItems(fetched: Fetched, references: map<string, string>, l: Items): Items {
    if l == NoItems then l
    else Item(Substituted(fetched, references, l.head), SubstitutedItems(fetched, references, l.tail))
  }

  /** No text begins with the pending prefix. */
  predicate NoMarker(v: Json) {
    match v
    case Text(s) => ParseMarker(s).None?
    case Object(fields) => NoMarkerFields(fields)
    case Array(items) => NoMarkerItems(items)
    case _ => true
  }

  predicate NoMarkerFields(f: Fields) {
    f == NoFields || (NoMarker(f.value) && NoMarkerFields(f.rest))
  }

  predicate NoMarkerItems(l: Items) {
    l == NoItems || (NoMarker(l.head) && NoMarkerItems(l.tail))
  }

  /** No text that marking leaves alone begins with the pending prefix. */
  predicate NoStray(fetched: Fetched, v: Json) {
    match v
    case Text(s) => s in fetched || ParseMarker(s).None?
    case Object(fields) => NoStrayFields(fetched, fields)
    case Array(items) => NoStrayItems(fetched, items)
    case _ => true
  }

  predicate NoStrayFields(fetched: Fetched, f: Fields) {
    f == NoFields
    || ((if IsSysField(f.key) then NoMarker(f.value) else NoStray(fetched, f.value)) && NoStrayFields(fetched, f.rest))
  }

  predicate NoStrayItems(fetched: Fetched, l: Items) {
    l == NoItems || (NoStray(fetched, l.head) && NoStrayItems(fetched, l.tail))
  }

  /** References are no markers. */
  ghost predicate PlainReferences(references: map<string, string>) {
    forall k :: k in references ==> ParseMarker(references[k]).None?
  }

  // ----- resolving -----

  lemma {:induction false} NoMarkerSurvives(references: map<string, string>, v: Json)
    requires PlainReferences(references)
    ensures NoMarker(Resolved(references, v))
  {
    match v {
      case Object(fields) => NoMarkerSurvivesFields(references, fields);
      case Array(items) => NoMarkerSurvivesItems(references, items);
      case _ =>
    }
  }

  lemma {:induction false} NoMarkerSurvivesFields(references: map<string, string>, f: Fields)
    requires PlainReferences(references)
    ensures NoMarkerFields(ResolvedFields(references, f))
  {
    if f != NoFields {
      NoMarkerSurvives(references, f.value);
      NoMarkerSurvivesFields(references, f.rest);
    }
  }

  lemma {:induction false} NoMarkerSurvivesItems(references: map<string, string>, l: Items)
    requires PlainReferences(references)
    ensures NoMarkerItems(ResolvedItems(references, l))
  {
    if l != NoItems {
      NoMarkerSurvives(references, l.head);
      NoMarkerSurvivesItems(references, l.tail);
    }
  }

  /** Resolving changes a tree exactly when it holds a marker. */
  lemma {:induction false} ResolvedIsIdentity(references: map<string, string>, v: Json)
    requires PlainReferences(references)
    ensures Resolved(references, v) == v <==> NoMarker(v)
  {
    match v {
      case Object(fields) => ResolvedFieldsIsIdentity(references, fields);
      case Array(items) => ResolvedItemsIsIdentity(references, items);
      case _ =>
    }
  }

  lemma {:induction false} ResolvedFieldsIsIdentity(references: map<string, string>, f: Fields)
    requires PlainReferences(references)
    ensures ResolvedFields(references, f) == f <==> NoMarkerFields(f)
  {
    if f != NoFields {
      ResolvedIsIdentity(references, f.value);
      ResolvedFieldsIsIdentity(references, f.rest);
    }
  }

  lemma {:induction false} ResolvedItemsIsIdentity(references: map<string, string>, l: Items)
    requires PlainReferences(references)
    ensures ResolvedItems(references, l) == l <==> NoMarkerItems(l)
  {
    if l != NoItems {
      ResolvedIsIdentity(references, l.head);
      ResolvedItemsIsIdentity(references, l.tail);
    }
  }

  // ----- marking, then resolving -----

  lemma TextInTwoPhases(fetched: Fetched, references: map<string, string>, s: string)
    requires PlainReferences(references)
    ensures ResolvedText(references, MarkedText(fetched, s)) == SubstitutedText(fetched, references, s)
      <==> s in fetched || ParseMarker(s).None?
  {
    MarkerRoundTrip(s);
  }

  /**
   * The two phases amount to one substitution of attachment names by references if and only
   * if no text that is not an attachment answer begins with the pending prefix.
   */
  lemma {:induction false} TwoPhasesAreOne(fetched: Fetched, references: map<string, string>, v: Json)
    requires PlainReferences(references)
    ensures Resolved(references, Marked(fetched, v)) == Substituted(fetched, references, v) <==> NoStray(fetched, v)
  {
    match v {
      case Text(s) => TextInTwoPhases(fetched, references, s);
      case Object(fields) => TwoPhasesAreOneFields(fetched, references, fields);
      case Array(items) => TwoPhasesAreOneItems(fetched, references, items);
      case _ =>
    }
  }

  lemma {:induction false} TwoPhasesAreOneFields(fetched: Fetched, references: map<string, string>, f: Fields)
    requires PlainReferences(references)
    ensures ResolvedFields(references, MarkedFields(fetched, f)) == SubstitutedFields(fetched, references, f)
      <==> NoStrayFields(fetched, f)
  {
    if f != NoFields {
      if IsSysField(f.key) {
        ResolvedIsIdentity(references, f.value);
      } else {
        TwoPhasesAreOne(fetched, references, f.value);
      }
      TwoPhasesAreOneFields(fetched, references, f.rest);
    }
  }

  lemma {:induction false} TwoPhasesAreOneItems(fetched: Fetched, references: map<string, string>, l: Items)
    requires PlainReferences(references)
    ensures ResolvedItems(references, MarkedItems(fetched, l)) == SubstitutedItems(fetched, references, l)
      <==> NoStrayItems(fetched, l)
  {
    if l != NoItems {
      TwoPhasesAreOne(fetched, references, l.head);
      TwoPhasesAreOneItems(fetched, references, l.tail);
    }
  }

  // ----- flattening in between -----

  function Path(prefix: string, key: string): string {
    if prefix == "" then key else prefix + "/" + key
  }

  /** `flatten_ona_data`: nested mappings become slash paths, and a later path replaces an equal earlier one. */
  function Flatten(f: Fields, prefix: string): map<string, Json> {
    if f == NoFields then map[]
    else
      var path := Path(prefix, f.key);
      (if f.value.Object? then Flatten(f.value.fields, path) else map[path := f.value]) + Flatten(f.rest, prefix)
  }

  lemma UnionsAssociate(a: map<string, Json>, b: map<string, Json>, c: map<string, Json>)
    ensures (a + b) + c == a + (b + c)
  {
  }

  /** The loop, which updates the output with each flattened value. */
  method FlattenOnaData(f: Fields, prefix: string) returns (output: map<string, Json>)
    ensures output == Flatten(f, prefix)
    decreases f
  {
    output := map[];
    var rest := f;
    while rest != NoFields
      invariant output + Flatten(rest, prefix) == Flatten(f, prefix)
      invariant rest == f || rest < f
      decreases rest
    {
      var path := Path(prefix, rest.key);
      ghost var first := if rest.value.Object? then Flatten(rest.value.fields, path) else map[path := rest.value];
      assert Flatten(rest, prefix) == first + Flatten(rest.rest, prefix);
      UnionsAssociate(output, first, Flatten(rest.rest, prefix));
      if rest.value.Object? {
        var nested := FlattenOnaData(rest.value.fields, path);
        output := output + nested;
      } else {
        output := output[path := rest.value];
      }
      assert output + Flatten(rest.rest, prefix) == Flatten(f, prefix);
      hide Flatten;
      rest := rest.rest;
    }
  }

  /** The values that are no mappings, in the order of the document, each with its path. */
  function Leaves(f: Fields, prefix: string): seq<(string, Json)> {
    if f == NoFields then []
    else
      var path := if prefix == "" then f.key else prefix + "/" + f.key;
      (if f.value.Object? then Leaves(f.value.fields, path) else [(path, f.value)]) + Leaves(f.rest, prefix)
  }

  predicate HasPath(leaves: seq<(string, Json)>, path: string) {
    exists i :: 0 <= i < |leaves| && leaves[i].0 == path
  }

  predicate LastAt(leaves: seq<(string, Json)>, i: int, path: string) {
    0 <= i < |leaves| && leaves[i].0 == path && forall j :: i < j < |leaves| ==> leaves[j].0 != path
  }

  /** The flattened tree holds at every path of a leaf the last leaf with that path, and nothing else. */
  ghost predicate HoldsLast(flat: map<string, Json>, leaves: seq<(string, Json)>) {
    && (forall p :: p in flat <==> HasPath(leaves, p))
    && (forall i, p :: LastAt(leaves, i, p) ==> p in flat && flat[p] == leaves[i].1)
  }

  lemma LaterLeavesWin(flat: map<string, Json>, leaves: seq<(string, Json)>, moreFlat: map<string, Json>, more: seq<(string, Json)>)
    requires HoldsLast(flat, leaves) && HoldsLast(moreFlat, more)
    ensures HoldsLast(flat + moreFlat, leaves + more)
  {
    var all := leaves + more;
    assert forall i :: 0 <= i < |leaves| ==> all[i] == leaves[i];
    assert forall i :: 0 <= i < |more| ==> all[|leaves| + i] == more[i];
    forall p ensures HasPath(all, p) <==> HasPath(leaves, p) || HasPath(more, p) {
      if i :| 0 <= i < |leaves| && leaves[i].0 == p {
        assert all[i].0 == p;
      }
      if i :| 0 <= i < |more| && more[i].0 == p {
        assert all[|leaves| + i].0 == p;
      }
    }
    forall i, p | LastAt(all, i, p) ensures p in flat + moreFlat && (flat + moreFlat)[p] == all[i].1 {
      if i >= |leaves| {
        assert forall j :: i - |leaves| < j < |more| ==> more[j] == all[|leaves| + j];
        assert LastAt(more, i - |leaves|, p);
      } else {
        assert forall j :: 0 <= j < |more| ==> more[j] == all[|leaves| + j];
        assert !HasPath(more, p) && LastAt(leaves, i, p);
      }
    }
  }

  lemma {:induction false} FlattenHoldsLastLeaf(f: Fields, prefix: string)
    ensures HoldsLast(Flatten(f, prefix), Leaves(f, prefix))
  {
    if f != NoFields {
      var path := Path(prefix, f.key);
      FlattenHoldsLastLeaf(f.rest, prefix);
      if f.value.Object? {
        FlattenHoldsLastLeaf(f.value.fields, path);
        LaterLeavesWin(Flatten(f.value.fields, path), Leaves(f.value.fields, path), Flatten(f.rest, prefix), Leaves(f.rest, prefix));
      } else {
        OneLeaf(path, f.value);
        LaterLeavesWin(map[path := f.value], [(path, f.value)], Flatten(f.rest, prefix), Leaves(f.rest, prefix));
      }
    }
  }

  lemma OneLeaf(path: string, value: Json)
    ensures HoldsLast(map[path := value], [(path, value)])
  {
    assert [(path, value)][0].0 == path;
  }

  ghost predicate SameResolved(references: map<string, string>, flat: map<string, Json>, resolved: map<string, Json>) {
    && resolved.Keys == flat.Keys
    && forall k :: k in flat ==> resolved[k] == Resolved(references, flat[k])
  }

  /** Markers may be resolved before or after flattening. */
  lemma {:induction false} ResolvingCommutesWithFlattening(references: map<string, string>, f: Fields, prefix: string)
    ensures SameResolved(references, Flatten(f, prefix), Flatten(ResolvedFields(references, f), prefix))
  {
    if f != NoFields {
      ResolvingCommutesWithFlattening(references, f.rest, prefix);
      if f.value.Object? {
        ResolvingCommutesWithFlattening(references, f.value.fields, Path(prefix, f.key));
      }
    }
  }

  // ----- marking after flattening -----

  /** Whether a system field encloses the value that each path of the flattened tree holds. */
  function Enclosed(f: Fields, prefix: string, inside: bool): map<string, bool> {
    if f == NoFields then map[]
    else
      var path := Path(prefix, f.key);
      (if f.value.Object? then Enclosed(f.value.fields, path, inside || IsSysField(f.key)) else map[path := inside])
      + Enclosed(f.rest, prefix, inside)
  }

  /** Marking replaces the text s by another one. */
  predicate Changes(fetched: Fetched, s: string) {
    s in fetched && (fetched[s].Some? || s != "")
  }

  ghost predicate NamesNothing(fetched: Fetched, v: Json) {
    forall s :: s in Answers(v) ==> !Changes(fetched, s)
  }

  /** The flattened tree marked entry by entry, as marking a mapping does. */
  ghost predicate MarkedByPath(fetched: Fetched, flat: map<string, Json>, marked: map<string, Json>) {
    && marked.Keys == flat.Keys
    && forall p :: p in flat ==> marked[p] == if IsSysField(p) then flat[p] else Marked(fetched, flat[p])
  }

  lemma ChangedText(fetched: Fetched, s: string)
    ensures MarkedText(fetched, s) == s <==> !Changes(fetched, s)
  {
    assert |PendingMarker(s)| > |s|;
  }

  /** Marking leaves a tree alone exactly when no text outside its system fields names an attachment. */
  lemma {:induction false} MarkedIsIdentity(fetched: Fetched, v: Json)
    ensures Marked(fetched, v) == v <==> NamesNothing(fetched, v)
  {
    match v {
      case Text(s) => ChangedText(fetched, s);
      case Object(fields) => MarkedFieldsIsIdentity(fetched, fields);
      case Array(items) => MarkedItemsIsIdentity(fetched, items);
      case _ =>
    }
  }

  lemma {:induction false} MarkedFieldsIsIdentity(fetched: Fetched, f: Fields)
    ensures MarkedFields(fetched, f) == f <==> forall s :: s in FieldAnswers(f) ==> !Changes(fetched, s)
  {
    if f != NoFields {
      MarkedIsIdentity(fetched, f.value);
      MarkedFieldsIsIdentity(fetched, f.rest);
    }
  }

  lemma {:induction false} MarkedItemsIsIdentity(fetched: Fetched, l: Items)
    ensures MarkedItems(fetched, l) == l <==> forall s :: s in ItemAnswers(l) ==> !Changes(fetched, s)
  {
    if l != NoItems {
      MarkedIsIdentity(fetched, l.head);
      MarkedItemsIsIdentity(fetched, l.tail);
    }
  }

  lemma {:induction false} SegmentAfterSlash(prefix: string, key: string)
    ensures LastSegment(prefix + "/" + key) == LastSegment(key)
  {
    var path := prefix + "/" + key;
    if key != "" && key[|key| - 1] != '/' {
      assert path[..|path| - 1] == prefix + "/" + key[..|key| - 1];
      SegmentAfterSlash(prefix, key[..|key| - 1]);
    }
  }

  lemma PathIsSysField(prefix: string, key: string)
    ensures IsSysField(Path(prefix, key)) == IsSysField(key)
  {
    SegmentAfterSlash(prefix, key);
  }

  /** What marking before flattening, inside a system field or outside, leaves at every path. */
  ghost predicate MarkedWhereAllowed(fetched: Fetched, flat: map<string, Json>, enclosed: map<string, bool>, marked: map<string, Json>) {
    && marked.Keys == flat.Keys == enclosed.Keys
    && forall p :: p in flat ==> marked[p] == if enclosed[p] || IsSysField(p) then flat[p] else Marked(fetched, flat[p])
  }

  lemma UnionMarked(fetched: Fetched, flat: map<string, Json>, enclosed: map<string, bool>, marked: map<string, Json>,
                    moreFlat: map<string, Json>, moreEnclosed: map<string, bool>, moreMarked: map<string, Json>)
    requires MarkedWhereAllowed(fetched, flat, enclosed, marked)
    requires MarkedWhereAllowed(fetched, moreFlat, moreEnclosed, moreMarked)
    ensures MarkedWhereAllowed(fetched, flat + moreFlat, enclosed + moreEnclosed, marked + moreMarked)
  {
    hide Marked, IsSysField;
  }

  lemma {:induction false} MarkedThenFlattened(fetched: Fetched, f: Fields, prefix: string, inside: bool)
    ensures MarkedWhereAllowed(fetched, Flatten(f, prefix), Enclosed(f, prefix, inside),
      Flatten(if inside then f else MarkedFields(fetched, f), prefix))
  {
    if f != NoFields {
      var path, kept := Path(prefix, f.key), inside || IsSysField(f.key);
      var value := if kept then f.value else Marked(fetched, f.value);
      MarkedThenFlattened(fetched, f.rest, prefix, inside);
      PathIsSysField(prefix, f.key);
      if f.value.Object? {
        MarkedThenFlattened(fetched, f.value.fields, path, kept);
        UnionMarked(fetched, Flatten(f.value.fields, path), Enclosed(f.value.fields, path, kept), Flatten(value.fields, path),
          Flatten(f.rest, prefix), Enclosed(f.rest, prefix, inside),
          Flatten(if inside then f.rest else MarkedFields(fetched, f.rest), prefix));
      } else {
        UnionMarked(fetched, map[path := f.value], map[path := inside], map[path := value],
          Flatten(f.rest, prefix), Enclosed(f.rest, prefix, inside),
          Flatten(if inside then f.rest else MarkedFields(fetched, f.rest), prefix));
      }
    }
  }

  /**
   * Marking commutes with flattening if and only if no value that the flattened tree keeps names
   * an attachment while a system field encloses it and its own path does not end in one.
   */
  lemma MarkingCommutesWithFlattening(fetched: Fetched, submission: Fields)
    ensures var flat, enclosed := Flatten(submission, ""), Enclosed(submission, "", false);
      && enclosed.Keys == flat.Keys
      && (MarkedByPath(fetched, flat, Flatten(MarkedFields(fetched, submission), ""))
          <==> forall p :: p in flat && enclosed[p] && !IsSysField(p) ==> NamesNothing(fetched, flat[p]))
  {
    MarkedThenFlattened(fetched, submission, "", false);
    var flat := Flatten(submission, "");
    forall p | p in flat ensures Marked(fetched, flat[p]) == flat[p] <==> NamesNothing(fetched, flat[p]) {
      MarkedIsIdentity(fetched, flat[p]);
    }
    hide Flatten, Enclosed, Marked, MarkedFields, NamesNothing, IsSysField;
  }

  /** The condition fails at one text below a system field: there flattening hides the underscore that protects it. */
  lemma MarkingDoesNotCommuteWithFlattening()
    ensures var f := Field("_", Object(Field("p", Text("a"), NoFields)), NoFields);
      var fetched: Fetched := map["a" := Some(File([], ""))];
      && MarkedFields(fetched, f) == f
      && Flatten(f, "") == map["_/p" := Text("a")] && Marked(fetched, Text("a")) != Text("a")
      && !IsSysField("_/p")
      && !MarkedByPath(fetched, Flatten(f, ""), Flatten(MarkedFields(fetched, f), ""))
  {
    hide Marked, MarkedText;
    SegmentsOf();
    FlattenedOnce();
    MarkedOnce();
    var f := Field("_", Object(Field("p", Text("a"), NoFields)), NoFields);
    assert "_/p" in Flatten(f, "");
  }

  lemma SegmentsOf()
    ensures IsSysField("_") && !IsSysField("_/p")
  {
    assert "_"[..0] == "" && LastSegment("") == "";
    assert "_/p"[..2] == "_/" && LastSegment("_/") == "";
    assert LastSegment("_/p") == "p";
  }

  lemma FlattenedOnce()
    ensures Flatten(Field("_", Object(Field("p", Text("a"), NoFields)), NoFields), "") == map["_/p" := Text("a")]
  {
    assert Path("", "_") == "_" && Path("_", "p") == "_/p";
    var inner := Field("p", Text("a"), NoFields);
    assert Flatten(inner, "_") == map["_/p" := Text("a")];
  }

  lemma MarkedOnce()
    ensures Marked(map["a" := Some(File([], ""))], Text("a")) != Text("a")
  {
    assert |PendingMarker("a")| > 1;
  }

  // ----- the whole pipeline -----

  /** What substituting before flattening, inside a system field or outside, leaves at every path. */
  ghost predicate SubstitutedWhereAllowed(fetched: Fetched, references: map<string, string>, flat: map<string, Json>,
                                          enclosed: map<string, bool>, substituted: map<string, Json>) {
    && substituted.Keys == flat.Keys == enclosed.Keys
    && forall p :: p in flat ==>
      substituted[p] == if enclosed[p] || IsSysField(p) then flat[p] else Substituted(fetched, references, flat[p])
  }

  lemma UnionSubstituted(fetched: Fetched, references: map<string, string>,
                         flat: map<string, Json>, enclosed: map<string, bool>, substituted: map<string, Json>,
                         moreFlat: map<string, Json>, moreEnclosed: map<string, bool>, moreSubstituted: map<string, Json>)
    requires SubstitutedWhereAllowed(fetched, references, flat, enclosed, substituted)
    requires SubstitutedWhereAllowed(fetched, references, moreFlat, moreEnclosed, moreSubstituted)
    ensures SubstitutedWhereAllowed(fetched, references, flat + moreFlat, enclosed + moreEnclosed, substituted + moreSubstituted)
  {
    hide Substituted, IsSysField;
  }

  lemma {:induction false} SubstitutedThenFlattened(fetched: Fetched, references: map<string, string>, f: Fields, prefix: string, inside: bool)
    ensures SubstitutedWhereAllowed(fetched, references, Flatten(f, prefix), Enclosed(f, prefix, inside),
      Flatten(if inside then f else SubstitutedFields(fetched, references, f), prefix))
  {
    if f != NoFields {
      var path, kept := Path(prefix, f.key), inside || IsSysField(f.key);
      var value := if kept then f.value else Substituted(fetched, references, f.value);
      SubstitutedThenFlattened(fetched, references, f.rest, prefix, inside);
      PathIsSysField(prefix, f.key);
      if f.value.Object? {
        SubstitutedThenFlattened(fetched, references, f.value.fields, path, kept);
        UnionSubstituted(fetched, references, Flatten(f.value.fields, path), Enclosed(f.value.fields, path, kept), Flatten(value.fields, path),
          Flatten(f.rest, prefix), Enclosed(f.rest, prefix, inside),
          Flatten(if inside then f.rest else SubstitutedFields(fetched, references, f.rest), prefix));
      } else {
        UnionSubstituted(fetched, references, map[path := f.value], map[path := inside], map[path := value],
          Flatten(f.rest, prefix), Enclosed(f.rest, prefix, inside),
          Flatten(if inside then f.rest else SubstitutedFields(fetched, references, f.rest), prefix));
      }
    }
  }

  /** No value that the flattened tree keeps holds a text with the pending prefix that marking did not put there. */
  ghost predicate NoStrayLeft(fetched: Fetched, flat: map<string, Json>, enclosed: map<string, bool>)
    requires flat.Keys == enclosed.Keys
  {
    forall p :: p in flat ==> if enclosed[p] || IsSysField(p) then NoMarker(flat[p]) else NoStray(fetched, flat[p])
  }

  /**
   * The whole pipeline on a submission: mark, flatten, resolve is substitute, flatten if and only if
   * no stray text is left in the flattened tree; a submission without any is enough.
   */
  lemma PipelineIsSubstitution(fetched: Fetched, references: map<string, string>, submission: Fields)
    requires PlainReferences(references)
    ensures var flat, enclosed := Flatten(submission, ""), Enclosed(submission, "", false);
      && enclosed.Keys == flat.Keys
      && (SameResolved(references, Flatten(MarkedFields(fetched, submission), ""),
            Flatten(SubstitutedFields(fetched, references, submission), ""))
          <==> NoStrayLeft(fetched, flat, enclosed))
    ensures NoStrayFields(fetched, submission) ==>
      NoStrayLeft(fetched, Flatten(submission, ""), Enclosed(submission, "", false))
  {
    MarkedThenFlattened(fetched, submission, "", false);
    SubstitutedThenFlattened(fetched, references, submission, "", false);
    PipelineByPath(fetched, references, Flatten(submission, ""), Enclosed(submission, "", false),
      Flatten(MarkedFields(fetched, submission), ""), Flatten(SubstitutedFields(fetched, references, submission), ""));
    if NoStrayFields(fetched, submission) {
      ResolvingCommutesWithFlattening(references, MarkedFields(fetched, submission), "");
      TwoPhasesAreOneFields(fetched, references, submission);
    }
  }

  lemma PipelineByPath(fetched: Fetched, references: map<string, string>, flat: map<string, Json>, enclosed: map<string, bool>,
                       marked: map<string, Json>, substituted: map<string, Json>)
    requires PlainReferences(references)
    requires MarkedWhereAllowed(fetched, flat, enclosed, marked)
    requires SubstitutedWhereAllowed(fetched, references, flat, enclosed, substituted)
    ensures SameResolved(references, marked, substituted) <==> NoStrayLeft(fetched, flat, enclosed)
  {
    forall p | p in flat
      ensures substituted[p] == Resolved(references, marked[p])
        <==> if enclosed[p] || IsSysField(p) then NoMarker(flat[p]) else NoStray(fetched, flat[p])
    {
      ResolvedIsIdentity(references, flat[p]);
      TwoPhasesAreOne(fetched, references, flat[p]);
    }
    hide Marked, Substituted, Resolved, NoMarker, NoStray, IsSysField;
  }

  // ----- the two phases as they run -----

  /** The texts outside system fields: the candidates for attachment names. */
  function Answers(v: Json): set<string> {
    match v
    case Text(s) => {s}
    case Object(fields) => FieldAnswers(fields)
    case Array(items) => ItemAnswers(items)
    case _ => {}
  }

  function FieldAnswers(f: Fields): set<string> {
    if f == NoFields then {} else (if IsSysField(f.key) then {} else Answers(f.value)) + FieldAnswers(f.rest)
  }

  function ItemAnswers(l: Items): set<string> {
    if l == NoItems then {} else Answers(l.head) + ItemAnswers(l.tail)
  }

  /** The memo grew by attachments that v does not name, so v is marked as before. */
  ghost predicate Grown(before: Fetched, after: Fetched) {
    forall s :: s in before ==> s in after && after[s] == before[s]
  }

  lemma {:induction false} MarkedIsStable(before: Fetched, after: Fetched, v: Json)
    requires Grown(before, after) && forall s :: s in Answers(v) && s in after ==> s in before
    ensures Marked(after, v) == Marked(before, v)
  {
    match v {
      case Object(fields) => MarkedFieldsIsStable(before, after, fields);
      case Array(items) => MarkedItemsIsStable(before, after, items);
      case _ =>
    }
  }

  lemma {:induction false} MarkedFieldsIsStable(before: Fetched, after: Fetched, f: Fields)
    requires Grown(before, after) && forall s :: s in FieldAnswers(f) && s in after ==> s in before
    ensures MarkedFields(after, f) == MarkedFields(before, f)
  {
    if f != NoFields {
      if !IsSysField(f.key) {
        MarkedIsStable(before, after, f.value);
      }
      MarkedFieldsIsStable(before, after, f.rest);
    }
  }

  lemma {:induction false} MarkedItemsIsStable(before: Fetched, after: Fetched, l: Items)
    requires Grown(before, after) && forall s :: s in ItemAnswers(l) && s in after ==> s in before
    ensures MarkedItems(after, l) == MarkedItems(before, l)
  {
    if l != NoItems {
      MarkedIsStable(before, after, l.head);
      MarkedItemsIsStable(before, after, l.tail);
    }
  }

  /** `download_attachments`: `fetched` is its memo, `downloads` what the remote saw, `replies` what it answers. */
  class Downloader {
    const attachments: set<string>
    const replies: nat -> Option<File>
    var fetched: Fetched
    var downloads: seq<string>

    constructor (attachments: set<string>, replies: nat -> Option<File>)
      ensures this.attachments == attachments && this.replies == replies && Valid() && fetched == map[]
    {
      this.attachments := attachments;
      this.replies := replies;
      fetched := map[];
      downloads := [];
    }

    /** Every attachment in the memo was downloaded exactly once, and the memo holds the reply to its download. */
    ghost predicate Valid()
      reads this
    {
      && fetched.Keys <= attachments
      && NoDuplicates(downloads)
      && (forall s :: s in downloads <==> s in fetched)
      && (forall i :: 0 <= i < |downloads| ==> fetched[downloads[i]] == replies(i))
    }

    ghost predicate Covers(before: Fetched, answers: set<string>)
      reads this
    {
      Valid() && Grown(before, fetched) && forall s :: s in fetched <==> s in before || (s in answers && s in attachments)
    }

    method Download(s: string)
      requires Valid() && s in attachments && s !in fetched
      modifies this
      ensures Valid() && fetched == old(fetched)[s := replies(|old(downloads)|)]
    {
      fetched := fetched[s := replies(|downloads|)];
      downloads := downloads + [s];
    }

    method MarkText(s: string) returns (r: string)
      requires Valid()
      modifies this
      ensures Covers(old(fetched), {s}) && r == MarkedText(fetched, s)
    {
      if s !in attachments {
        return s;
      }
      if s !in fetched {
        Download(s);
      }
      return if fetched[s].Some? then PendingMarker(s) else "";
    }

    method Mark(v: Json) returns (r: Json)
      requires Valid()
      modifies this
      ensures Covers(old(fetched), Answers(v)) && r == Marked(fetched, v)
      decreases v, 1
    {
      match v {
        case Text(s) =>
          var marked := MarkText(s);
          return Text(marked);
        case Object(fields) =>
          var marked := MarkMapping(fields);
          return Object(marked);
        case Array(items) =>
          var marked := MarkItems(items);
          return Array(marked);
        case _ =>
          return v;
      }
    }

    method MarkMapping(f: Fields) returns (r: Fields)
      requires Valid()
      modifies this
      ensures Covers(old(fetched), FieldAnswers(f)) && r == MarkedFields(fetched, f)
      decreases f, 0
    {
      if f == NoFields {
        return f;
      }
      var value := f.value;
      if !IsSysField(f.key) {
        value := Mark(f.value);
      }
      ghost var before := fetched;
      var rest := MarkMapping(f.rest);
      if !IsSysField(f.key) {
        MarkedIsStable(before, fetched, f.value);
      }
      return Field(f.key, value, rest);
    }

    method MarkItems(l: Items) returns (r: Items)
      requires Valid()
      modifies this
      ensures Covers(old(fetched), ItemAnswers(l)) && r == MarkedItems(fetched, l)
      decreases l, 0
    {
      if l == NoItems {
        return l;
      }
      var head := Mark(l.head);
      ghost var before := fetched;
      var tail := MarkItems(l.tail);
      MarkedIsStable(before, fetched, l.head);
      return Item(head, tail);
    }
  }

  // ----- resolving the markers of one record -----

  datatype Row = Row(field: string, file: File)

  /** The keys of the markers in a tree. */
  function Markers(v: Json): set<string> {
    match v
    case Text(s) => if ParseMarker(s).Some? then {ParseMarker(s).value} else {}
    case Object(fields) => FieldMarkers(fields)
    case Array(items) => ItemMarkers(items)
    case _ => {}
  }

  function FieldMarkers(f: Fields): set<string> {
    if f == NoFields then {} else Markers(f.value) + FieldMarkers(f.rest)
  }

  function ItemMarkers(l: Items): set<string> {
    if l == NoItems then {} else Markers(l.head) + ItemMarkers(l.tail)
  }

  ghost predicate Extends(before: map<string, string>, after: map<string, string>) {
    forall k :: k in before ==> k in after && after[k] == before[k]
  }

  lemma {:induction false} ResolvedIsStable(before: map<string, string>, after: map<string, string>, v: Json)
    requires Extends(before, after) && forall k :: k in Markers(v) && k in after ==> k in before
    ensures Resolved(after, v) == Resolved(before, v)
  {
    match v {
      case Object(fields) => ResolvedFieldsIsStable(before, after, fields);
      case Array(items) => ResolvedItemsIsStable(before, after, items);
      case _ =>
    }
  }

  lemma {:induction false} ResolvedFieldsIsStable(before: map<string, string>, after: map<string, string>, f: Fields)
    requires Extends(before, after) && forall k :: k in FieldMarkers(f) && k in after ==> k in before
    ensures ResolvedFields(after, f) == ResolvedFields(before, f)
  {
    if f != NoFields {
      ResolvedIsStable(before, after, f.value);
      ResolvedFieldsIsStable(before, after, f.rest);
    }
  }

  lemma {:induction false} ResolvedItemsIsStable(before: map<string, string>, after: map<string, string>, l: Items)
    requires Extends(before, after) && forall k :: k in ItemMarkers(l) && k in after ==> k in before
    ensures ResolvedItems(after, l) == ResolvedItems(before, l)
  {
    if l != NoItems {
      ResolvedIsStable(before, after, l.head);
      ResolvedItemsIsStable(before, after, l.tail);
    }
  }

  ghost predicate Injective(uuid: nat -> string) {
    forall i, j :: uuid(i) == uuid(j) ==> i == j
  }

  /** A freshly imported record; `written` are the marker keys whose files were stored, in order. */
  class Record {
    const uuid: nat -> string
    var flexFields: Fields
    var rawData: Fields
    var rows: seq<Row>
    var written: seq<string>

    constructor (uuid: nat -> string, flexFields: Fields, rawData: Fields)
      requires Injective(uuid)
      ensures this.uuid == uuid && this.flexFields == flexFields && this.rawData == rawData
      ensures rows == [] && written == []
    {
      this.uuid := uuid;
      this.flexFields := flexFields;
      this.rawData := rawData;
      rows := [];
      written := [];
    }

    function Reference(row: nat): string {
      "flexfile:" + uuid(row)
    }

    lemma ReferencesDiffer(i: nat, j: nat)
      requires Injective(uuid)
      ensures Reference(i) == Reference(j) ==> i == j
    {
      assert Reference(i)[9..] == uuid(i) && Reference(j)[9..] == uuid(j);
    }

    lemma ReferencesAreNoMarkers(row: nat)
      ensures ParseMarker(Reference(row)).None?
    {
      assert Reference(row)[8] == ':' && PENDING_PREFIX[8] == '-';
    }

    /** Every reference names a row with the bytes of its file, and every file was written once. */
    ghost predicate Stored(files: map<string, File>, references: map<string, string>)
      reads this
    {
      && Injective(uuid)
      && NoDuplicates(written)
      && (forall k :: k in written <==> k in references)
      && (forall k :: k in references ==> k in files && Holds(rows, references[k], files[k].content))
    }

    /** The reference names one of these rows and no other, and that row has these bytes. */
    ghost predicate Holds(rows: seq<Row>, reference: string, content: seq<bv8>) {
      && (exists i :: 0 <= i < |rows| && reference == Reference(i))
      && (forall i :: 0 <= i < |rows| && reference == Reference(i) ==> rows[i].file.content == content)
      && (forall i, j :: 0 <= i < j < |rows| && reference == Reference(i) ==> reference != Reference(j))
    }

    lemma HoldsAt(rows: seq<Row>, i: nat)
      requires Injective(uuid) && i < |rows|
      ensures Holds(rows, Reference(i), rows[i].file.content)
    {
      forall j, k | 0 <= j < |rows| && Reference(i) == Reference(j) && 0 <= k < |rows| && Reference(k) == Reference(i)
        ensures j == i && k == i
      {
        ReferencesDiffer(i, j);
        ReferencesDiffer(i, k);
      }
    }

    /** `write_flex_file`: a row of the same field and content is reused, with its own mimetype. */
    method WriteFlexFile(field: string, file: File) returns (reference: string)
      requires Injective(uuid)
      modifies `rows
      ensures old(rows) <= rows
      ensures rows == old(rows) || rows == old(rows) + [Row(field, file)]
      ensures Holds(rows, reference, file.content)
    {
      for i := 0 to |rows|
        invariant rows == old(rows)
      {
        if rows[i].field == field && rows[i].file.content == file.content {
          HoldsAt(rows, i);
          return Reference(i);
        }
      }
      rows := rows + [Row(field, file)];
      HoldsAt(rows, |rows| - 1);
      return Reference(|rows| - 1);
    }

    ghost predicate Resolves(files: map<string, File>, before: map<string, string>, after: map<string, string>, keys: set<string>)
      reads this
    {
      && Stored(files, after) && Extends(before, after)
      && forall k :: k in after <==> k in before || (k in keys && k in files)
    }

    method ResolveText(name: string, s: string, files: map<string, File>, references: map<string, string>)
      returns (r: string, after: map<string, string>)
      requires Stored(files, references)
      modifies `rows, `written
      ensures Resolves(files, references, after, Markers(Text(s))) && r == ResolvedText(after, s)
    {
      after := references;
      var key := ParseMarker(s);
      if key.None? {
        return s, references;
      }
      if key.value !in references {
        if key.value !in files {
          return "", references;
        }
        var reference := WriteFlexFile(name, files[key.value]);
        written := written + [key.value];
        after := references[key.value := reference];
        KeepsStored(files, references, after, key.value, old(rows), old(written));
      }
      return after[key.value], after;
    }

    lemma KeepsStored(files: map<string, File>, references: map<string, string>, after: map<string, string>, key: string,
                      oldRows: seq<Row>, oldWritten: seq<string>)
      requires key !in references && key in files && after.Keys == references.Keys + {key} && Extends(references, after)
      requires oldRows <= rows && written == oldWritten + [key]
      requires Injective(uuid) && NoDuplicates(oldWritten) && forall k :: k in oldWritten <==> k in references
      requires forall k :: k in references ==> k in files && Holds(oldRows, references[k], files[k].content)
      requires Holds(rows, after[key], files[key].content)
      ensures Stored(files, after)
    {
      forall k | k in after && k != key ensures k in files && Holds(rows, after[k], files[k].content) {
        var i :| 0 <= i < |oldRows| && references[k] == Reference(i);
        assert rows[i] == oldRows[i];
        HoldsAt(rows, i);
      }
    }

    method ResolveValue(name: string, v: Json, files: map<string, File>, references: map<string, string>)
      returns (r: Json, after: map<string, string>)
      requires Stored(files, references)
      modifies `rows, `written
      ensures Resolves(files, references, after, Markers(v)) && r == Resolved(after, v)
      decreases v, 1
    {
      match v {
        case Text(s) =>
          var resolved;
          resolved, after := ResolveText(name, s, files, references);
          return Text(resolved), after;
        case Object(fields) =>
          var resolved;
          resolved, after := ResolveMapping(fields, files, references);
          return Object(resolved), after;
        case Array(items) =>
          var resolved;
          resolved, after := ResolveItems(name, items, files, references);
          return Array(resolved), after;
        case _ =>
          return v, references;
      }
    }

    /** A file is stored under the key of the mapping that holds its marker. */
    method ResolveMapping(f: Fields, files: map<string, File>, references: map<string, string>)
      returns (r: Fields, after: map<string, string>)
      requires Stored(files, references)
      modifies `rows, `written
      ensures Resolves(files, references, after, FieldMarkers(f)) && r == ResolvedFields(after, f)
      decreases f, 0
    {
      if f == NoFields {
        return f, references;
      }
      var value, middle := ResolveValue(f.key, f.value, files, references);
      var rest;
      rest, after := ResolveMapping(f.rest, files, middle);
      ResolvedIsStable(middle, after, f.value);
      return Field(f.key, value, rest), after;
    }

    method ResolveItems(name: string, l: Items, files: map<string, File>, references: map<string, string>)
      returns (r: Items, after: map<string, string>)
      requires Stored(files, references)
      modifies `rows, `written
      ensures Resolves(files, references, after, ItemMarkers(l)) && r == ResolvedItems(after, l)
      decreases l, 0
    {
      if l == NoItems {
        return l, references;
      }
      var head, middle := ResolveValue(name, l.head, files, references);
      var tail;
      tail, after := ResolveItems(name, l.tail, files, middle);
      ResolvedIsStable(middle, after, l.head);
      return Item(head, tail), after;
    }

    /**
     * `materialize_pending_files`: both payloads are resolved with one set of references, so a
     * file named in both is stored once. Without files nothing is touched.
     */
    method MaterializePendingFiles(files: map<string, File>) returns (references: map<string, string>)
      requires rows == [] && written == [] && Injective(uuid)
      modifies this
      ensures files == map[] ==> flexFields == old(flexFields) && rawData == old(rawData) && references == map[]
      ensures files != map[] ==>
        && flexFields == ResolvedFields(references, old(flexFields))
        && rawData == ResolvedFields(references, old(rawData))
        && PlainReferences(references)
        && NoMarkerFields(flexFields) && NoMarkerFields(rawData)
      ensures Stored(files, references)
      ensures forall k :: k in references <==>
        k in files && (k in FieldMarkers(old(flexFields)) || k in FieldMarkers(old(rawData)))
    {
      references := map[];
      if files == map[] {
        return;
      }
      var flex, raw;
      flex, references := ResolveMapping(flexFields, files, references);
      ghost var middle := references;
      raw, references := ResolveMapping(rawData, files, references);
      ResolvedFieldsIsStable(middle, references, flexFields);
      forall k | k in references ensures ParseMarker(references[k]).None? {
        var i :| 0 <= i < |rows| && references[k] == Reference(i);
        ReferencesAreNoMarkers(i);
      }
      NoMarkerSurvivesFields(references, flexFields);
      NoMarkerSurvivesFields(references, rawData);
      flexFields, rawData := flex, raw;
    }
  }
}
