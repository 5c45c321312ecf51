/** Moving inline base64 files of a record into file rows and back (migrate_flex_files.py). */
module MigrateFlexFiles {
  import opened Common
  import opened Base64

  type Bytes = seq<Byte>

  const DATA_URI_PREFIX := "data:"
  const BASE64_PART := ";base64,"
  // hope_flex_fields fixes the value, which is not part of this model; it has no separator in it.
  const DEFAULT_MIMETYPE := "application/octet-stream"

  // ----- data-URIs (section 3 of RFC 2397) -----

  predicate IsSeparator(c: char) {
    c == ';' || c == ','
  }

  /** Length of the longest prefix without a separator. */
  function PlainLength(s: string): (n: nat)
    ensures n <= |s|
    ensures forall i :: 0 <= i < n ==> !IsSeparator(s[i])
    ensures n < |s| ==> IsSeparator(s[n])
  {
    if s == "" || IsSeparator(s[0]) then 0 else 1 + PlainLength(s[1..])
  }

  datatype Inline = Inline(mimetype: string, base64: string)

  /** The two groups of DATA_URI_RE. */
  function MatchDataUri(value: string): Option<Inline> {
    if !(DATA_URI_PREFIX <= value) then None
    else
      var body := value[|DATA_URI_PREFIX|..];
      var n := PlainLength(body);
      if BASE64_PART <= body[n..] then Some(Inline(body[..n], body[n + |BASE64_PART|..])) else None
  }

  function OrDefault(mimetype: string): string {
    if mimetype == "" then DEFAULT_MIMETYPE else mimetype
  }

  datatype Parsed = Parsed(mimetype: string, content: Bytes)

  function ParseDataUri(value: string): Option<Parsed> {
    var m := MatchDataUri(value);
    if m.None? || Decode(m.value.base64).None? then None
    else Some(Parsed(OrDefault(m.value.mimetype), Decode(m.value.base64).value))
  }

  function DataUri(mimetype: string, base64: string): string {
    DATA_URI_PREFIX + mimetype + BASE64_PART + base64
  }

  /** `as_data_uri` */
  function AsDataUri(mimetype: string, content: Bytes): string {
    DataUri(OrDefault(mimetype), Encode(content))
  }

  ghost predicate Plain(mimetype: string) {
    forall i :: 0 <= i < |mimetype| ==> !IsSeparator(mimetype[i])
  }

  lemma {:induction false} PlainLengthOf(mimetype: string, rest: string)
    requires Plain(mimetype) && rest != "" && IsSeparator(rest[0])
    ensures PlainLength(mimetype + rest) == |mimetype|
  {
    if mimetype == "" {
      assert mimetype + rest == rest;
    } else {
      assert (mimetype + rest)[1..] == mimetype[1..] + rest;
      PlainLengthOf(mimetype[1..], rest);
    }
  }

  /** A data-URI splits in exactly one way. */
  lemma DataUriMatches(mimetype: string, base64: string)
    requires Plain(mimetype)
    ensures MatchDataUri(DataUri(mimetype, base64)) == Some(Inline(mimetype, base64))
  {
    var value := DataUri(mimetype, base64);
    var body := value[|DATA_URI_PREFIX|..];
    assert value[..|DATA_URI_PREFIX|] == DATA_URI_PREFIX;
    assert body == mimetype + (BASE64_PART + base64);
    PlainLengthOf(mimetype, BASE64_PART + base64);
    assert body[|mimetype|..] == BASE64_PART + base64;
    assert (BASE64_PART + base64)[..|BASE64_PART|] == BASE64_PART;
    assert body[|mimetype| + |BASE64_PART|..] == base64;
  }

  lemma MatchIsDataUri(value: string)
    requires MatchDataUri(value).Some?
    ensures var m := MatchDataUri(value).value; value == DataUri(m.mimetype, m.base64) && Plain(m.mimetype)
  {
    var m := MatchDataUri(value).value;
    var body := value[|DATA_URI_PREFIX|..];
    var n := PlainLength(body);
    assert value == DATA_URI_PREFIX + body;
    assert body == body[..n] + body[n..];
    assert body[n..] == BASE64_PART + body[n..][|BASE64_PART|..];
    assert body[n..][|BASE64_PART|..] == m.base64;
  }

  lemma DefaultIsPlain(mimetype: string)
    requires Plain(mimetype)
    ensures Plain(OrDefault(mimetype)) && OrDefault(mimetype) != ""
  {
  }

  /** Writing a file out as a data-URI and reading it back gives the file. */
  lemma UriRoundTrip(mimetype: string, content: Bytes)
    requires Plain(mimetype)
    ensures ParseDataUri(AsDataUri(mimetype, content)) == Some(Parsed(OrDefault(mimetype), content))
  {
    DefaultIsPlain(mimetype);
    DataUriMatches(OrDefault(mimetype), Encode(content));
    DecodeOfEncode(content);
  }

  /** The text comes back unchanged exactly when its base64 is canonical and it names the mimetype written. */
  lemma {:induction false} SameText(value: string, mimetype: string)
    requires ParseDataUri(value).Some? && Plain(mimetype)
    ensures var m := MatchDataUri(value).value;
      AsDataUri(mimetype, ParseDataUri(value).value.content) == value
      <==> OrDefault(mimetype) == m.mimetype && Canonical(m.base64)
  {
    var m := MatchDataUri(value).value;
    var content := Decode(m.base64).value;
    MatchIsDataUri(value);
    EncodeOfDecode(m.base64);
    DefaultIsPlain(mimetype);
    DataUriMatches(OrDefault(mimetype), Encode(content));
  }

  // ----- payloads -----

  /** A top-level value; FileReference is the text that `format_reference` writes for a row. */
  datatype Value = Text(s: string) | FileReference(id: nat) | OtherJson(n: int)

  type Payload = seq<(string, Value)>

  predicate Readable(v: Value) {
    v.Text? && ParseDataUri(v.s).Some?
  }

  function Replaced(references: map<string, nat>, v: Value): Value {
    if v.Text? && v.s in references then FileReference(references[v.s]) else v
  }

  /** `substitute` when converting */
  function Substituted(payload: Payload, references: map<string, nat>): Payload {
    seq(|payload|, i requires 0 <= i < |payload| => (payload[i].0, Replaced(references, payload[i].1)))
  }

  datatype FileRow = FileRow(id: nat, field: string, mimetype: string, content: Bytes)

  function FindRow(rows: seq<FileRow>, id: nat): Option<FileRow> {
    if rows == [] then None else if rows[0].id == id then Some(rows[0]) else FindRow(rows[1..], id)
  }

  function RestoredValue(rows: seq<FileRow>, v: Value): Value {
    if v.FileReference? && FindRow(rows, v.id).Some?
    then var row := FindRow(rows, v.id).value; Text(AsDataUri(row.mimetype, row.content))
    else v
  }

  /** `substitute` when restoring */
  function Restored(payload: Payload, rows: seq<FileRow>): Payload {
    seq(|payload|, i requires 0 <= i < |payload| => (payload[i].0, RestoredValue(rows, payload[i].1)))
  }

  /** What a conversion leaves: a row with the right bytes behind the reference of every readable text. */
  ghost predicate Converted(references: map<string, nat>, rows: seq<FileRow>) {
    forall t :: t in references ==>
      && ParseDataUri(t).Some?
      && FindRow(rows, references[t]).Some?
      && FindRow(rows, references[t]).value.content == ParseDataUri(t).value.content
  }

  ghost predicate RowsPlain(rows: seq<FileRow>) {
    forall i :: 0 <= i < |rows| ==> Plain(rows[i].mimetype)
  }

  ghost predicate CoversReadable(payload: Payload, references: map<string, nat>) {
    forall i :: 0 <= i < |payload| && Readable(payload[i].1) ==> payload[i].1.s in references
  }

  lemma {:induction false} FoundRow(rows: seq<FileRow>, id: nat)
    ensures FindRow(rows, id).Some? <==> exists i :: 0 <= i < |rows| && rows[i].id == id
    ensures FindRow(rows, id).Some? ==> FindRow(rows, id).value in rows && FindRow(rows, id).value.id == id
  {
    if rows != [] {
      FoundRow(rows[1..], id);
      assert forall i :: 0 < i < |rows| ==> rows[i] == rows[1..][i - 1];
    }
  }

  /**
   * Converting and restoring: a readable data-URI comes back with its bytes, and as the
   * identical text exactly when its base64 is canonical and its own mimetype is the one kept
   * with the row; a reference stays a reference exactly when the record owns no such row, and
   * becomes the row's data-URI otherwise; every other value comes back as it was.
   */
  lemma {:induction false} ConvertThenRestore(payload: Payload, references: map<string, nat>, rows: seq<FileRow>, i: nat)
    requires i < |payload| && Converted(references, rows) && RowsPlain(rows) && CoversReadable(payload, references)
    ensures var back, v := Restored(Substituted(payload, references), rows), payload[i].1;
      && |back| == |payload| && back[i].0 == payload[i].0
      && (!Readable(v) && !v.FileReference? ==> back[i].1 == v)
      && (v.FileReference? ==> (back[i].1 == v <==> FindRow(rows, v.id).None?))
      && (v.FileReference? && FindRow(rows, v.id).Some? ==>
            var row := FindRow(rows, v.id).value;
            Readable(back[i].1) && ParseDataUri(back[i].1.s) == Some(Parsed(OrDefault(row.mimetype), row.content)))
      && (Readable(v) ==>
            var row := FindRow(rows, references[v.s]).value;
            && Readable(back[i].1)
            && ParseDataUri(back[i].1.s) == Some(Parsed(OrDefault(row.mimetype), ParseDataUri(v.s).value.content))
            && (back[i].1 == v <==>
                  OrDefault(row.mimetype) == MatchDataUri(v.s).value.mimetype && Canonical(MatchDataUri(v.s).value.base64)))
  {
    var v := payload[i].1;
    if Readable(v) {
      var row := FindRow(rows, references[v.s]).value;
      FoundRow(rows, references[v.s]);
      UriRoundTrip(row.mimetype, row.content);
      SameText(v.s, row.mimetype);
    } else if v.FileReference? && FindRow(rows, v.id).Some? {
      FoundRow(rows, v.id);
      UriRoundTrip(FindRow(rows, v.id).value.mimetype, FindRow(rows, v.id).value.content);
    }
  }

  /** A record that referred to its own file all along gets a data-URI in its place. */
  lemma OwnReferenceIsInlined()
    ensures Restored(Substituted([("photo", FileReference(0))], map[]), [FileRow(0, "photo", "image/png", [])])
      == [("photo", Text("data:image/png;base64,"))]
  {
    assert Encode([]) == "";
    assert AsDataUri("image/png", []) == "data:image/png;base64,";
  }

  // ----- what the values of a record stand for -----

  /** The bytes of a value: inline, or in a row of the record. */
  function BytesOf(rows: seq<FileRow>, v: Value): Option<Bytes> {
    if Readable(v) then Some(ParseDataUri(v.s).value.content)
    else if v.FileReference? && FindRow(rows, v.id).Some? then Some(FindRow(rows, v.id).value.content)
    else None
  }

  /** Every value stands for the bytes it stood for, and one without bytes is the same. */
  ghost predicate SameFiles(before: Payload, rowsBefore: seq<FileRow>, after: Payload, rowsAfter: seq<FileRow>) {
    && |after| == |before|
    && forall i :: 0 <= i < |before| ==>
      && after[i].0 == before[i].0
      && BytesOf(rowsAfter, after[i].1) == BytesOf(rowsBefore, before[i].1)
      && (BytesOf(rowsBefore, before[i].1).None? ==> after[i].1 == before[i].1)
  }

  /** No reference names a row that is still to be created: ids are never reused. */
  ghost predicate KnownIds(payload: Payload, nextId: nat) {
    forall i :: 0 <= i < |payload| && payload[i].1.FileReference? ==> payload[i].1.id < nextId
  }

  lemma {:induction false} KeptRow(before: seq<FileRow>, rows: seq<FileRow>, id: nat)
    requires before <= rows && FindRow(before, id).Some?
    ensures FindRow(rows, id) == FindRow(before, id)
  {
    if before[0].id != id {
      KeptRow(before[1..], rows[1..], id);
    }
  }

  /** Converting changes how bytes are held and not which bytes a value stands for. */
  lemma ConvertingKeepsFiles(payload: Payload, references: map<string, nat>, before: seq<FileRow>, first: nat, rows: seq<FileRow>)
    requires Converted(references, rows) && CoversReadable(payload, references)
    requires KeptRows(before, first, rows) && KnownIds(payload, first)
    ensures SameFiles(payload, before, Substituted(payload, references), rows)
  {
    hide ParseDataUri;
    forall i | 0 <= i < |payload|
      ensures BytesOf(rows, Replaced(references, payload[i].1)) == BytesOf(before, payload[i].1)
      ensures BytesOf(before, payload[i].1).None? ==> Replaced(references, payload[i].1) == payload[i].1
    {
      var v := payload[i].1;
      if v.FileReference? && FindRow(before, v.id).Some? {
        KeptRow(before, rows, v.id);
      }
    }
  }

  lemma RestoringKeepsFiles(payload: Payload, rows: seq<FileRow>)
    requires RowsPlain(rows)
    ensures SameFiles(payload, rows, Restored(payload, rows), [])
  {
    forall i | 0 <= i < |payload|
      ensures BytesOf([], RestoredValue(rows, payload[i].1)) == BytesOf(rows, payload[i].1)
      ensures BytesOf(rows, payload[i].1).None? ==> RestoredValue(rows, payload[i].1) == payload[i].1
    {
      var v := payload[i].1;
      if v.FileReference? && FindRow(rows, v.id).Some? {
        FoundRow(rows, v.id);
        UriRoundTrip(FindRow(rows, v.id).value.mimetype, FindRow(rows, v.id).value.content);
      }
    }
  }

  lemma SameFilesTwice(first: Payload, rowsFirst: seq<FileRow>, middle: Payload, rowsMiddle: seq<FileRow>, last: Payload, rowsLast: seq<FileRow>)
    requires SameFiles(first, rowsFirst, middle, rowsMiddle) && SameFiles(middle, rowsMiddle, last, rowsLast)
    ensures SameFiles(first, rowsFirst, last, rowsLast)
  {
    hide BytesOf;
  }

  // ----- the command on one record -----

  /** An entry of `_inline_values`: a distinct text and the field it first appears in. */
  datatype Item = Item(text: string, field: string, parsed: Parsed)

  predicate Listed(items: seq<Item>, text: string) {
    exists i :: 0 <= i < |items| && items[i].text == text
  }

  ghost predicate ItemsOk(items: seq<Item>) {
    && (forall i :: 0 <= i < |items| ==> ParseDataUri(items[i].text) == Some(items[i].parsed) && Plain(items[i].parsed.mimetype))
    && (forall i, j :: 0 <= i < j < |items| ==> items[i].text != items[j].text)
  }

  ghost predicate AllListed(payload: Payload, items: seq<Item>) {
    forall i :: 0 <= i < |payload| && Readable(payload[i].1) ==> Listed(items, payload[i].1.s)
  }

  ghost predicate Occurs(payload: Payload, text: string) {
    exists i :: 0 <= i < |payload| && payload[i].1 == Text(text)
  }

  lemma ListedStays(items: seq<Item>, more: seq<Item>, text: string)
    requires items <= more && Listed(items, text)
    ensures Listed(more, text)
  {
    var i :| 0 <= i < |items| && items[i].text == text;
    assert more[i].text == text;
  }

  lemma OneMoreListed(payload: Payload, k: nat, items: seq<Item>, more: seq<Item>)
    requires k < |payload| && AllListed(payload[..k], items) && items <= more
    requires Readable(payload[k].1) ==> Listed(more, payload[k].1.s)
    ensures AllListed(payload[..k + 1], more)
  {
    hide Listed;
    forall i | 0 <= i < k + 1 && Readable(payload[i].1) ensures Listed(more, payload[i].1.s) {
      if i < k {
        assert payload[..k][i] == payload[i];
        ListedStays(items, more, payload[i].1.s);
      }
    }
  }

  lemma {:induction false} FindRowAt(rows: seq<FileRow>, i: nat)
    requires i < |rows| && forall j, k :: 0 <= j < k < |rows| ==> rows[j].id < rows[k].id
    ensures FindRow(rows, rows[i].id) == Some(rows[i])
  {
    if i > 0 {
      assert rows[0].id < rows[i].id;
      FindRowAt(rows[1..], i - 1);
    }
  }

  /** Texts with the same bytes name the same mimetype. */
  ghost predicate OneMimetypePerContent(items: seq<Item>) {
    forall i, j :: 0 <= i < |items| && 0 <= j < |items| && items[i].parsed.content == items[j].parsed.content
      ==> items[i].parsed.mimetype == items[j].parsed.mimetype
  }

  /** Every row holds bytes and mimetype of one of the items. */
  ghost predicate RowsFrom(rows: seq<FileRow>, items: seq<Item>) {
    forall i :: 0 <= i < |rows| ==> FromItem(rows[i], items)
  }

  ghost predicate FromItem(row: FileRow, items: seq<Item>) {
    exists j :: 0 <= j < |items| && row.content == items[j].parsed.content && row.mimetype == items[j].parsed.mimetype
  }

  lemma {:induction false} FindRowAppended(rows: seq<FileRow>, row: FileRow, id: nat)
    ensures FindRow(rows + [row], id) ==
      if FindRow(rows, id).Some? then FindRow(rows, id) else if row.id == id then Some(row) else None
  {
    if rows == [] {
      assert rows + [row] == [row];
    } else {
      assert (rows + [row])[1..] == rows[1..] + [row];
      FindRowAppended(rows[1..], row, id);
    }
  }

  lemma ParsedIsPlain(text: string)
    requires ParseDataUri(text).Some?
    ensures Plain(ParseDataUri(text).value.mimetype) && ParseDataUri(text).value.mimetype != ""
  {
    MatchIsDataUri(text);
    DefaultIsPlain(MatchDataUri(text).value.mimetype);
  }

  /** A file of this field with these bytes is stored. */
  predicate HasRow(rows: seq<FileRow>, field: string, content: Bytes) {
    exists i :: 0 <= i < |rows| && rows[i].field == field && rows[i].content == content
  }

  class Record {
    var flexFields: Payload
    var rawData: Payload
    var rows: seq<FileRow>
    var nextId: nat

    ghost predicate Valid()
      reads this
    {
      && RowsPlain(rows)
      && (forall i :: 0 <= i < |rows| ==> rows[i].id < nextId)
      && (forall i, j :: 0 <= i < j < |rows| ==> rows[i].id < rows[j].id)
    }

    /** One step of `_inline_values`; `value in inline` is `Listed`. */
    method AddInline(field: string, v: Value, before: seq<Item>) returns (items: seq<Item>)
      requires ItemsOk(before)
      ensures ItemsOk(items) && before <= items
      ensures items == before || (v.Text? && |items| == |before| + 1 && items[|before|].text == v.s)
      ensures Readable(v) ==> Listed(items, v.s)
    {
      if !v.Text? || !(DATA_URI_PREFIX <= v.s) || Listed(before, v.s) {
        return before;
      }
      var parsed := ParseDataUri(v.s);
      if parsed.None? {
        return before;
      }
      ParsedIsPlain(v.s);
      items := before + [Item(v.s, field, parsed.value)];
      assert items[|before|].text == v.s;
    }

    /** Adds the readable texts of one payload that are not listed yet. */
    method InlineValues(payload: Payload, before: seq<Item>) returns (items: seq<Item>)
      requires ItemsOk(before)
      ensures ItemsOk(items) && before <= items
      ensures AllListed(payload, items)
      ensures forall j :: |before| <= j < |items| ==> Occurs(payload, items[j].text)
    {
      hide ItemsOk, ParseDataUri;
      items := before;
      for k := 0 to |payload|
        invariant ItemsOk(items) && before <= items
        invariant AllListed(payload[..k], items)
        invariant forall j :: |before| <= j < |items| ==> Occurs(payload, items[j].text)
      {
        ghost var earlier := items;
        items := AddInline(payload[k].0, payload[k].1, items);
        OneMoreListed(payload, k, earlier, items);
      }
      assert payload[..|payload|] == payload;
    }

    /** `write_flex_file`: the first row of the same field and content is reused. */
    method WriteFlexFile(field: string, content: Bytes, mimetype: string) returns (id: nat)
      requires Valid() && Plain(mimetype)
      modifies `rows, `nextId
      ensures Valid() && nextId >= old(nextId)
      ensures if HasRow(old(rows), field, content) then rows == old(rows) && nextId == old(nextId)
        else rows == old(rows) + [FileRow(old(nextId), field, OrDefault(mimetype), content)] && nextId == old(nextId) + 1
      ensures FindRow(rows, id).Some? && FindRow(rows, id).value.content == content && FindRow(rows, id).value.field == field
    {
      for i := 0 to |rows|
        invariant rows == old(rows) && nextId == old(nextId) && !HasRow(rows[..i], field, content)
      {
        if rows[i].field == field && rows[i].content == content {
          FindRowAt(rows, i);
          return rows[i].id;
        }
      }
      assert rows[..|rows|] == rows;
      FoundRow(rows, nextId);
      FindRowAppended(rows, FileRow(nextId, field, OrDefault(mimetype), content), nextId);
      DefaultIsPlain(mimetype);
      id := nextId;
      rows := rows + [FileRow(nextId, field, OrDefault(mimetype), content)];
      nextId := nextId + 1;
    }

    /** The comprehension of `_convert_record` that stores the items and names their references. */
    method WriteItems(items: seq<Item>) returns (references: map<string, nat>)
      requires Valid() && ItemsOk(items)
      modifies `rows, `nextId
      ensures Written(items, |items|, references, old(rows), old(nextId))
    {
      references := map[];
      for k := 0 to |items|
        invariant Written(items, k, references, old(rows), old(nextId))
      {
        ghost var earlier, next := rows, nextId;
        var id := WriteFlexFile(items[k].field, items[k].parsed.content, items[k].parsed.mimetype);
        OneMoreWritten(items, k, references, old(rows), old(nextId), earlier, next, id);
        references := references[items[k].text := id];
      }
    }

    /** `_convert_record`: true when the record held something to convert. */
    method ConvertRecord() returns (changed: bool, ghost references: map<string, nat>, ghost items: seq<Item>)
      requires Valid()
      modifies this
      ensures Valid() && nextId >= old(nextId) && KeptRows(old(rows), old(nextId), rows)
      ensures changed <==> HasReadable(old(flexFields)) || HasReadable(old(rawData))
      ensures !changed ==> flexFields == old(flexFields) && rawData == old(rawData) && rows == old(rows)
      ensures changed ==>
        && flexFields == Substituted(old(flexFields), references)
        && rawData == Substituted(old(rawData), references)
        && CoversReadable(old(flexFields), references) && CoversReadable(old(rawData), references)
      ensures Converted(references, rows) && ItemsOk(items) && forall t :: t in references <==> Listed(items, t)
      ensures old(rows) == [] ==> RowsFrom(rows, items)
      ensures forall j :: 0 <= j < |items| ==> Occurs(old(flexFields), items[j].text) || Occurs(old(rawData), items[j].text)
    {
      hide Occurs, HasReadable, RowsPlain, ParseDataUri, AllListed, CoversReadable;
      var first := InlineValues(flexFields, []);
      var all := InlineValues(rawData, first);
      items := all;
      references := map[];
      NothingListed(flexFields, rawData, first, all);
      AllOccur(flexFields, rawData, first, all);
      if all == [] {
        NothingWritten(rows, nextId);
        return false, references, items;
      }
      var written := WriteItems(all);
      references := written;
      assert all[..|all|] == all;
      ListedIsCovered(flexFields, first, all, written);
      ListedIsCovered(rawData, all, all, written);
      hide Converted, KeptRows;
      flexFields, rawData := Substituted(flexFields, written), Substituted(rawData, written);
      return true, references, items;
    }

    method CollectUris(payload: Payload, before: map<nat, string>) returns (uris: map<nat, string>)
      requires UrisOf(before)
      ensures UrisOf(uris) && before.Keys <= uris.Keys
      ensures Collected(payload, uris)
    {
      uris := before;
      for k := 0 to |payload|
        invariant UrisOf(uris) && before.Keys <= uris.Keys
        invariant Collected(payload[..k], uris)
      {
        var v := payload[k].1;
        if v.FileReference? {
          var row := FindRow(rows, v.id);
          if row.Some? {
            uris := uris[v.id := AsDataUri(row.value.mimetype, row.value.content)];
          }
        }
        assert payload[..k + 1] == payload[..k] + [payload[k]];
      }
      assert payload[..|payload|] == payload;
    }

    /** Every reference to a row of the record has its data-URI. */
    ghost predicate Collected(payload: Payload, uris: map<nat, string>)
      reads this
    {
      forall i :: 0 <= i < |payload| && RestoredValue(rows, payload[i].1).Text? && payload[i].1.FileReference? ==> payload[i].1.id in uris
    }

    ghost predicate UrisOf(uris: map<nat, string>)
      reads this
    {
      forall id :: id in uris ==>
        FindRow(rows, id).Some?
        && uris[id] == AsDataUri(FindRow(rows, id).value.mimetype, FindRow(rows, id).value.content)
    }

    /** `_restore_record`: the files go back inline and no row is left. */
    method RestoreRecord() returns (changed: bool)
      modifies this
      ensures changed <==> old(rows) != []
      ensures rows == []
      ensures flexFields == Restored(old(flexFields), old(rows)) && rawData == Restored(old(rawData), old(rows))
    {
      if rows == [] {
        RestoredWithoutRows(flexFields);
        RestoredWithoutRows(rawData);
        return false;
      }
      var uris := CollectUris(flexFields, map[]);
      uris := CollectUris(rawData, uris);
      ghost var was := rows;
      flexFields, rawData := WithUris(flexFields, uris), WithUris(rawData, uris);
      assert flexFields == Restored(old(flexFields), was) && rawData == Restored(old(rawData), was);
      rows := [];
      return true;
    }

    /** The command run twice: the second run finds nothing to convert and changes nothing; `between` are the rows it finds. */
    method ConvertTwice() returns (changed: bool, again: bool, ghost references: map<string, nat>, ghost between: seq<FileRow>)
      requires Valid()
      modifies this
      ensures changed <==> HasReadable(old(flexFields)) || HasReadable(old(rawData))
      ensures !again && !HasReadable(flexFields) && !HasReadable(rawData)
      ensures !changed ==> flexFields == old(flexFields) && rawData == old(rawData) && rows == old(rows)
      ensures changed ==>
        && flexFields == Substituted(old(flexFields), references)
        && rawData == Substituted(old(rawData), references)
      ensures Converted(references, between) && KeptRows(old(rows), old(nextId), between) && (!changed ==> between == old(rows))
      ensures rows == between
    {
      ghost var items;
      changed, references, items := ConvertRecord();
      assert !HasReadable(flexFields) && !HasReadable(rawData);
      between := rows;
      ghost var more;
      again, more, items := ConvertRecord();
    }

    /**
     * The command run forward and back: no row is left, and every top-level value stands for the
     * bytes it stood for, whether they were inline or in a row of the record. Without earlier rows,
     * and with one mimetype for each content, a value is the same again exactly when it was no
     * readable data-URI or names its mimetype and has canonical base64.
     */
    method ConvertAndRestore()
      requires Valid() && KnownIds(flexFields, nextId) && KnownIds(rawData, nextId)
      modifies this
      ensures rows == []
      ensures SameFiles(old(flexFields), old(rows), flexFields, [])
      ensures SameFiles(old(rawData), old(rows), rawData, [])
      ensures old(rows) == [] && OneMimetype(old(flexFields), old(rawData)) ==>
        SameTexts(old(flexFields), flexFields) && SameTexts(old(rawData), rawData)
    {
      ghost var was, next, flex, raw := rows, nextId, flexFields, rawData;
      var changed, references, items := ConvertRecord();
      hide Converted, CoversReadable, KeptRows, KnownIds, SameFiles, Substituted, Restored, HasReadable, Readable, ItemsOk, RowsFrom,
        OneMimetype, SameTexts, Listed, Occurs;
      SameRecordTexts(flex, flex, raw, references, items, next, flexFields, changed, was);
      SameRecordTexts(raw, flex, raw, references, items, next, rawData, changed, was);
      SameRecordFiles(flex, references, was, next, flexFields, changed);
      SameRecordFiles(raw, references, was, next, rawData, changed);
      ghost var middleFlex, middleRaw, middle := flexFields, rawData, rows;
      RestoringKeepsFiles(middleFlex, middle);
      RestoringKeepsFiles(middleRaw, middle);
      var _ := RestoreRecord();
      SameFilesTwice(flex, was, middleFlex, middle, flexFields, []);
      SameFilesTwice(raw, was, middleRaw, middle, rawData, []);
    }

    lemma SameRecordTexts(payload: Payload, flex: Payload, raw: Payload, references: map<string, nat>, items: seq<Item>, first: nat,
                          after: Payload, changed: bool, was: seq<FileRow>)
      requires Valid() && KeptRows(was, first, rows) && KnownIds(payload, first)
      requires payload == flex || payload == raw
      requires changed ==> after == Substituted(payload, references) && CoversReadable(payload, references)
      requires !changed ==> after == payload && rows == was && !HasReadable(payload)
      requires Converted(references, rows) && ItemsOk(items) && forall t :: t in references <==> Listed(items, t)
      requires was == [] ==> RowsFrom(rows, items)
      requires forall j :: 0 <= j < |items| ==> Occurs(flex, items[j].text) || Occurs(raw, items[j].text)
      ensures was == [] && OneMimetype(flex, raw) ==> SameTexts(payload, Restored(after, rows))
    {
      if was == [] && OneMimetype(flex, raw) {
        if changed {
          OneMimetypeOfItems(flex, raw, items);
          RestoredTexts(payload, references, items, rows, first);
        } else {
          RestoredWithoutRows(payload);
        }
      }
    }

    lemma SameRecordFiles(payload: Payload, references: map<string, nat>, before: seq<FileRow>, first: nat, after: Payload, changed: bool)
      requires Valid() && KeptRows(before, first, rows) && KnownIds(payload, first)
      requires changed ==> after == Substituted(payload, references) && Converted(references, rows) && CoversReadable(payload, references)
      requires !changed ==> after == payload && rows == before
      ensures SameFiles(payload, before, after, rows)
    {
      if changed {
        ConvertingKeepsFiles(payload, references, before, first, rows);
      }
    }

    /** The first k items are stored; earlier rows are kept and no earlier id has come to life. */
    ghost predicate Written(items: seq<Item>, k: nat, references: map<string, nat>, before: seq<FileRow>, first: nat)
      reads this
    {
      && Valid() && nextId >= first && k <= |items|
      && (forall t :: t in references <==> Listed(items[..k], t))
      && Converted(references, rows)
      && KeptRows(before, first, rows)
      && (RowsFrom(before, items) ==> RowsFrom(rows, items))
    }

    lemma OneMoreWritten(items: seq<Item>, k: nat, references: map<string, nat>, before: seq<FileRow>, first: nat,
                         earlier: seq<FileRow>, next: nat, id: nat)
      requires ItemsOk(items) && k < |items| && next >= first
      requires forall t :: t in references <==> Listed(items[..k], t)
      requires Converted(references, earlier) && KeptRows(before, first, earlier)
      requires RowsFrom(before, items) ==> RowsFrom(earlier, items)
      requires Valid() && nextId >= next
      requires rows == earlier || rows == earlier + [RowFor(items[k], next)]
      requires FindRow(rows, id).Some? && FindRow(rows, id).value.content == items[k].parsed.content
      ensures Written(items, k + 1, references[items[k].text := id], before, first)
    {
      ListedOneMore(items, k);
      if rows != earlier {
        AppendedRow(references, before, first, earlier, RowFor(items[k], next));
        RowsFromOneMore(items, k, earlier, next);
      }
      ConvertedInsert(references, rows, items[k].text, id);
      hide Listed, KeptRows, RowsFrom, FindRow, ParseDataUri, Converted, ItemsOk;
    }
  }

  lemma ConvertedInsert(references: map<string, nat>, rows: seq<FileRow>, text: string, id: nat)
    requires Converted(references, rows) && ParseDataUri(text).Some?
    requires FindRow(rows, id).Some? && FindRow(rows, id).value.content == ParseDataUri(text).value.content
    ensures Converted(references[text := id], rows)
  {
  }

  predicate HasReadable(payload: Payload) {
    exists i :: 0 <= i < |payload| && Readable(payload[i].1)
  }

  /** No item is listed exactly when no payload holds a readable text. */
  lemma NothingListed(flexFields: Payload, rawData: Payload, first: seq<Item>, all: seq<Item>)
    requires ItemsOk(all) && first <= all
    requires AllListed(flexFields, first) && AllListed(rawData, all)
    requires forall j :: 0 <= j < |first| ==> Occurs(flexFields, first[j].text)
    requires forall j :: |first| <= j < |all| ==> Occurs(rawData, all[j].text)
    ensures all != [] <==> HasReadable(flexFields) || HasReadable(rawData)
  {
    if all != [] {
      var t := all[0].text;
      assert first != [] ==> first[0] == all[0];
      if first != [] {
        assert Occurs(flexFields, t);
      } else {
        assert Occurs(rawData, t);
      }
    }
  }

  lemma AllOccur(flexFields: Payload, rawData: Payload, first: seq<Item>, all: seq<Item>)
    requires first <= all
    requires forall j :: 0 <= j < |first| ==> Occurs(flexFields, first[j].text)
    requires forall j :: |first| <= j < |all| ==> Occurs(rawData, all[j].text)
    ensures forall j :: 0 <= j < |all| ==> Occurs(flexFields, all[j].text) || Occurs(rawData, all[j].text)
  {
    hide Occurs;
    assert forall j :: 0 <= j < |first| ==> all[j] == first[j];
  }

  lemma NothingWritten(rows: seq<FileRow>, nextId: nat)
    ensures Converted(map[], rows) && KeptRows(rows, nextId, rows) && forall t :: !Listed([], t)
  {
  }

  lemma ListedIsCovered(payload: Payload, items: seq<Item>, all: seq<Item>, references: map<string, nat>)
    requires AllListed(payload, items) && items <= all && forall t :: t in references <==> Listed(all, t)
    ensures CoversReadable(payload, references)
  {
    forall i | 0 <= i < |payload| && Readable(payload[i].1) ensures payload[i].1.s in references {
      ListedStays(items, all, payload[i].1.s);
    }
  }

  /** `substitute` with the collected data-URIs. */
  function WithUris(payload: Payload, uris: map<nat, string>): Payload {
    seq(|payload|, i requires 0 <= i < |payload| =>
      (payload[i].0, if payload[i].1.FileReference? && payload[i].1.id in uris then Text(uris[payload[i].1.id]) else payload[i].1))
  }

  lemma RestoredWithoutRows(payload: Payload)
    ensures Restored(payload, []) == payload
  {
  }

  /** Under one mimetype per content, every row keeps the mimetype of the texts that lead to it. */
  lemma {:induction false} MimetypeKept(references: map<string, nat>, rows: seq<FileRow>, items: seq<Item>, text: string)
    requires Converted(references, rows) && RowsFrom(rows, items) && ItemsOk(items) && OneMimetypePerContent(items)
    requires text in references && Listed(items, text)
    ensures FindRow(rows, references[text]).value.mimetype == ParseDataUri(text).value.mimetype
  {
    FoundRow(rows, references[text]);
    var row := FindRow(rows, references[text]).value;
    var i :| 0 <= i < |rows| && rows[i] == row;
    assert FromItem(rows[i], items);
    var j :| 0 <= j < |items| && row.content == items[j].parsed.content && row.mimetype == items[j].parsed.mimetype;
    var k :| 0 <= k < |items| && items[k].text == text;
    assert items[k].parsed.content == items[j].parsed.content;
  }

  /**
   * On a record without earlier rows whose contents each come with one mimetype, converting and
   * restoring gives the identical text exactly when the text names its mimetype and its base64
   * is canonical.
   */
  lemma {:induction false} IdenticalText(payload: Payload, references: map<string, nat>, rows: seq<FileRow>, items: seq<Item>, i: nat)
    requires i < |payload| && Readable(payload[i].1)
    requires Converted(references, rows) && RowsPlain(rows) && CoversReadable(payload, references)
    requires RowsFrom(rows, items) && ItemsOk(items) && OneMimetypePerContent(items)
    requires forall t :: t in references <==> Listed(items, t)
    ensures var m := MatchDataUri(payload[i].1.s).value;
      m.mimetype != "" && Canonical(m.base64)
      <==> Restored(Substituted(payload, references), rows)[i].1 == payload[i].1
  {
    var t := payload[i].1.s;
    ConvertThenRestore(payload, references, rows, i);
    MimetypeKept(references, rows, items, t);
    ParsedIsPlain(t);
  }

  /** Readable texts of the two payloads that hold the same bytes name the same mimetype. */
  ghost predicate OneMimetype(flex: Payload, raw: Payload) {
    forall t, u ::
      && (Occurs(flex, t) || Occurs(raw, t)) && ParseDataUri(t).Some?
      && (Occurs(flex, u) || Occurs(raw, u)) && ParseDataUri(u).Some?
      && ParseDataUri(t).value.content == ParseDataUri(u).value.content
      ==> ParseDataUri(t).value.mimetype == ParseDataUri(u).value.mimetype
  }

  lemma OneMimetypeOfItems(flex: Payload, raw: Payload, items: seq<Item>)
    requires OneMimetype(flex, raw) && ItemsOk(items)
    requires forall j :: 0 <= j < |items| ==> Occurs(flex, items[j].text) || Occurs(raw, items[j].text)
    ensures OneMimetypePerContent(items)
  {
    hide ParseDataUri, Occurs;
  }

  /** The text names its mimetype and its base64 is canonical. */
  ghost predicate WrittenOut(text: string) {
    var m := MatchDataUri(text);
    m.Some? && m.value.mimetype != "" && Canonical(m.value.base64)
  }

  /** The same values again, except for readable texts that are not as they would be written. */
  ghost predicate SameTexts(before: Payload, after: Payload) {
    && |after| == |before|
    && forall i :: 0 <= i < |before| ==>
      && after[i].0 == before[i].0
      && (after[i].1 == before[i].1 <==> (Readable(before[i].1) ==> WrittenOut(before[i].1.s)))
  }

  lemma RestoredTexts(payload: Payload, references: map<string, nat>, items: seq<Item>, rows: seq<FileRow>, first: nat)
    requires Converted(references, rows) && RowsPlain(rows) && CoversReadable(payload, references)
    requires RowsFrom(rows, items) && ItemsOk(items) && OneMimetypePerContent(items)
    requires forall t :: t in references <==> Listed(items, t)
    requires KeptRows([], first, rows) && KnownIds(payload, first)
    ensures SameTexts(payload, Restored(Substituted(payload, references), rows))
  {
    var back := Restored(Substituted(payload, references), rows);
    forall i | 0 <= i < |payload|
      ensures back[i].0 == payload[i].0
      ensures back[i].1 == payload[i].1 <==> (Readable(payload[i].1) ==> WrittenOut(payload[i].1.s))
    {
      if Readable(payload[i].1) {
        IdenticalText(payload, references, rows, items, i);
      } else {
        ConvertThenRestore(payload, references, rows, i);
      }
    }
  }

  function RowFor(item: Item, id: nat): FileRow {
    FileRow(id, item.field, OrDefault(item.parsed.mimetype), item.parsed.content)
  }

  lemma ListedOneMore(items: seq<Item>, k: nat)
    requires k < |items|
    ensures forall t :: Listed(items[..k + 1], t) <==> Listed(items[..k], t) || t == items[k].text
  {
    forall t ensures Listed(items[..k + 1], t) <==> Listed(items[..k], t) || t == items[k].text {
      if Listed(items[..k], t) {
        ListedStays(items[..k], items[..k + 1], t);
      }
      assert items[..k + 1][k] == items[k];
    }
  }

  lemma RowsFromOneMore(items: seq<Item>, k: nat, earlier: seq<FileRow>, next: nat)
    requires ItemsOk(items) && k < |items|
    ensures RowsFrom(earlier, items) ==> RowsFrom(earlier + [RowFor(items[k], next)], items)
  {
    ParsedIsPlain(items[k].text);
    assert FromItem(RowFor(items[k], next), items);
  }

  /** Rows are only appended, and an id below `first` that named no row still names none. */
  ghost predicate KeptRows(before: seq<FileRow>, first: nat, rows: seq<FileRow>) {
    && before <= rows
    && forall id: nat :: id < first && FindRow(before, id).None? ==> FindRow(rows, id).None?
  }

  lemma AppendedRow(references: map<string, nat>, before: seq<FileRow>, first: nat, earlier: seq<FileRow>, row: FileRow)
    requires Converted(references, earlier) && KeptRows(before, first, earlier) && row.id >= first
    ensures Converted(references, earlier + [row]) && KeptRows(before, first, earlier + [row])
  {
    forall id: nat ensures FindRow(earlier, id).Some? ==> FindRow(earlier + [row], id) == FindRow(earlier, id)
      ensures id < first && FindRow(earlier, id).None? ==> FindRow(earlier + [row], id).None?
    {
      FindRowAppended(earlier, row, id);
    }
  }
}
