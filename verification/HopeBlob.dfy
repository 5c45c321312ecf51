/** The cache of blob hashes kept beside HOPE's blob storage (services/hope_blob.py). */
module HopeBlob {
  import opened Common

  type Bytes = seq<bv8>

  /** SHA-256, taken to be collision free. */
  datatype Digest = Sha256(content: Bytes)

  /** A flex field: a reference to a stored file, a data-URI (None: malformed base64), or anything else. */
  datatype Value = Reference(id: nat) | DataUri(payload: Option<Bytes>) | Other

  datatype FileRow = FileRow(content: Bytes, checksum: Digest)

  datatype SyncError = MissingFile(field: string) | MalformedBase64(field: string) | StorageFailed(key: string)

  // ----- blob keys -----

  predicate Allowed(c: char) {
    'A' <= c <= 'Z' || 'a' <= c <= 'z' || '0' <= c <= '9' || c == '.' || c == '_' || c == '-'
  }

  predicate IsBlank(c: char) {
    c == ' ' || c == '\t' || c == '\n' || c == '\r'
  }

  function LeftStripped(s: string): string {
    if s != [] && IsBlank(s[0]) then LeftStripped(s[1..]) else s
  }

  function Stripped(s: string): string
    decreases |s|
  {
    if s != [] && IsBlank(s[|s| - 1]) then Stripped(s[..|s| - 1]) else LeftStripped(s)
  }

  function Replaced(s: string): string {
    if s == [] then [] else [if Allowed(s[0]) then s[0] else '_'] + Replaced(s[1..])
  }

  function Sanitize(s: string): string {
    Replaced(Stripped(s))
  }

  lemma Capitals(c: char)
    ensures 'A' <= c <= 'Z' <==> c in "ABCDEFGHIJKLMNOPQRSTUVWXYZ"
  {
    if 'A' <= c <= 'Z' {
      assert "ABCDEFGHIJKLMNOPQRSTUVWXYZ"[(c - 'A') as int] == c;
    }
  }

  lemma Letters(c: char)
    ensures 'a' <= c <= 'z' <==> c in "abcdefghijklmnopqrstuvwxyz"
  {
    if 'a' <= c <= 'z' {
      assert "abcdefghijklmnopqrstuvwxyz"[(c - 'a') as int] == c;
    }
  }

  lemma Numerals(c: char)
    ensures '0' <= c <= '9' <==> c in "0123456789"
  {
    if '0' <= c <= '9' {
      assert "0123456789"[(c - '0') as int] == c;
    }
  }

  /** The characters of `[A-Za-z0-9._-]`. */
  lemma AllowedCharacters(c: char)
    ensures Allowed(c) <==>
      || c in "ABCDEFGHIJKLMNOPQRSTUVWXYZ" || c in "abcdefghijklmnopqrstuvwxyz" || c in "0123456789"
      || c in {'.', '_', '-'}
  {
    Capitals(c);
    Letters(c);
    Numerals(c);
  }

  lemma {:induction false} ReplacedAt(s: string, i: nat)
    requires i < |s|
    ensures |Replaced(s)| == |s| && Replaced(s)[i] == if Allowed(s[i]) then s[i] else '_'
  {
    if |s| > 1 {
      ReplacedAt(s[1..], if i > 0 then i - 1 else 0);
    }
  }

  lemma ReplacedAll(s: string)
    ensures |Replaced(s)| == |s|
    ensures forall i :: 0 <= i < |s| ==> Replaced(s)[i] == if Allowed(s[i]) then s[i] else '_'
  {
    if s != [] {
      ReplacedAt(s, 0);
    }
    forall i | 0 <= i < |s| ensures Replaced(s)[i] == if Allowed(s[i]) then s[i] else '_' {
      ReplacedAt(s, i);
    }
  }

  lemma {:induction false} LeftStrippedIs(s: string) returns (p: nat)
    ensures p <= |s| && LeftStripped(s) == s[p..] && (forall i :: 0 <= i < p ==> IsBlank(s[i]))
    ensures p < |s| ==> !IsBlank(s[p])
  {
    p := 0;
    if s != [] && IsBlank(s[0]) {
      var q := LeftStrippedIs(s[1..]);
      p := q + 1;
    }
  }

  lemma {:induction false} StrippedIs(s: string) returns (p: nat, q: nat)
    ensures p <= q <= |s| && Stripped(s) == s[p..q]
    ensures forall i :: (0 <= i < p || q <= i < |s|) ==> IsBlank(s[i])
    ensures p < q ==> !IsBlank(s[p]) && !IsBlank(s[q - 1])
    decreases |s|
  {
    if s != [] && IsBlank(s[|s| - 1]) {
      p, q := StrippedIs(s[..|s| - 1]);
    } else {
      p := LeftStrippedIs(s);
      q := |s|;
    }
  }

  /** A sanitized name is the name without the blanks around it, with every other character than `A-Za-z0-9._-` replaced. */
  lemma SanitizedName(s: string) returns (p: nat, q: nat)
    ensures p <= q <= |s| && |Sanitize(s)| == q - p
    ensures forall i :: (0 <= i < p || q <= i < |s|) ==> IsBlank(s[i])
    ensures p < q ==> !IsBlank(s[p]) && !IsBlank(s[q - 1])
    ensures forall i :: 0 <= i < q - p ==> Sanitize(s)[i] == if Allowed(s[p + i]) then s[p + i] else '_'
  {
    p, q := StrippedIs(s);
    ReplacedAll(s[p..q]);
    assert forall i :: 0 <= i < q - p ==> s[p..q][i] == s[p + i];
  }

  // ----- the cache -----

  type Hashes = map<string, Digest>

  class BlobStorage {
    var blobs: map<string, Bytes>

    constructor (blobs: map<string, Bytes>)
      ensures this.blobs == blobs
    {
      this.blobs := blobs;
    }

    /** Overwrites; `broken` keys raise. */
    method Save(key: string, content: Bytes, broken: set<string>) returns (ok: bool)
      modifies this
      ensures ok <==> key !in broken
      ensures blobs == if ok then old(blobs)[key := content] else old(blobs)
    {
      if key in broken {
        return false;
      }
      blobs := blobs[key := content];
      return true;
    }

    method Delete(key: string, broken: set<string>) returns (ok: bool)
      modifies this
      ensures ok <==> key !in broken
      ensures blobs == if ok then old(blobs) - {key} else old(blobs)
    {
      if key in broken {
        return false;
      }
      blobs := blobs - {key};
      return true;
    }
  }

  predicate InScope(only: Option<set<string>>, name: string) {
    only.None? || name in only.value
  }

  function Tracked(hashes: Hashes, name: string): Option<Digest> {
    if name in hashes then Some(hashes[name]) else None
  }

  ghost predicate HasHash(blobs: map<string, Bytes>, key: string, digest: Digest) {
    key in blobs && Sha256(blobs[key]) == digest
  }

  ghost predicate SameAt(key: string, was: map<string, Bytes>, blobs: map<string, Bytes>) {
    (key in blobs <==> key in was) && (key in blobs ==> blobs[key] == was[key])
  }

  class Record {
    const directory: string
    var flexFields: map<string, Value>
    var rows: map<nat, FileRow>
    var blobHashes: Hashes

    /** A record without file rows. */
    constructor (directory: string, flexFields: map<string, Value>, blobHashes: Hashes)
      ensures this.directory == directory && this.flexFields == flexFields && this.blobHashes == blobHashes && RowsOk()
    {
      this.directory := directory;
      this.flexFields := flexFields;
      this.blobHashes := blobHashes;
      rows := map[];
    }

    function Key(name: string): string {
      directory + Sanitize(name) + ".png"
    }

    ghost predicate RowsOk()
      reads `rows
    {
      forall id :: id in rows ==> rows[id].checksum == Sha256(rows[id].content)
    }

    /** The bytes of a field, None when it has no file. */
    function Content(name: string): Result<Option<Bytes>, SyncError>
      reads `flexFields, `rows
    {
      if name !in flexFields then Ok(None)
      else match flexFields[name]
        case Reference(id) => if id in rows then Ok(Some(rows[id].content)) else Err(MissingFile(name))
        case DataUri(payload) => if payload.Some? then Ok(payload) else Err(MalformedBase64(name))
        case Other => Ok(None)
    }

    ghost predicate HasFile(name: string)
      reads `flexFields, `rows
    {
      Content(name).Ok? && Content(name).value.Some?
    }

    /** Every tracked field's blob exists and has the tracked hash. */
    ghost predicate Agrees(hashes: Hashes, blobs: map<string, Bytes>) {
      forall n :: n in hashes ==> HasHash(blobs, Key(n), hashes[n])
    }

    ghost predicate KeysDistinct(names: set<string>) {
      forall a, b :: a in names && b in names && Key(a) == Key(b) ==> a == b
    }

    /** Fields share a key exactly when their sanitized names are equal. */
    lemma SharedKeys(name: string, other: string)
      ensures Key(name) == Key(other) <==> Sanitize(name) == Sanitize(other)
      ensures directory <= Key(name) && |Key(name)| >= 4 && Key(name)[|Key(name)| - 4..] == ".png"
    {
      var n, m := Key(name), Key(other);
      assert n[|directory|..|n| - 4] == Sanitize(name);
      assert m[|directory|..|m| - 4] == Sanitize(other);
    }

    /** Names that differ only in characters a key cannot carry share one. */
    lemma KeysCanCollide()
      ensures "a b" != "a_b" && Key("a b") == Key("a_b")
    {
      assert Stripped("a b") == "a b" && Stripped("a_b") == "a_b";
      assert Replaced("b") == "b" && Replaced(" b") == "_b" && Replaced("_b") == "_b";
      assert "a b"[1..] == " b" && " b"[1..] == "b" && "a_b"[1..] == "_b";
    }

    /** `[name for name in image_fields if only is None or name in only]` */
    function Selected(imageFields: seq<string>, only: Option<set<string>>): (names: seq<string>)
      ensures forall n :: n in names <==> n in imageFields && (only.None? || n in only.value)
    {
      if imageFields == [] then []
      else
        (if InScope(only, imageFields[0]) then [imageFields[0]] else []) + Selected(imageFields[1..], only)
    }

    /** The fields are synced in their order. */
    lemma {:induction false} SelectedInOrder(a: seq<string>, b: seq<string>, only: Option<set<string>>)
      ensures Selected(a + b, only) == Selected(a, only) + Selected(b, only)
    {
      if a == [] {
        assert a + b == b;
      } else {
        assert (a + b)[1..] == a[1..] + b && (a + b)[0] == a[0];
        var first := if InScope(only, a[0]) then [a[0]] else [];
        assert Selected(a + b, only) == first + Selected(a[1..] + b, only);
        SelectedInOrder(a[1..], b, only);
        assert Selected(a, only) == first + Selected(a[1..], only);
        hide Record.Selected;
      }
    }

    lemma SelectedOne(name: string, only: Option<set<string>>)
      ensures Selected([name], only) == if only.None? || name in only.value then [name] else []
    {
      assert Selected([name][1..], only) == [];
    }

    // ----- what a sync is meant to reach -----

    /** The hash that a sync that ends leaves for a field, None when it leaves none. */
    ghost function Target(imageFields: seq<string>, only: Option<set<string>>, before: Hashes, name: string): Option<Digest>
      reads `flexFields, `rows
    {
      if !InScope(only, name) then Tracked(before, name)
      else if name in imageFields && HasFile(name) then Some(Sha256(Content(name).value.value))
      else None
    }

    /** The sync stores the file of this field, because its hash is not the tracked one. */
    ghost predicate Saves(imageFields: seq<string>, only: Option<set<string>>, before: Hashes, name: string)
      reads `flexFields, `rows
    {
      && InScope(only, name) && name in imageFields && HasFile(name)
      && Tracked(before, name) != Some(Sha256(Content(name).value.value))
    }

    /** The sync deletes the blob of this field. */
    ghost predicate Drops(imageFields: seq<string>, only: Option<set<string>>, before: Hashes, name: string)
      reads `flexFields, `rows
    {
      name in before && Target(imageFields, only, before, name).None?
    }

    /** Fields that share a key, tracked or to be tracked, are to have the same hash. */
    ghost predicate NoClash(imageFields: seq<string>, only: Option<set<string>>, before: Hashes)
      reads `flexFields, `rows
    {
      forall a, b ::
        && (a in before || Target(imageFields, only, before, a).Some?)
        && (b in before || Target(imageFields, only, before, b).Some?)
        && Key(a) == Key(b)
        ==> Target(imageFields, only, before, a) == Target(imageFields, only, before, b)
    }

    /** A field to be tracked has its blob already, or the sync stores one under its key. */
    ghost predicate Covered(imageFields: seq<string>, only: Option<set<string>>, before: Hashes, was: map<string, Bytes>)
      reads `flexFields, `rows
    {
      forall n :: Target(imageFields, only, before, n).Some? ==>
        || HasHash(was, Key(n), Target(imageFields, only, before, n).value)
        || StoresTo(imageFields, only, before, Key(n))
    }

    ghost predicate StoresTo(imageFields: seq<string>, only: Option<set<string>>, before: Hashes, key: string)
      reads `flexFields, `rows
    {
      exists m :: Saves(imageFields, only, before, m) && Key(m) == key
    }

    /** Where hashes and storage agree every field is covered; distinct keys never clash. */
    lemma UsualCase(imageFields: seq<string>, only: Option<set<string>>, before: Hashes, was: map<string, Bytes>)
      ensures Agrees(before, was) ==> Covered(imageFields, only, before, was)
      ensures KeysDistinct(before.Keys + Names(imageFields)) ==> NoClash(imageFields, only, before)
    {
      hide Record.Key, Record.Content;
      if Agrees(before, was) {
        forall n | Target(imageFields, only, before, n).Some?
          ensures HasHash(was, Key(n), Target(imageFields, only, before, n).value) || StoresTo(imageFields, only, before, Key(n))
        {
          assert Saves(imageFields, only, before, n) || Tracked(before, n) == Target(imageFields, only, before, n);
        }
      }
      if KeysDistinct(before.Keys + Names(imageFields)) {
        assert forall n :: n in before || Target(imageFields, only, before, n).Some? ==> n in before.Keys + Names(imageFields);
      }
    }

    // ----- the first loop -----

    /** The fields `done` have been through the loop, each with its file. */
    ghost predicate Stored(done: set<string>, before: Hashes, hashes: Hashes, was: map<string, Bytes>, blobs: map<string, Bytes>)
      reads `flexFields, `rows
    {
      && (forall n :: n in done ==> Content(n).Ok?)
      && (forall n :: Tracked(hashes, n) ==
            if n in done && HasFile(n) then Some(Sha256(Content(n).value.value)) else Tracked(before, n))
      && (forall k :: StoredKey(done, before, was, blobs, k))
    }

    ghost predicate Saver(done: set<string>, before: Hashes, name: string)
      reads `flexFields, `rows
    {
      name in done && HasFile(name) && Tracked(before, name) != Some(Sha256(Content(name).value.value))
    }

    /** A key holds what one of its savers stored, or, without a saver, what it held. */
    ghost predicate StoredKey(done: set<string>, before: Hashes, was: map<string, Bytes>, blobs: map<string, Bytes>, key: string)
      reads `flexFields, `rows
    {
      if exists m :: Saver(done, before, m) && Key(m) == key
      then exists m :: Saver(done, before, m) && Key(m) == key && key in blobs && blobs[key] == Content(m).value.value
      else SameAt(key, was, blobs)
    }

    lemma StoredNothing(before: Hashes, was: map<string, Bytes>)
      ensures Stored({}, before, before, was, was)
    {
    }

    lemma SkippedOne(done: set<string>, name: string, before: Hashes, hashes: Hashes, was: map<string, Bytes>, blobs: map<string, Bytes>)
      requires Stored(done, before, hashes, was, blobs) && Content(name).Ok?
      requires HasFile(name) ==> Tracked(hashes, name) == Some(Sha256(Content(name).value.value))
      ensures Stored(done + {name}, before, hashes, was, blobs)
    {
      hide Record.Key, Record.Content;
      forall m ensures Saver(done + {name}, before, m) <==> Saver(done, before, m) {
        if m == name && m !in done && HasFile(m) {
          assert Tracked(hashes, m) == Tracked(before, m);
        }
      }
      forall k ensures StoredKey(done + {name}, before, was, blobs, k) {
        assert StoredKey(done, before, was, blobs, k);
      }
    }

    lemma SavedOne(done: set<string>, name: string, before: Hashes, hashes: Hashes, was: map<string, Bytes>, blobs: map<string, Bytes>)
      requires Stored(done, before, hashes, was, blobs) && HasFile(name)
      requires Tracked(hashes, name) != Some(Sha256(Content(name).value.value))
      ensures var bytes := Content(name).value.value;
        Stored(done + {name}, before, hashes[name := Sha256(bytes)], was, blobs[Key(name) := bytes])
    {
      hide Record.Key, Record.Content;
      var more, bytes := done + {name}, Content(name).value.value;
      assert name !in done && Saver(more, before, name);
      var after := blobs[Key(name) := bytes];
      forall k ensures StoredKey(more, before, was, after, k) {
        assert StoredKey(done, before, was, blobs, k);
        SaverOfOneMore(done, name, before, was, blobs, k);
      }
    }

    lemma SaverOfOneMore(done: set<string>, name: string, before: Hashes, was: map<string, Bytes>, blobs: map<string, Bytes>, key: string)
      requires StoredKey(done, before, was, blobs, key) && Saver(done + {name}, before, name)
      ensures StoredKey(done + {name}, before, was, blobs[Key(name) := Content(name).value.value], key)
    {
      hide Record.Key, Record.Content;
      if key == Key(name) {
      } else if m :| Saver(done, before, m) && Key(m) == key {
        var k :| Saver(done, before, k) && Key(k) == key && key in blobs && blobs[key] == Content(k).value.value;
        assert Saver(done + {name}, before, k);
      }
    }

    /** The first loop; it got through the first `saved` fields. */
    method SaveFields(names: seq<string>, storage: BlobStorage, broken: set<string>)
      returns (hashes: Hashes, result: map<string, string>, error: Option<SyncError>, ghost saved: nat)
      requires RowsOk()
      modifies storage
      ensures saved <= |names| && Stored(Names(names[..saved]), blobHashes, hashes, old(storage.blobs), storage.blobs)
      ensures error.Some? ==> saved < |names| && (Content(names[saved]).Err? || Key(names[saved]) in broken)
      ensures error.None? ==>
        && saved == |names|
        && (forall n :: n in result <==> n in names && HasFile(n))
        && (forall n :: n in result ==> result[n] == Key(n))
    {
      hide Record.Stored, Record.Key;
      hashes, result, error, saved := blobHashes, map[], None, 0;
      ghost var done: set<string> := {};
      StoredNothing(blobHashes, storage.blobs);
      for i := 0 to |names|
        invariant done == Names(names[..i])
        invariant Stored(done, blobHashes, hashes, old(storage.blobs), storage.blobs)
        invariant forall n :: n in result <==> n in done && HasFile(n)
        invariant forall n :: n in result ==> result[n] == Key(n)
      {
        var name := names[i];
        var content := Content(name);
        if content.Err? {
          return hashes, result, Some(content.error), i;
        }
        assert names[..i + 1] == names[..i] + [name];
        if content.value.Some? {
          var digest := Sha256(content.value.value);
          if name !in hashes || hashes[name] != digest {
            SavedOne(done, name, blobHashes, hashes, old(storage.blobs), storage.blobs);
            var saved := storage.Save(Key(name), content.value.value, broken);
            if !saved {
              return hashes, result, Some(StorageFailed(Key(name))), i;
            }
            hashes := hashes[name := digest];
          } else {
            SkippedOne(done, name, blobHashes, hashes, old(storage.blobs), storage.blobs);
          }
          result := result[name := Key(name)];
        } else {
          SkippedOne(done, name, blobHashes, hashes, old(storage.blobs), storage.blobs);
        }
        done := done + {name};
      }
      saved := |names|;
      assert names[..|names|] == names;
    }

    // ----- the second loop -----

    function Keys(names: set<string>): set<string> {
      set n | n in names :: Key(n)
    }

    /** The second loop: `gone` are the tracked fields in scope without a file. */
    method DropAbsent(hashes: Hashes, gone: set<string>, storage: BlobStorage, broken: set<string>)
      returns (left: Hashes, error: Option<SyncError>, ghost dropped: set<string>)
      requires gone <= hashes.Keys
      modifies storage
      ensures dropped <= gone && left == hashes - dropped && storage.blobs == old(storage.blobs) - Keys(dropped)
      ensures error.None? ==> dropped == gone
      ensures Keys(gone) !! broken ==> error.None?
    {
      hide Record.Key;
      left, error := hashes, None;
      var todo := gone;
      dropped := {};
      while todo != {}
        invariant todo <= gone && dropped == gone - todo
        invariant left == hashes - dropped
        invariant storage.blobs == old(storage.blobs) - Keys(dropped)
        decreases |todo|
      {
        var name :| name in todo;
        assert Key(name) in Keys(gone);
        var deleted := storage.Delete(Key(name), broken);
        if !deleted {
          return left, Some(StorageFailed(Key(name))), dropped;
        }
        left := left - {name};
        assert Keys(dropped + {name}) == Keys(dropped) + {Key(name)};
        dropped := dropped + {name};
        todo := todo - {name};
      }
    }

    // ----- the whole sync -----

    /**
     * The storage once the first `saved` selected fields are through the first loop and the blobs of
     * `dropped` are deleted: nothing at the keys of dropped fields, what one of the savers stored at
     * theirs, and everything else as it was.
     */
    ghost predicate Reached(names: seq<string>, before: Hashes, saved: nat, dropped: set<string>,
                            was: map<string, Bytes>, blobs: map<string, Bytes>)
      requires saved <= |names|
      reads `flexFields, `rows
    {
      && (forall n :: n in names[..saved] ==> Content(n).Ok?)
      && (forall k :: if k in Keys(dropped) then k !in blobs else StoredKey(Names(names[..saved]), before, was, blobs, k))
    }

    /** The hashes and the answer of a sync that ends. */
    ghost predicate Reconciled(imageFields: seq<string>, only: Option<set<string>>, keys: map<string, string>,
                               before: Hashes, after: Hashes)
      reads `flexFields, `rows
    {
      && (forall n :: Tracked(after, n) == Target(imageFields, only, before, n))
      && (forall n :: n in keys <==> n in imageFields && InScope(only, n) && HasFile(n))
      && (forall n :: n in keys ==> keys[n] == Key(n))
    }

    lemma ReconciledOutcome(imageFields: seq<string>, only: Option<set<string>>, keys: map<string, string>, before: Hashes,
                            hashes: Hashes, gone: set<string>, was: map<string, Bytes>, middle: map<string, Bytes>)
      requires var scope := Names(Selected(imageFields, only)); Stored(scope, before, hashes, was, middle)
      requires forall n :: n in keys <==> n in Selected(imageFields, only) && HasFile(n)
      requires forall n :: n in keys ==> keys[n] == Key(n)
      requires gone == set n | n in hashes && n !in keys && InScope(only, n)
      ensures Reconciled(imageFields, only, keys, before, hashes - gone)
      ensures forall n :: n in gone <==> Drops(imageFields, only, before, n)
    {
      hide Record.Key, Record.Content, Record.StoredKey, Record.HasFile;
      assert forall n :: n in Names(Selected(imageFields, only)) <==> n in imageFields && InScope(only, n);
      forall n ensures Tracked(hashes - gone, n) == Target(imageFields, only, before, n)
        ensures n in gone <==> Drops(imageFields, only, before, n)
      {
        assert n in hashes <==> Tracked(hashes, n).Some?;
      }
    }

    lemma ReachedAfter(names: seq<string>, before: Hashes, hashes: Hashes, saved: nat, dropped: set<string>,
                       was: map<string, Bytes>, middle: map<string, Bytes>)
      requires saved <= |names| && Stored(Names(names[..saved]), before, hashes, was, middle)
      ensures Reached(names, before, saved, dropped, was, middle - Keys(dropped))
    {
      hide Record.Key, Record.Content;
      forall k | k !in Keys(dropped)
        ensures StoredKey(Names(names[..saved]), before, was, middle - Keys(dropped), k)
      {
        assert StoredKey(Names(names[..saved]), before, was, middle, k);
      }
    }

    /** Without a clash no field to be tracked shares its key with a dropped one. */
    lemma NotDropped(imageFields: seq<string>, only: Option<set<string>>, before: Hashes, dropped: set<string>, n: string)
      requires NoClash(imageFields, only, before) && Target(imageFields, only, before, n).Some?
      requires forall m :: m in dropped ==> Drops(imageFields, only, before, m)
      ensures Key(n) !in Keys(dropped)
    {
      hide Record.Key, Record.Target;
    }

    /** What a sync that ends leaves at the key of a field to be tracked. */
    lemma AtTarget(imageFields: seq<string>, only: Option<set<string>>, before: Hashes, dropped: set<string>,
                   was: map<string, Bytes>, blobs: map<string, Bytes>, n: string)
      requires var names := Selected(imageFields, only); Reached(names, before, |names|, dropped, was, blobs)
      requires forall m :: m in dropped <==> Drops(imageFields, only, before, m)
      requires NoClash(imageFields, only, before) && Target(imageFields, only, before, n).Some?
      ensures HasHash(blobs, Key(n), Target(imageFields, only, before, n).value)
        <==> HasHash(was, Key(n), Target(imageFields, only, before, n).value) || StoresTo(imageFields, only, before, Key(n))
    {
      hide Record.Key, Record.Content, Record.HasFile, Record.StoredKey, Record.Target, Record.StoresTo, Record.NoClash;
      var names := Selected(imageFields, only);
      assert names[..|names|] == names;
      NotDropped(imageFields, only, before, dropped, n);
      assert StoredKey(Names(names), before, was, blobs, Key(n));
      StoredAtTarget(imageFields, only, before, was, blobs, n);
    }

    lemma StoredAtTarget(imageFields: seq<string>, only: Option<set<string>>, before: Hashes,
                         was: map<string, Bytes>, blobs: map<string, Bytes>, n: string)
      requires StoredKey(Names(Selected(imageFields, only)), before, was, blobs, Key(n))
      requires NoClash(imageFields, only, before) && Target(imageFields, only, before, n).Some?
      ensures HasHash(blobs, Key(n), Target(imageFields, only, before, n).value)
        <==> HasHash(was, Key(n), Target(imageFields, only, before, n).value) || StoresTo(imageFields, only, before, Key(n))
    {
      hide Record.Key, Record.Content;
      var all, key := Names(Selected(imageFields, only)), Key(n);
      SaversAreSaves(imageFields, only, before);
      if StoresTo(imageFields, only, before, key) {
        var m :| Saves(imageFields, only, before, m) && Key(m) == key;
        assert Saver(all, before, m);
        var k :| Saver(all, before, k) && Key(k) == key && key in blobs && blobs[key] == Content(k).value.value;
        assert Saves(imageFields, only, before, k);
        SavedIsTarget(imageFields, only, before, k);
      } else {
        assert forall m :: Saver(all, before, m) ==> Key(m) != key;
      }
    }

    lemma SavedIsTarget(imageFields: seq<string>, only: Option<set<string>>, before: Hashes, n: string)
      requires Saves(imageFields, only, before, n)
      ensures Target(imageFields, only, before, n) == Some(Sha256(Content(n).value.value))
    {
      hide Record.Content;
    }

    lemma SaversAreSaves(imageFields: seq<string>, only: Option<set<string>>, before: Hashes)
      ensures forall m :: Saver(Names(Selected(imageFields, only)), before, m) <==> Saves(imageFields, only, before, m)
    {
      hide Record.Content, Record.HasFile;
      assert forall n :: n in Names(Selected(imageFields, only)) <==> n in imageFields && InScope(only, n);
    }

    /** Agreement where two fields share a key leaves them the same hash, and none beside a dropped one. */
    lemma AgreementHasNoClash(imageFields: seq<string>, only: Option<set<string>>, before: Hashes, after: Hashes, dropped: set<string>,
                              was: map<string, Bytes>, blobs: map<string, Bytes>)
      requires var names := Selected(imageFields, only); Reached(names, before, |names|, dropped, was, blobs)
      requires forall m :: m in dropped <==> Drops(imageFields, only, before, m)
      requires forall n :: Tracked(after, n) == Target(imageFields, only, before, n)
      requires Agrees(after, blobs)
      ensures NoClash(imageFields, only, before)
    {
      hide Record.Key, Record.Content, Record.HasFile, Record.StoredKey, Record.Target;
      assert forall n :: n in after <==> Target(imageFields, only, before, n).Some?;
      assert forall n :: n in before && n !in after ==> n in dropped && Key(n) in Keys(dropped);
      assert forall n :: n in after ==> Key(n) in blobs && Key(n) !in Keys(dropped);
      forall a, b | (a in before || Target(imageFields, only, before, a).Some?) && (b in before || Target(imageFields, only, before, b).Some?)
        && Key(a) == Key(b)
        ensures Target(imageFields, only, before, a) == Target(imageFields, only, before, b)
      {
        if a in after && b in after {
          assert HasHash(blobs, Key(a), after[a]) && HasHash(blobs, Key(b), after[b]);
        }
      }
    }

    /**
     * A sync that ends leaves hashes and blobs in agreement, from any storage it started on, if and
     * only if no two fields that share a key clash and every field to be tracked was covered.
     */
    lemma AgreementExactly(imageFields: seq<string>, only: Option<set<string>>, before: Hashes, after: Hashes, dropped: set<string>,
                           was: map<string, Bytes>, blobs: map<string, Bytes>)
      requires var names := Selected(imageFields, only); Reached(names, before, |names|, dropped, was, blobs)
      requires forall m :: m in dropped <==> Drops(imageFields, only, before, m)
      requires forall n :: Tracked(after, n) == Target(imageFields, only, before, n)
      ensures Agrees(after, blobs) <==> NoClash(imageFields, only, before) && Covered(imageFields, only, before, was)
    {
      hide Record.Key, Record.Content, Record.HasFile, Record.Reached, Record.Drops, Record.Target, Record.StoresTo, Record.NoClash;
      if Agrees(after, blobs) {
        AgreementHasNoClash(imageFields, only, before, after, dropped, was, blobs);
      }
      if NoClash(imageFields, only, before) {
        assert forall n :: n in after <==> Target(imageFields, only, before, n).Some?;
        forall n | n in after
          ensures HasHash(blobs, Key(n), after[n]) <==> HasHash(was, Key(n), after[n]) || StoresTo(imageFields, only, before, Key(n))
        {
          AtTarget(imageFields, only, before, dropped, was, blobs, n);
        }
        assert Covered(imageFields, only, before, was) ==> Agrees(after, blobs);
        if Agrees(after, blobs) {
          forall n | Target(imageFields, only, before, n).Some?
            ensures HasHash(was, Key(n), Target(imageFields, only, before, n).value) || StoresTo(imageFields, only, before, Key(n))
          {
            assert n in after && HasHash(blobs, Key(n), after[n]);
          }
        }
      }
    }

    /** A sync that raises midway leaves every field covered that was, so the same sync can be tried again. */
    lemma StillCovered(imageFields: seq<string>, only: Option<set<string>>, before: Hashes, saved: nat, dropped: set<string>,
                       was: map<string, Bytes>, blobs: map<string, Bytes>)
      requires saved <= |Selected(imageFields, only)|
      requires Reached(Selected(imageFields, only), before, saved, dropped, was, blobs)
      requires forall m :: m in dropped ==> Drops(imageFields, only, before, m)
      requires NoClash(imageFields, only, before) && Covered(imageFields, only, before, was)
      ensures Covered(imageFields, only, before, blobs)
    {
      hide Record.Key, Record.Content, Record.HasFile;
      var done := Names(Selected(imageFields, only)[..saved]);
      SaversAreSaves(imageFields, only, before);
      assert forall m :: Saver(done, before, m) ==> Saver(Names(Selected(imageFields, only)), before, m);
      forall n | Target(imageFields, only, before, n).Some?
        ensures HasHash(blobs, Key(n), Target(imageFields, only, before, n).value) || StoresTo(imageFields, only, before, Key(n))
      {
        if !StoresTo(imageFields, only, before, Key(n)) {
          NotDropped(imageFields, only, before, dropped, n);
          assert StoredKey(done, before, was, blobs, Key(n));
        }
      }
    }

    /** The fields of the record that a sync concerns. */
    function Concerned(imageFields: seq<string>, only: Option<set<string>>): set<string>
      reads this
    {
      set n | n in blobHashes.Keys + Names(imageFields) && InScope(only, n)
    }

    /** Only blobs of fields in scope may differ. */
    ghost predicate Untouched(scope: set<string>, was: map<string, Bytes>, blobs: map<string, Bytes>) {
      forall k :: (forall n :: n in scope ==> Key(n) != k) ==> SameAt(k, was, blobs)
    }

    lemma TouchesConcernedOnly(imageFields: seq<string>, only: Option<set<string>>, saved: nat, dropped: set<string>,
                               was: map<string, Bytes>, blobs: map<string, Bytes>)
      requires saved <= |Selected(imageFields, only)|
      requires Reached(Selected(imageFields, only), blobHashes, saved, dropped, was, blobs)
      requires forall m :: m in dropped ==> Drops(imageFields, only, blobHashes, m)
      ensures Untouched(Concerned(imageFields, only), was, blobs)
    {
      hide Record.Key, Record.Content;
      var done, scope := Names(Selected(imageFields, only)[..saved]), Concerned(imageFields, only);
      assert done <= scope && dropped <= scope;
      forall k | forall n :: n in scope ==> Key(n) != k ensures SameAt(k, was, blobs) {
        assert k !in Keys(dropped);
        assert StoredKey(done, blobHashes, was, blobs, k);
      }
    }

    /** Fields outside `only` keep their blobs. */
    ghost predicate KeepsBlobs(names: set<string>, only: Option<set<string>>, was: map<string, Bytes>, blobs: map<string, Bytes>) {
      forall n :: n in names && !InScope(only, n) ==> SameAt(Key(n), was, blobs)
    }

    /** Where keys are distinct, a field outside `only` keeps its blob. */
    lemma OutsideScopeKeepsBlob(names: set<string>, only: Option<set<string>>, concerned: set<string>,
                                was: map<string, Bytes>, blobs: map<string, Bytes>)
      requires concerned <= names && forall n :: n in concerned ==> InScope(only, n)
      requires Untouched(concerned, was, blobs)
      ensures KeysDistinct(names) ==> KeepsBlobs(names, only, was, blobs)
    {
      hide Record.Key;
    }

    /** The blob holds the file that the field refers to, or the one it carries itself. */
    ghost predicate Current(name: string, blobs: map<string, Bytes>)
      reads `flexFields, `rows
    {
      && Key(name) in blobs && name in flexFields
      && match flexFields[name]
         case Reference(id) => id in rows && blobs[Key(name)] == rows[id].content
         case DataUri(payload) => payload == Some(blobs[Key(name)])
         case Other => false
    }

    /** Where hashes and blobs agree, the blobs answered hold the bytes of their fields. */
    lemma AgreedIsCurrent(imageFields: seq<string>, only: Option<set<string>>, keys: map<string, string>,
                          before: Hashes, after: Hashes, blobs: map<string, Bytes>)
      requires Reconciled(imageFields, only, keys, before, after)
      ensures Agrees(after, blobs) ==> forall n :: n in keys ==> Current(n, blobs)
    {
      hide Record.Key;
      if Agrees(after, blobs) {
        forall n | n in keys ensures Current(n, blobs) {
          assert Tracked(after, n) == Some(Sha256(Content(n).value.value));
        }
      }
    }

    /** Where a sync stands, ended or not. */
    ghost predicate InProgress(imageFields: seq<string>, only: Option<set<string>>, before: Hashes, saved: nat, dropped: set<string>,
                               was: map<string, Bytes>, blobs: map<string, Bytes>)
      reads `flexFields, `rows
    {
      && saved <= |Selected(imageFields, only)|
      && Reached(Selected(imageFields, only), before, saved, dropped, was, blobs)
      && (forall n :: n in dropped ==> Drops(imageFields, only, before, n))
    }

    /** A sync that ends is through both loops, tracks the current files and answers their keys. */
    ghost predicate Ended(imageFields: seq<string>, only: Option<set<string>>, keys: map<string, string>, before: Hashes, after: Hashes,
                          saved: nat, dropped: set<string>, blobs: map<string, Bytes>)
      reads `flexFields, `rows
    {
      && saved == |Selected(imageFields, only)|
      && (forall n :: n in dropped <==> Drops(imageFields, only, before, n))
      && Reconciled(imageFields, only, keys, before, after)
      && (Agrees(after, blobs) ==> forall n :: n in keys ==> Current(n, blobs))
    }

    /** Why a sync raised: at a field of the first loop, before anything was dropped, or in the second loop. */
    ghost predicate Failed(names: seq<string>, saved: nat, dropped: set<string>, broken: set<string>)
      reads `flexFields, `rows
    {
      saved < |names| ==> dropped == {} && (Content(names[saved]).Err? || Key(names[saved]) in broken)
    }

    /** No field in scope refers to a file the record does not own or carries malformed base64. */
    ghost predicate AllReadable(imageFields: seq<string>, only: Option<set<string>>)
      reads `flexFields, `rows
    {
      forall n :: n in imageFields && InScope(only, n) && n in flexFields ==>
        match flexFields[n]
        case Reference(id) => id in rows
        case DataUri(payload) => payload.Some?
        case Other => true
    }

    /**
     * `sync_record_blobs`; the sync got through the first `saved` selected fields and deleted the blobs
     * of `dropped`. A sync that ends tracks exactly the current files and leaves hashes and blobs in
     * agreement if and only if fields that share a key do not clash and every field was covered, as it
     * is where they agreed before. A sync that raises leaves the record alone and can be tried again.
     */
    method SyncRecordBlobs(imageFields: seq<string>, only: Option<set<string>>, storage: BlobStorage, broken: set<string>)
      returns (result: Result<map<string, string>, SyncError>, ghost saved: nat, ghost dropped: set<string>)
      requires RowsOk()
      modifies storage, `blobHashes
      ensures InProgress(imageFields, only, old(blobHashes), saved, dropped, old(storage.blobs), storage.blobs)
      ensures result.Ok? ==>
        Ended(imageFields, only, result.value, old(blobHashes), blobHashes, saved, dropped, storage.blobs)
      ensures result.Ok? ==>
        (Agrees(blobHashes, storage.blobs) <==>
          NoClash(imageFields, only, old(blobHashes)) && Covered(imageFields, only, old(blobHashes), old(storage.blobs)))
      ensures result.Ok? && old(Agrees(blobHashes, storage.blobs)) ==>
        (Agrees(blobHashes, storage.blobs) <==> NoClash(imageFields, only, old(blobHashes)))
      ensures result.Err? ==> blobHashes == old(blobHashes) && StaysCovered(imageFields, only, old(storage.blobs), storage.blobs)
      ensures result.Err? ==> Failed(Selected(imageFields, only), saved, dropped, broken)
      ensures result.Ok? ==> AllReadable(imageFields, only)
      ensures broken == {} && AllReadable(imageFields, only) ==> result.Ok?
      ensures Untouched(old(Concerned(imageFields, only)), old(storage.blobs), storage.blobs)
      ensures old(KeysDistinct(blobHashes.Keys + Names(imageFields))) ==>
        KeepsBlobs(old(blobHashes.Keys) + Names(imageFields), only, old(storage.blobs), storage.blobs)
    {
      hide Record.Key, Record.Content, Record.Agrees, Record.KeysDistinct, Record.Untouched, Record.Stored, Record.Reconciled,
        Record.Keys, Record.KeepsBlobs, Record.NoClash, Record.Covered, Record.Drops, Record.InProgress, Record.Ended, Record.AllReadable;
      var names := Selected(imageFields, only);
      ghost var before, was := blobHashes, storage.blobs;
      var hashes, keys, error;
      hashes, keys, error, saved := SaveFields(names, storage, broken);
      dropped := {};
      ghost var middle := storage.blobs;
      NothingDropped(middle);
      StandsAt(imageFields, only, hashes, saved, {}, was, middle);
      if error.Some? {
        NotReadable(imageFields, only, saved);
        return Err(error.value), saved, {};
      }
      var gone := set n | n in hashes && n !in keys && InScope(only, n);
      assert names[..|names|] == names;
      ReconciledOutcome(imageFields, only, keys, before, hashes, gone, was, middle);
      var left;
      left, error, dropped := DropAbsent(hashes, gone, storage, broken);
      StandsAt(imageFields, only, hashes, saved, dropped, was, middle);
      if error.Some? {
        return Err(error.value), saved, dropped;
      }
      HasEnded(imageFields, only, keys, left, dropped, was, storage.blobs);
      if left != blobHashes {
        blobHashes := left;
      }
      return Ok(keys), saved, dropped;
    }

    lemma NotReadable(imageFields: seq<string>, only: Option<set<string>>, saved: nat)
      requires saved < |Selected(imageFields, only)|
      ensures Content(Selected(imageFields, only)[saved]).Err? ==> !AllReadable(imageFields, only)
    {
      assert Selected(imageFields, only)[saved] in Selected(imageFields, only);
    }

    lemma HasEnded(imageFields: seq<string>, only: Option<set<string>>, keys: map<string, string>, after: Hashes, dropped: set<string>,
                   was: map<string, Bytes>, blobs: map<string, Bytes>)
      requires InProgress(imageFields, only, blobHashes, |Selected(imageFields, only)|, dropped, was, blobs)
      requires forall n :: n in dropped <==> Drops(imageFields, only, blobHashes, n)
      requires Reconciled(imageFields, only, keys, blobHashes, after)
      ensures Ended(imageFields, only, keys, blobHashes, after, |Selected(imageFields, only)|, dropped, blobs)
      ensures Agrees(after, blobs) <==> NoClash(imageFields, only, blobHashes) && Covered(imageFields, only, blobHashes, was)
      ensures Agrees(blobHashes, was) ==> (Agrees(after, blobs) <==> NoClash(imageFields, only, blobHashes))
      ensures AllReadable(imageFields, only)
    {
      hide Record.Key, Record.Agrees, Record.Keys, Record.NoClash, Record.Covered, Record.Drops, Record.StoredKey, Record.Current;
      assert Selected(imageFields, only)[..|Selected(imageFields, only)|] == Selected(imageFields, only);
      assert AllReadable(imageFields, only);
      hide Record.Content;
      AgreementExactly(imageFields, only, blobHashes, after, dropped, was, blobs);
      AgreedIsCurrent(imageFields, only, keys, blobHashes, after, blobs);
      UsualCase(imageFields, only, blobHashes, was);
    }

    lemma NothingDropped(blobs: map<string, Bytes>)
      ensures blobs - Keys({}) == blobs
    {
    }

    /** Without a clash, what was covered still is, so trying the same sync again reaches agreement. */
    ghost predicate StaysCovered(imageFields: seq<string>, only: Option<set<string>>, was: map<string, Bytes>, blobs: map<string, Bytes>)
      reads `flexFields, `rows, `blobHashes
    {
      NoClash(imageFields, only, blobHashes) && Covered(imageFields, only, blobHashes, was) ==> Covered(imageFields, only, blobHashes, blobs)
    }

    /** What holds wherever a sync is left. */
    lemma StandsAt(imageFields: seq<string>, only: Option<set<string>>, hashes: Hashes, saved: nat, dropped: set<string>,
                   was: map<string, Bytes>, middle: map<string, Bytes>)
      requires saved <= |Selected(imageFields, only)|
      requires Stored(Names(Selected(imageFields, only)[..saved]), blobHashes, hashes, was, middle)
      requires forall m :: m in dropped ==> Drops(imageFields, only, blobHashes, m)
      ensures var blobs, names := middle - Keys(dropped), blobHashes.Keys + Names(imageFields);
        && InProgress(imageFields, only, blobHashes, saved, dropped, was, blobs)
        && StaysCovered(imageFields, only, was, blobs)
        && Untouched(Concerned(imageFields, only), was, blobs)
        && (KeysDistinct(names) ==> KeepsBlobs(names, only, was, blobs))
    {
      var blobs := middle - Keys(dropped);
      ReachedAfter(Selected(imageFields, only), blobHashes, hashes, saved, dropped, was, middle);
      hide Record.Key, Record.Content, Record.Reached, Record.NoClash, Record.Covered, Record.Untouched, Record.KeysDistinct,
        Record.KeepsBlobs, Record.Drops, Record.Stored, Record.Keys;
      if NoClash(imageFields, only, blobHashes) && Covered(imageFields, only, blobHashes, was) {
        StillCovered(imageFields, only, blobHashes, saved, dropped, was, blobs);
      }
      TouchesConcernedOnly(imageFields, only, saved, dropped, was, blobs);
      OutsideScopeKeepsBlob(blobHashes.Keys + Names(imageFields), only, Concerned(imageFields, only), was, blobs);
    }
  }

  // ----- syncs that end without agreement -----

  /** Two names with one key. */
  function Twins(): seq<string> {
    ["a b", "a_b"]
  }

  function FirstTwinOnly(): map<string, Value> {
    map["a b" := DataUri(Some([1]))]
  }

  function DifferentTwins(): map<string, Value> {
    map["a b" := DataUri(Some([1])), "a_b" := DataUri(Some([2]))]
  }

  /** Both were stored with the same file. */
  function BothTracked(): Hashes {
    map["a b" := Sha256([1]), "a_b" := Sha256([1])]
  }

  function OneBlob(key: string): map<string, Bytes> {
    map[key := [1]]
  }

  lemma SameFileClashes(record: Record)
    requires record.flexFields == FirstTwinOnly()
    ensures record.Agrees(BothTracked(), OneBlob(record.Key("a b"))) && record.AllReadable(Twins(), None)
    ensures record.Drops(Twins(), None, BothTracked(), "a_b") && !record.NoClash(Twins(), None, BothTracked())
  {
    record.KeysCanCollide();
    hide Record.Key;
    assert "a b" in Twins();
    assert record.Target(Twins(), None, BothTracked(), "a b") == Some(Sha256([1]));
    assert record.Target(Twins(), None, BothTracked(), "a_b") == None;
  }

  /** What a sync leaves of them: the hash and the file of the first, and no blob. */
  lemma SameFileIsDropped(record: Record, keys: map<string, string>, after: Hashes, saved: nat, dropped: set<string>,
                          was: map<string, Bytes>, blobs: map<string, Bytes>)
    requires record.flexFields == FirstTwinOnly()
    requires record.InProgress(Twins(), None, BothTracked(), saved, dropped, was, blobs)
    requires record.Ended(Twins(), None, keys, BothTracked(), after, saved, dropped, blobs)
    ensures record.HasFile("a b") && "a b" in after && record.Key("a b") !in blobs && !record.Agrees(after, blobs)
  {
    record.KeysCanCollide();
    SameFileClashes(record);
    hide Record.Key, Record.NoClash, Record.StoredKey, Record.Selected, BothTracked;
    assert "a b" in Twins();
    assert record.Target(Twins(), None, BothTracked(), "a b") == Some(Sha256([1])) == Tracked(after, "a b");
    assert record.Key("a_b") in record.Keys(dropped);
  }

  lemma DifferentFilesClash(record: Record)
    requires record.flexFields == DifferentTwins()
    ensures record.Agrees(map[], map[]) && record.AllReadable(Twins(), None) && !record.NoClash(Twins(), None, map[])
  {
    record.KeysCanCollide();
    hide Record.Key;
    assert "a b" in Twins() && Twins()[1] in Twins();
    assert record.Target(Twins(), None, map[], "a b") == Some(Sha256([1]));
    assert record.Target(Twins(), None, map[], "a_b") == Some(Sha256([2]));
  }

  /** The sync of both twins, of which the second has lost its file. */
  method SyncTwins(directory: string) returns (record: Record, storage: BlobStorage, ghost keys: map<string, string>, ghost saved: nat,
                                               ghost dropped: set<string>, ghost was: map<string, Bytes>)
    ensures record.flexFields == FirstTwinOnly()
    ensures record.InProgress(Twins(), None, BothTracked(), saved, dropped, was, storage.blobs)
    ensures record.Ended(Twins(), None, keys, BothTracked(), record.blobHashes, saved, dropped, storage.blobs)
  {
    record := new Record(directory, FirstTwinOnly(), BothTracked());
    storage := new BlobStorage(OneBlob(record.Key("a b")));
    was := storage.blobs;
    SameFileClashes(record);
    hide Record.RowsOk, Record.Content, Record.HasFile, Record.Key, Record.Agrees, Record.NoClash, Record.Covered, Record.InProgress,
      Record.Ended, Record.Failed, Record.Untouched, Record.KeepsBlobs, Record.StaysCovered, Record.KeysDistinct, Record.AllReadable,
      Record.Selected, Record.Concerned, FirstTwinOnly, DifferentTwins, BothTracked, Twins, TwoFields, NewAndMalformed, Reverted,
      OldTracked, OneBlob, HasHash, Names;
    var result;
    result, saved, dropped := record.SyncRecordBlobs(Twins(), None, storage, {});
    keys := result.value;
  }

  /** A sync deletes the blob of a field whose hash and file stay. */
  method TwinLosesItsBlob(directory: string) returns (record: Record, storage: BlobStorage)
    ensures record.HasFile("a b") && "a b" in record.blobHashes && record.Key("a b") !in storage.blobs
    ensures !record.Agrees(record.blobHashes, storage.blobs)
  {
    ghost var keys, saved, dropped, was;
    record, storage, keys, saved, dropped, was := SyncTwins(directory);
    SameFileIsDropped(record, keys, record.blobHashes, saved, dropped, was, storage.blobs);
  }

  /** A sync stores one of two files under a key that both fields go on to claim. */
  method TwinOverwritesTwin(directory: string) returns (record: Record, storage: BlobStorage)
    ensures !record.Agrees(record.blobHashes, storage.blobs)
  {
    record := new Record(directory, DifferentTwins(), map[]);
    storage := new BlobStorage(map[]);
    DifferentFilesClash(record);
    hide Record.RowsOk, Record.Content, Record.HasFile, Record.Key, Record.Agrees, Record.NoClash, Record.Covered, Record.InProgress,
      Record.Ended, Record.Failed, Record.Untouched, Record.KeepsBlobs, Record.StaysCovered, Record.KeysDistinct, Record.AllReadable,
      Record.Selected, Record.Concerned, FirstTwinOnly, DifferentTwins, BothTracked, Twins, TwoFields, NewAndMalformed, Reverted,
      OldTracked, OneBlob, HasHash, Names;
    var result, saved, dropped := record.SyncRecordBlobs(Twins(), None, storage, {});
  }

  function TwoFields(): seq<string> {
    ["a", "b"]
  }

  /** `a` has a new file and `b` a malformed one. */
  function NewAndMalformed(): map<string, Value> {
    map["a" := DataUri(Some([2])), "b" := DataUri(None)]
  }

  function Reverted(): map<string, Value> {
    map["a" := DataUri(Some([1]))]
  }

  function OldTracked(): Hashes {
    map["a" := Sha256([1])]
  }

  lemma MalformedRaises(record: Record)
    requires record.flexFields == NewAndMalformed()
    ensures !record.AllReadable(TwoFields(), None)
  {
    assert TwoFields()[1] in TwoFields();
  }

  lemma TwoSelected(record: Record)
    ensures record.Selected(TwoFields(), None) == ["a", "b"]
  {
    assert ["a", "b"][1..] == ["b"] && ["b"][1..] == [];
    assert record.Selected(["b"], None) == ["b"] + record.Selected([], None);
  }

  /** The sync raises at `b` once the new file of `a` is stored. */
  lemma StoredBeforeRaising(record: Record, saved: nat, dropped: set<string>, was: map<string, Bytes>, blobs: map<string, Bytes>)
    requires record.flexFields == NewAndMalformed()
    requires record.InProgress(TwoFields(), None, OldTracked(), saved, dropped, was, blobs)
    requires record.Failed(record.Selected(TwoFields(), None), saved, dropped, {})
    ensures HasHash(blobs, record.Key("a"), Sha256([2]))
  {
    hide Record.Key;
    TwoSelected(record);
    assert record.Content("b").Err? && record.Content("a").Ok?;
    assert "b" in ["a", "b"][..2];
    assert saved == 1 && ["a", "b"][..1] == ["a"] && Names(["a"]) == {"a"};
    assert record.Key("a") !in record.Keys({});
    assert record.StoredKey({"a"}, OldTracked(), was, blobs, record.Key("a"));
    assert record.Saver({"a"}, OldTracked(), "a");
  }

  /** The tracked hash is that of the file of now, so the sync stores nothing, and the blob is another file. */
  lemma StaleBlobIsNotCovered(record: Record, blobs: map<string, Bytes>)
    requires record.flexFields == Reverted()
    requires HasHash(blobs, record.Key("a"), Sha256([2]))
    ensures !record.Covered(TwoFields(), None, OldTracked(), blobs) && record.AllReadable(TwoFields(), None)
  {
    hide Record.Key;
    assert "a" in TwoFields();
    assert record.Target(TwoFields(), None, OldTracked(), "a") == Some(Sha256([1]));
    assert forall m :: !record.Saves(TwoFields(), None, OldTracked(), m);
  }

  /** The first sync, which raises. */
  method StoredThenRaised(directory: string) returns (record: Record, storage: BlobStorage)
    ensures fresh(record) && fresh(storage)
    ensures record.flexFields == NewAndMalformed() && record.blobHashes == OldTracked() && record.RowsOk()
    ensures HasHash(storage.blobs, record.Key("a"), Sha256([2]))
  {
    record := new Record(directory, NewAndMalformed(), OldTracked());
    storage := new BlobStorage(OneBlob(record.Key("a")));
    ghost var was := storage.blobs;
    MalformedRaises(record);
    hide Record.RowsOk, Record.Content, Record.HasFile, Record.Key, Record.Agrees, Record.NoClash, Record.Covered, Record.InProgress,
      Record.Ended, Record.Failed, Record.Untouched, Record.KeepsBlobs, Record.StaysCovered, Record.KeysDistinct, Record.AllReadable,
      Record.Selected, Record.Concerned, FirstTwinOnly, DifferentTwins, BothTracked, Twins, TwoFields, NewAndMalformed, Reverted,
      OldTracked, OneBlob, HasHash, Names;
    var result, saved, dropped := record.SyncRecordBlobs(TwoFields(), None, storage, {});
    StoredBeforeRaising(record, saved, dropped, was, storage.blobs);
  }

  /**
   * A sync stores the new file of `a` and raises at `b`; `a` gets its old file back, `b` is cleared,
   * and the next sync finds the hash unchanged and leaves the wrong blob.
   */
  method RevertedFileStaysWrong(directory: string) returns (record: Record, storage: BlobStorage)
    ensures !record.Agrees(record.blobHashes, storage.blobs)
  {
    record, storage := StoredThenRaised(directory);
    hide Record.RowsOk, Record.Content, Record.HasFile, Record.Key, Record.Agrees, Record.NoClash, Record.Covered, Record.InProgress,
      Record.Ended, Record.Failed, Record.Untouched, Record.KeepsBlobs, Record.StaysCovered, Record.KeysDistinct, Record.AllReadable,
      Record.Selected, Record.Concerned, FirstTwinOnly, DifferentTwins, BothTracked, Twins, TwoFields, NewAndMalformed, Reverted,
      OldTracked, OneBlob, HasHash, Names;
    record.flexFields := Reverted();
    StaleBlobIsNotCovered(record, storage.blobs);
    var result, saved, dropped := record.SyncRecordBlobs(TwoFields(), None, storage, {});
  }

  function Names(names: seq<string>): set<string> {
    set n | n in names
  }
}
