/** The replies that a client sees: rebuilt from whitelisted fields of the upstream reply. */
module Reply {
  import opened Values
  import opened PolicyTables
  import opened Policy

  // ------------------------------------------------------------ building documents

  function OrNull(o: Option<Value>): Value { if o.Some? then o.value else Null }

  /** One field for each key that `f` gives a value for, in the order of the keys. */
  function Pick(keys: seq<string>, f: string -> Option<Value>): Doc
  {
    if keys == [] then []
    else (if f(keys[0]).Some? then [Field(keys[0], f(keys[0]).value)] else []) + Pick(keys[1..], f)
  }

  /** The items that `f` gives a value for, replaced by it. */
  function Sift(items: seq<Value>, f: Value -> Option<Value>): seq<Value>
  {
    if items == [] then []
    else (if f(items[0]).Some? then [f(items[0]).value] else []) + Sift(items[1..], f)
  }

  predicate AllDistinct(keys: seq<string>)
  {
    forall i, j :: 0 <= i < j < |keys| ==> keys[i] != keys[j]
  }

  lemma GetOfCons(first: Field, rest: Doc, key: string)
    ensures Get([first] + rest, key) == if first.key == key then first.value else Get(rest, key)
    ensures Present([first] + rest, key) <==> first.key == key || Present(rest, key)
  {
    var d := [first] + rest;
    assert d[1..] == rest && d[0] == first;
    assert forall i :: 0 < i < |d| ==> d[i] == rest[i - 1];
    assert forall i :: 0 <= i < |rest| ==> d[i + 1] == rest[i];
  }

  lemma {:induction false} PickGet(keys: seq<string>, f: string -> Option<Value>, key: string)
    ensures Get(Pick(keys, f), key) == if key in keys then OrNull(f(key)) else Null
    ensures Present(Pick(keys, f), key) <==> key in keys && f(key).Some?
  {
    if keys != [] {
      hide Get, Present;
      PickGet(keys[1..], f, key);
      var rest := Pick(keys[1..], f);
      if f(keys[0]).Some? {
        GetOfCons(Field(keys[0], f(keys[0]).value), rest, key);
      } else {
        assert [] + rest == rest;
      }
    }
  }

  lemma UniqueCons(first: Field, rest: Doc)
    requires UniqueKeys(rest) && !Present(rest, first.key)
    ensures UniqueKeys([first] + rest)
  {
    var d := [first] + rest;
    forall i, j | 0 <= i < j < |d| ensures d[i].key != d[j].key {
      assert d[j] == rest[j - 1];
      if i > 0 { assert d[i] == rest[i - 1]; }
    }
  }

  lemma {:induction false} PickUnique(keys: seq<string>, f: string -> Option<Value>)
    requires AllDistinct(keys)
    ensures UniqueKeys(Pick(keys, f))
  {
    if keys != [] {
      var rest := Pick(keys[1..], f);
      PickUnique(keys[1..], f);
      PickGet(keys[1..], f, keys[0]);
      assert keys[0] !in keys[1..];
      if f(keys[0]).Some? {
        UniqueCons(Field(keys[0], f(keys[0]).value), rest);
      } else {
        assert [] + rest == rest;
      }
    }
  }

  lemma {:induction false} PickSame(keys: seq<string>, f: string -> Option<Value>, g: string -> Option<Value>)
    requires forall i :: 0 <= i < |keys| ==> f(keys[i]) == g(keys[i])
    ensures Pick(keys, f) == Pick(keys, g)
  {
    if keys != [] {
      assert f(keys[0]) == g(keys[0]);
      assert forall i :: 0 <= i < |keys[1..]| ==> keys[1..][i] == keys[i + 1];
      PickSame(keys[1..], f, g);
    }
  }

  ghost predicate StableItem(f: Value -> Option<Value>)
  {
    forall v: Value :: f(v).Some? ==> f(f(v).value) == f(v)
  }

  lemma {:induction false} SiftStable(items: seq<Value>, f: Value -> Option<Value>)
    requires StableItem(f)
    ensures Sift(Sift(items, f), f) == Sift(items, f)
  {
    if items != [] {
      SiftStable(items[1..], f);
      var rest := Sift(items[1..], f);
      if f(items[0]).Some? {
        var d := [f(items[0]).value] + rest;
        assert d[1..] == rest;
      } else {
        assert [] + rest == rest;
      }
    }
  }

  ghost predicate SameItems(a: seq<Value>, b: seq<Value>, f: Value -> Option<Value>)
  {
    |a| == |b| && forall i :: 0 <= i < |a| ==> f(a[i]) == f(b[i])
  }

  lemma {:induction false} SiftSame(a: seq<Value>, b: seq<Value>, f: Value -> Option<Value>)
    requires SameItems(a, b, f)
    ensures Sift(a, f) == Sift(b, f)
  {
    if a != [] {
      assert f(a[0]) == f(b[0]);
      assert forall i :: 0 <= i < |a[1..]| ==> a[1..][i] == a[i + 1] && b[1..][i] == b[i + 1];
      SiftSame(a[1..], b[1..], f);
    }
  }

  // ------------------------------------------------------------------- the cleaners

  const ONE: Value := Double(0x3FF0_0000_0000_0000)
  const ZERO: Value := Double(0)

  function Ok(reply: Doc): bool { InRange(Get(reply, "ok"), 1, 1) }

  function KeepCount(v: Value): Option<Value> { if InRange(v, 0, MAX_INT64) then Some(v) else None }

  function KeepInt(v: Value): Option<Value> { if IntOf(v).Some? then Some(v) else None }

  function KeepBool(v: Value): Option<Value> { if v.Bool? then Some(v) else None }

  function ErrorCode(doc: Doc): (v: Value)
    ensures InRange(v, 0, MAX_INT32)
  {
    if InRange(Get(doc, "code"), 0, MAX_INT32) then Get(doc, "code") else Int32(8)
  }

  function CodeName(code: int): string
  {
    if code == 13 then "Unauthorized"
    else if code == 18 then "AuthenticationFailed"
    else if code == 50 then "MaxTimeMSExpired"
    else if code == 11000 then "DuplicateKey"
    else "CommandFailed"
  }

  /** Error fields: the text of the upstream message is never among them. */
  function ErrorField(doc: Doc, key: string): Option<Value>
  {
    if key == "code" then Some(ErrorCode(doc))
    else if key == "codeName" then Some(String(CodeName(IntOf(ErrorCode(doc)).value)))
    else if key == "errmsg" then Some(String("MongoDB operation failed"))
    else if key == "index" then KeepCount(Get(doc, "index"))
    else None
  }

  function ErrorKeys(index: bool): seq<string>
  {
    ["code", "codeName", "errmsg"] + (if index then ["index"] else [])
  }

  /** mongoPolicyError. */
  function CleanError(doc: Doc, index: bool): Doc
  {
    Pick(ErrorKeys(index), key => ErrorField(doc, key))
  }

  function CleanWriteError(v: Value): Option<Value>
  {
    if v.Document? then Some(Document(CleanError(v.fields, true))) else None
  }

  function KeepLabel(v: Value): Option<Value>
  {
    if v.String? && v.text in ["RetryableWriteError", "NoWritesPerformed", "TransientTransactionError",
                               "UnknownTransactionCommitResult", "ResumableChangeStreamError",
                               "NonResumableChangeStreamError"] then Some(v)
    else None
  }

  function CleanUpsert(v: Value): Option<Value>
  {
    if v.Document? && InRange(Get(v.fields, "index"), 0, MAX_INT32) then
      Some(Document([Field("index", Get(v.fields, "index")), Field("_id", Get(v.fields, "_id"))]))
    else None
  }

  function DatabaseField(d: Doc, key: string): Option<Value>
  {
    if key == "name" then Some(Get(d, "name"))
    else if key == "sizeOnDisk" then KeepCount(Get(d, "sizeOnDisk"))
    else if key == "empty" then KeepBool(Get(d, "empty"))
    else None
  }

  function CleanDatabase(v: Value): Option<Value>
  {
    if v.Document? && DatabaseName(Get(v.fields, "name"), false) then
      Some(Document(Pick(["name", "sizeOnDisk", "empty"], key => DatabaseField(v.fields, key))))
    else None
  }

  function CleanCollection(v: Value): Option<Value>
  {
    if v.Document? && Get(v.fields, "type") == String("collection") && CollectionName(Get(v.fields, "name")) then
      Some(Document([Field("name", Get(v.fields, "name")), Field("type", String("collection"))]))
    else None
  }

  predicate IndexPart(part: Value)
  {
    PlusOrMinusOne(part) || (part.String? && part.text in ["text", "hashed", "2d", "2dsphere"])
  }

  predicate IndexKey(v: Value)
  {
    && FieldDoc(v)
    && forall i :: 0 <= i < |v.fields| ==> IndexPart(v.fields[i].value)
  }

  function IndexField(d: Doc, key: string): Option<Value>
  {
    if key == "key" || key == "name" then Some(Get(d, key))
    else if key == "v" || key == "expireAfterSeconds" then KeepCount(Get(d, key))
    else if key == "unique" || key == "sparse" || key == "hidden" then KeepBool(Get(d, key))
    else None
  }

  function IndexKeys(): seq<string> { ["v", "key", "name", "unique", "sparse", "hidden", "expireAfterSeconds"] }

  function CleanIndex(v: Value): Option<Value>
  {
    if v.Document? && FieldName(Get(v.fields, "name")) && IndexKey(Get(v.fields, "key")) then
      Some(Document(Pick(IndexKeys(), key => IndexField(v.fields, key))))
    else None
  }

  /** mongoPolicyMetadataBatch. */
  function CleanBatch(verb: Verb, items: seq<Value>): seq<Value>
  {
    if verb == ListCollections then Sift(items, CleanCollection)
    else if verb == ListIndexes then Sift(items, CleanIndex)
    else items
  }

  function BatchField(verb: Verb, v: Value): Option<Value>
  {
    if v.Array? then Some(Array(CleanBatch(verb, v.items))) else None
  }

  function CursorField(verb: Verb, cursor: Doc, key: string): Option<Value>
  {
    var v := Get(cursor, key);
    if key == "id" then KeepInt(v)
    else if key == "ns" then if v.String? then Some(v) else None
    else if key == "firstBatch" || key == "nextBatch" then BatchField(verb, v)
    else None
  }

  function CursorKeys(): seq<string> { ["id", "ns", "firstBatch", "nextBatch"] }

  function CleanCursor(verb: Verb, cursor: Doc): Doc { Pick(CursorKeys(), key => CursorField(verb, cursor, key)) }

  function LastErrorField(d: Doc, key: string): Option<Value>
  {
    var v := Get(d, key);
    if key == "n" then KeepCount(v)
    else if key == "updatedExisting" then KeepBool(v)
    else if key == "upserted" then if v != Null then Some(v) else None
    else None
  }

  function LastErrorKeys(): seq<string> { ["n", "updatedExisting", "upserted"] }

  function Cleaned(v: Value, f: Value -> Option<Value>): Option<Value>
  {
    if v.Array? then Some(Array(Sift(v.items, f))) else None
  }

  predicate VersionText(v: Value)
  {
    v.String? && 0 < |v.text| <= 32 && OnlyFrom(v.text, "0123456789.")
  }

  predicate VersionNumbers(v: Value)
  {
    v.Array? && |v.items| == 4 && forall i :: 0 <= i < 4 ==> InRange(v.items[i], 0, MAX_INT32)
  }

  datatype Part =
    | OkPart | CursorPart | ValuePart | LastErrorPart | ValuesPart | CountPart | UpsertedPart | IdsPart
    | DatabasesPart | VersionPart | VersionNumbersPart | WriteErrorsPart | ConcernPart | LabelsPart | TimePart
    | ErrorPart

  function PartOf(key: string): Part
  {
    if key == "ok" then OkPart
    else if key == "cursor" then CursorPart
    else if key == "value" then ValuePart
    else if key == "lastErrorObject" then LastErrorPart
    else if key == "values" then ValuesPart
    else if key == "n" || key == "nModified" then CountPart
    else if key == "upserted" then UpsertedPart
    else if key in ["cursorsKilled", "cursorsNotFound", "cursorsAlive", "cursorsUnknown"] then IdsPart
    else if key == "databases" then DatabasesPart
    else if key == "version" then VersionPart
    else if key == "versionArray" then VersionNumbersPart
    else if key == "writeErrors" then WriteErrorsPart
    else if key == "writeConcernError" then ConcernPart
    else if key == "errorLabels" then LabelsPart
    else if key == "operationTime" then TimePart
    else ErrorPart
  }

  /** The public form of one top-level field; None leaves it out. */
  function PublicField(verb: Verb, reply: Doc, key: string): Option<Value>
  {
    var v := Get(reply, key);
    match PartOf(key)
    case OkPart => Some(if Ok(reply) then ONE else ZERO)
    case ErrorPart => ErrorField(reply, key)
    case CursorPart => if v.Document? then Some(Document(CleanCursor(verb, v.fields))) else None
    case ValuePart => if v == Null || v.Document? then Some(v) else None
    case LastErrorPart =>
      if v.Document? then Some(Document(Pick(LastErrorKeys(), k => LastErrorField(v.fields, k)))) else None
    case ValuesPart => if v.Array? then Some(v) else None
    case CountPart => KeepCount(v)
    case UpsertedPart => Cleaned(v, CleanUpsert)
    case IdsPart => Cleaned(v, KeepInt)
    case DatabasesPart => Cleaned(v, CleanDatabase)
    case VersionPart => if VersionText(v) then Some(v) else None
    case VersionNumbersPart => if VersionNumbers(v) then Some(v) else None
    case WriteErrorsPart => Cleaned(v, CleanWriteError)
    case ConcernPart => if v.Document? then Some(Document(CleanError(v.fields, false))) else None
    case LabelsPart => if v.Array? && Sift(v.items, KeepLabel) != [] then Cleaned(v, KeepLabel) else None
    case TimePart => if v.Timestamp? then Some(v) else None
  }

  function KillKeys(): seq<string> { ["cursorsKilled", "cursorsNotFound", "cursorsAlive", "cursorsUnknown"] }

  function OwnKeys(verb: Verb): seq<string>
  {
    match verb
    case Find | Aggregate | GetMore | ListCollections | ListIndexes => ["cursor"]
    case FindAndModify => ["value", "lastErrorObject"]
    case Distinct => ["values"]
    case Count | Insert | Delete => ["n", "nModified"]
    case Update => ["n", "nModified", "upserted"]
    case KillCursors => KillKeys()
    case ListDatabases => ["databases"]
    case BuildInfo => ["version", "versionArray"]
    case _ => []
  }

  function CommonKeys(): seq<string> { ["writeErrors", "writeConcernError", "errorLabels", "operationTime"] }

  function PublicKeys(verb: Verb, ok: bool): seq<string>
  {
    ["ok"] + (if ok then OwnKeys(verb) else ErrorKeys(false)) + CommonKeys()
  }

  /** mongoPublicReply. */
  function PublicReply(verb: Verb, reply: Doc): Doc
  {
    Pick(PublicKeys(verb, Ok(reply)), key => PublicField(verb, reply, key))
  }

  // ------------------------------------------------------- the part that a key stands for

  lemma OwnParts()
    ensures PartOf("cursor") == CursorPart && PartOf("value") == ValuePart && PartOf("lastErrorObject") == LastErrorPart
    ensures PartOf("values") == ValuesPart && PartOf("n") == CountPart && PartOf("nModified") == CountPart
    ensures PartOf("upserted") == UpsertedPart && PartOf("databases") == DatabasesPart
    ensures PartOf("version") == VersionPart && PartOf("versionArray") == VersionNumbersPart
  {
    assert |"ok"| == 2 && |"cursor"| == 6 && |"value"| == 5 && |"lastErrorObject"| == 15 && |"values"| == 6;
    assert |"n"| == 1 && |"nModified"| == 9 && |"upserted"| == 8 && |"databases"| == 9 && |"version"| == 7;
    assert |"versionArray"| == 12 && |"cursorsKilled"| == 13 && |"cursorsNotFound"| == 15;
    assert |"cursorsAlive"| == 12 && |"cursorsUnknown"| == 14;
    assert "cursor"[0] != "values"[0] && "nModified"[0] != "databases"[0];
    assert "versionArray"[0] != "cursorsAlive"[0];
  }

  lemma KillParts(k: nat)
    requires k < 4
    ensures PartOf(KillKeys()[k]) == IdsPart
  {
    var key := KillKeys()[k];
    assert |"ok"| == 2 && |"cursor"| == 6 && |"value"| == 5 && |"lastErrorObject"| == 15 && |"values"| == 6;
    assert |"n"| == 1 && |"nModified"| == 9 && |"upserted"| == 8;
    assert |key| >= 12 && key[0] == 'c';
  }

  lemma CommonParts()
    ensures PartOf("ok") == OkPart
    ensures PartOf("writeErrors") == WriteErrorsPart && PartOf("writeConcernError") == ConcernPart
    ensures PartOf("errorLabels") == LabelsPart && PartOf("operationTime") == TimePart
  {
    NoOwnPart("ok");
    NoOwnPart("writeErrors");
    NoOwnPart("writeConcernError");
    NoOwnPart("errorLabels");
    NoOwnPart("operationTime");
    assert |"ok"| == 2 && |"writeErrors"| == 11 && |"writeConcernError"| == 17 && |"operationTime"| == 13;
    assert "writeErrors"[0] != "errorLabels"[0];
  }

  lemma ErrorParts()
    ensures PartOf("code") == ErrorPart && PartOf("codeName") == ErrorPart && PartOf("errmsg") == ErrorPart
  {
    NoOwnPart("code");
    NoOwnPart("codeName");
    NoOwnPart("errmsg");
    assert |"ok"| == 2 && |"writeErrors"| == 11 && |"writeConcernError"| == 17 && |"operationTime"| == 13;
    assert |"errorLabels"| == 11 && |"code"| == 4 && |"codeName"| == 8 && |"errmsg"| == 6;
  }

  /** A key that no command has as its own: by its first octet, or by its length. */
  lemma NoOwnPart(key: string)
    requires key != "" && (key[0] in "oew" || (key[0] == 'c' && (|key| == 4 || |key| == 8)))
    ensures PartOf(key) ==
            if key == "ok" then OkPart
            else if key == "writeErrors" then WriteErrorsPart
            else if key == "writeConcernError" then ConcernPart
            else if key == "errorLabels" then LabelsPart
            else if key == "operationTime" then TimePart
            else ErrorPart
  {
    assert |"cursor"| == 6 && "cursor"[0] == 'c' && "value"[0] == 'v' && "lastErrorObject"[0] == 'l';
    assert "values"[0] == 'v' && "n"[0] == 'n' && "nModified"[0] == 'n' && "upserted"[0] == 'u';
    assert "databases"[0] == 'd' && "version"[0] == 'v' && "versionArray"[0] == 'v';
    assert |"cursorsKilled"| == 13 && |"cursorsNotFound"| == 15 && |"cursorsAlive"| == 12 && |"cursorsUnknown"| == 14;
    assert "cursorsKilled"[0] == 'c' && "cursorsNotFound"[0] == 'c' && "cursorsAlive"[0] == 'c';
    assert "cursorsUnknown"[0] == 'c';
  }
}
