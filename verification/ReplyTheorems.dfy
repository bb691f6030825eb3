/** Public replies: unique keys, stable under a second pass, and blind to everything that is not whitelisted. */
module ReplyTheorems {
  import opened Values
  import opened PolicyTables
  import opened Policy
  import opened Reply

  // -------------------------------------------------------------------- unique keys

  predicate NoRepeats(keys: seq<string>) { keys == [] || (keys[0] !in keys[1..] && NoRepeats(keys[1..])) }

  lemma {:induction false} NoRepeatsDistinct(keys: seq<string>)
    requires NoRepeats(keys)
    ensures AllDistinct(keys)
  {
    if keys != [] {
      NoRepeatsDistinct(keys[1..]);
      assert forall i :: 0 < i < |keys| ==> keys[i] == keys[1..][i - 1];
    }
  }

  predicate OwnPart(part: Part)
  {
    !part.OkPart? && !part.ErrorPart? && !part.WriteErrorsPart? && !part.ConcernPart? && !part.LabelsPart? &&
    !part.TimePart?
  }

  lemma OwnKeyRepeats(verb: Verb)
    ensures NoRepeats(OwnKeys(verb))
  {
    assert NoRepeats(["cursorsKilled", "cursorsNotFound", "cursorsAlive", "cursorsUnknown"]);
    assert NoRepeats(["n", "nModified", "upserted"]);
    match verb
    case KillCursors =>
    case Update =>
    case _ =>
  }

  lemma OwnKeyParts(verb: Verb)
    ensures forall i :: 0 <= i < |OwnKeys(verb)| ==> OwnPart(PartOf(OwnKeys(verb)[i]))
  {
    hide PartOf;
    OwnParts();
    forall k: nat | k < 4 ensures PartOf(KillKeys()[k]) == IdsPart {
      KillParts(k);
    }
  }

  lemma ErrorKeyRepeats(index: bool)
    ensures NoRepeats(ErrorKeys(index))
  {
    if index {
      assert ErrorKeys(index) == ["code", "codeName", "errmsg", "index"];
      assert NoRepeats(["code", "codeName", "errmsg", "index"]);
    } else {
      assert ErrorKeys(index) == ["code", "codeName", "errmsg"];
      assert NoRepeats(["code", "codeName", "errmsg"]);
    }
  }

  lemma ErrorKeyParts()
    ensures forall i :: 0 <= i < |ErrorKeys(false)| ==> PartOf(ErrorKeys(false)[i]) == ErrorPart
  {
    hide PartOf;
    ErrorParts();
    assert ErrorKeys(false) == ["code", "codeName", "errmsg"];
  }

  predicate CommonPart(part: Part)
  {
    part.WriteErrorsPart? || part.ConcernPart? || part.LabelsPart? || part.TimePart?
  }

  lemma CommonKeyParts()
    ensures NoRepeats(CommonKeys())
    ensures forall i :: 0 <= i < |CommonKeys()| ==> CommonPart(PartOf(CommonKeys()[i]))
    ensures PartOf("ok") == OkPart
  {
    hide PartOf;
    CommonParts();
    assert NoRepeats(["writeErrors", "writeConcernError", "errorLabels", "operationTime"]);
  }

  lemma PublicKeysDistinct(verb: Verb, ok: bool)
    ensures AllDistinct(PublicKeys(verb, ok))
  {
    hide OwnKeys, ErrorKeys, PartOf;
    var middle := if ok then OwnKeys(verb) else ErrorKeys(false);
    var keys := PublicKeys(verb, ok);
    assert keys == ["ok"] + middle + CommonKeys();
    OwnKeyRepeats(verb);
    OwnKeyParts(verb);
    ErrorKeyRepeats(false);
    ErrorKeyParts();
    CommonKeyParts();
    NoRepeatsDistinct(middle);
    NoRepeatsDistinct(CommonKeys());
    forall i, j | 0 <= i < j < |keys| ensures keys[i] != keys[j] {
      if 0 < i && j <= |middle| {
        assert keys[i] == middle[i - 1] && keys[j] == middle[j - 1];
      } else if i > |middle| {
        assert keys[i] == CommonKeys()[i - 1 - |middle|] && keys[j] == CommonKeys()[j - 1 - |middle|];
      } else {
        assert PartOf(keys[i]) != PartOf(keys[j]);
      }
    }
  }

  /** No key stands twice in a public reply. */
  lemma ReplyKeysUnique(verb: Verb, reply: Doc)
    ensures UniqueKeys(PublicReply(verb, reply))
  {
    hide PublicKeys, PublicField;
    PublicKeysDistinct(verb, Ok(reply));
    PickUnique(PublicKeys(verb, Ok(reply)), key => PublicField(verb, reply, key));
  }

  // ------------------------------------------------------------------- a second pass

  lemma OkValues()
    ensures InRange(ONE, 1, 1) && !InRange(ZERO, 1, 1)
  {
    hide IntegerOfDouble;
    OneAndZero();
  }

  lemma NothingFromNull()
    ensures !VersionText(Null) && !VersionNumbers(Null) && KeepCount(Null) == None && KeepInt(Null) == None
  {
  }

  lemma CleanErrorStable(d: Doc, index: bool)
    ensures CleanError(CleanError(d, index), index) == CleanError(d, index)
  {
    var e := CleanError(d, index);
    var keys := ErrorKeys(index);
    var f := key => ErrorField(d, key);
    PickGet(keys, f, "code");
    PickGet(keys, f, "index");
    assert keys[0] == "code";
    assert ErrorCode(e) == ErrorCode(d);
    forall i | 0 <= i < |keys| ensures ErrorField(d, keys[i]) == ErrorField(e, keys[i]) {
    }
    PickSame(keys, f, key => ErrorField(e, key));
  }

  lemma WriteErrorStable()
    ensures StableItem(CleanWriteError)
  {
    hide CleanError;
    forall v: Value | CleanWriteError(v).Some?
      ensures CleanWriteError(CleanWriteError(v).value) == CleanWriteError(v)
    {
      CleanErrorStable(v.fields, true);
    }
  }

  lemma DatabaseStable()
    ensures StableItem(CleanDatabase)
  {
    hide CleanDatabase;
    forall v: Value | CleanDatabase(v).Some?
      ensures CleanDatabase(CleanDatabase(v).value) == CleanDatabase(v)
    {
      CleanDatabaseStable(v);
    }
  }

  lemma CleanDatabaseStable(v: Value)
    requires CleanDatabase(v).Some?
    ensures CleanDatabase(CleanDatabase(v).value) == CleanDatabase(v)
  {
    hide DatabaseName, DatabaseField;
    var keys := ["name", "sizeOnDisk", "empty"];
    var f := key => DatabaseField(v.fields, key);
    var d := Pick(keys, f);
    forall key | key in keys ensures DatabaseField(v.fields, key) == DatabaseField(d, key) {
      PickGet(keys, f, key);
      DatabaseFieldStable(v.fields, d, key);
    }
    assert keys[0] == "name";
    PickGet(keys, f, "name");
    DatabaseFieldPlain(v.fields);
    PickSame(keys, f, key => DatabaseField(d, key));
  }

  lemma DatabaseFieldPlain(d: Doc)
    ensures DatabaseField(d, "name") == Some(Get(d, "name"))
  {
  }

  lemma DatabaseFieldStable(d: Doc, e: Doc, key: string)
    requires Get(e, key) == OrNull(DatabaseField(d, key))
    ensures DatabaseField(e, key) == DatabaseField(d, key)
  {
  }

  lemma UpsertStable()
    ensures StableItem(CleanUpsert)
  {
    forall v: Value | CleanUpsert(v).Some?
      ensures CleanUpsert(CleanUpsert(v).value) == CleanUpsert(v)
    {
      var d := CleanUpsert(v).value.fields;
      assert d[1..] == [Field("_id", Get(v.fields, "_id"))];
      assert Get(d, "_id") == Get(v.fields, "_id");
    }
  }

  lemma CollectionStable()
    ensures StableItem(CleanCollection)
  {
    hide CollectionName;
    forall v: Value | CleanCollection(v).Some?
      ensures CleanCollection(CleanCollection(v).value) == CleanCollection(v)
    {
      var d := CleanCollection(v).value.fields;
      assert d[1..] == [Field("type", String("collection"))];
      assert Get(d, "type") == String("collection");
    }
  }

  lemma IndexStable()
    ensures StableItem(CleanIndex)
  {
    hide IndexKey, FieldName;
    forall v: Value | CleanIndex(v).Some?
      ensures CleanIndex(CleanIndex(v).value) == CleanIndex(v)
    {
      CleanIndexStable(v);
    }
  }

  lemma CleanIndexStable(v: Value)
    requires CleanIndex(v).Some?
    ensures CleanIndex(CleanIndex(v).value) == CleanIndex(v)
  {
    hide IndexKey, FieldName, IndexKeys, IndexField;
    var f := key => IndexField(v.fields, key);
    var d := Pick(IndexKeys(), f);
    forall key | key in IndexKeys() ensures IndexField(v.fields, key) == IndexField(d, key) {
      PickGet(IndexKeys(), f, key);
      IndexFieldStable(v.fields, d, key);
    }
    IndexKeysHold();
    PickGet(IndexKeys(), f, "name");
    PickGet(IndexKeys(), f, "key");
    IndexFieldPlain(v.fields);
    PickSame(IndexKeys(), f, key => IndexField(d, key));
  }

  lemma IndexKeysHold()
    ensures "name" in IndexKeys() && "key" in IndexKeys()
  {
    assert IndexKeys()[1] == "key" && IndexKeys()[2] == "name";
  }

  lemma IndexFieldPlain(d: Doc)
    ensures IndexField(d, "name") == Some(Get(d, "name")) && IndexField(d, "key") == Some(Get(d, "key"))
  {
  }

  lemma IndexFieldStable(d: Doc, e: Doc, key: string)
    requires Get(e, key) == OrNull(IndexField(d, key))
    ensures IndexField(e, key) == IndexField(d, key)
  {
  }

  lemma SimpleItemsStable()
    ensures StableItem(KeepInt) && StableItem(KeepLabel)
  {
    hide IntOf;
  }

  lemma BatchStable(verb: Verb, items: seq<Value>)
    ensures CleanBatch(verb, CleanBatch(verb, items)) == CleanBatch(verb, items)
  {
    hide CleanCollection, CleanIndex;
    CollectionStable();
    IndexStable();
    SiftStable(items, CleanCollection);
    SiftStable(items, CleanIndex);
  }

  lemma CursorStable(verb: Verb, cursor: Doc)
    ensures CleanCursor(verb, CleanCursor(verb, cursor)) == CleanCursor(verb, cursor)
  {
    hide CleanBatch, CursorKeys, CursorField;
    var f := key => CursorField(verb, cursor, key);
    var d := Pick(CursorKeys(), f);
    forall key | key in CursorKeys() ensures CursorField(verb, cursor, key) == CursorField(verb, d, key) {
      PickGet(CursorKeys(), f, key);
      CursorFieldStable(verb, cursor, d, key);
    }
    PickSame(CursorKeys(), f, key => CursorField(verb, d, key));
  }

  lemma CursorFieldStable(verb: Verb, d: Doc, e: Doc, key: string)
    requires Get(e, key) == OrNull(CursorField(verb, d, key))
    ensures CursorField(verb, e, key) == CursorField(verb, d, key)
  {
    hide CleanBatch, KeepInt;
    NothingFromNull();
    SimpleItemsStable();
    if Get(d, key).Array? {
      BatchStable(verb, Get(d, key).items);
    }
  }

  lemma LastErrorStable(d: Doc)
    ensures var e := Pick(LastErrorKeys(), k => LastErrorField(d, k));
            Pick(LastErrorKeys(), k => LastErrorField(e, k)) == e
  {
    hide LastErrorKeys;
    var f := k => LastErrorField(d, k);
    var e := Pick(LastErrorKeys(), f);
    forall key | key in LastErrorKeys() ensures LastErrorField(d, key) == LastErrorField(e, key) {
      PickGet(LastErrorKeys(), f, key);
    }
    PickSame(LastErrorKeys(), f, k => LastErrorField(e, k));
  }

  lemma CleanedStable(v: Value, f: Value -> Option<Value>)
    requires StableItem(f)
    ensures Cleaned(OrNull(Cleaned(v, f)), f) == Cleaned(v, f)
  {
    if v.Array? {
      SiftStable(v.items, f);
    }
  }

  /** A findAndModify value that the public reply drops, and then reads back as absent. */
  predicate DroppedValue(v: Value) { v != Null && !v.Document? }

  predicate ListPart(part: Part) { part in {UpsertedPart, IdsPart, DatabasesPart, WriteErrorsPart} }

  lemma ListFieldStable(verb: Verb, reply: Doc, r: Doc, key: string)
    requires Get(r, key) == OrNull(PublicField(verb, reply, key)) && ListPart(PartOf(key))
    ensures PublicField(verb, r, key) == PublicField(verb, reply, key)
  {
    hide PartOf, CleanWriteError, CleanDatabase, CleanUpsert, KeepInt, Ok, Sift, StableItem, Cleaned;
    NothingFromNull();
    var v := Get(reply, key);
    match PartOf(key)
    case UpsertedPart => UpsertStable(); CleanedStable(v, CleanUpsert);
    case IdsPart => SimpleItemsStable(); CleanedStable(v, KeepInt);
    case DatabasesPart => DatabaseStable(); CleanedStable(v, CleanDatabase);
    case WriteErrorsPart => WriteErrorStable(); CleanedStable(v, CleanWriteError);
  }

  lemma PublicFieldStable(verb: Verb, reply: Doc, r: Doc, key: string)
    requires Get(r, key) == OrNull(PublicField(verb, reply, key))
    requires Ok(r) == Ok(reply)
    requires PartOf(key) == ErrorPart ==> ErrorCode(r) == ErrorCode(reply)
    requires PartOf(key) == ValuePart ==> !DroppedValue(Get(reply, key))
    ensures PublicField(verb, r, key) == PublicField(verb, reply, key)
  {
    if ListPart(PartOf(key)) {
      ListFieldStable(verb, reply, r, key);
    } else if DocumentPart(PartOf(key)) {
      DocumentFieldStable(verb, reply, r, key);
    } else {
      OtherFieldStable(verb, reply, r, key);
    }
  }

  predicate DocumentPart(part: Part) { part.CursorPart? || part.LastErrorPart? || part.ConcernPart? }

  lemma DocumentFieldStable(verb: Verb, reply: Doc, r: Doc, key: string)
    requires Get(r, key) == OrNull(PublicField(verb, reply, key)) && DocumentPart(PartOf(key))
    ensures PublicField(verb, r, key) == PublicField(verb, reply, key)
  {
    hide PartOf, CleanCursor, CleanError, LastErrorKeys, LastErrorField, Pick;
    var v := Get(reply, key);
    if v.Document? {
      CursorStable(verb, v.fields);
      LastErrorStable(v.fields);
      CleanErrorStable(v.fields, false);
    }
  }

  lemma OtherFieldStable(verb: Verb, reply: Doc, r: Doc, key: string)
    requires Get(r, key) == OrNull(PublicField(verb, reply, key))
    requires !ListPart(PartOf(key)) && !DocumentPart(PartOf(key))
    requires Ok(r) == Ok(reply)
    requires PartOf(key) == ErrorPart ==> ErrorCode(r) == ErrorCode(reply)
    requires PartOf(key) == ValuePart ==> !DroppedValue(Get(reply, key))
    ensures PublicField(verb, r, key) == PublicField(verb, reply, key)
  {
    hide PartOf, CleanCursor, CleanError, VersionText, VersionNumbers, KeepLabel, KeepInt, Ok, CodeName, LastErrorKeys,
         LastErrorField, Sift, StableItem, ErrorField, KeepCount, Cleaned, ErrorCode, CleanCollection, CleanIndex,
         CleanUpsert, CleanDatabase, CleanWriteError, CleanBatch, InRange;
    NothingFromNull();
    var v := Get(reply, key);
    match PartOf(key)
    case ErrorPart => ErrorFieldStable(reply, r, key);
    case LabelsPart => LabelsStable(v);
    case CountPart => CountStable(v);
    case _ =>
  }

  function PublicLabels(v: Value): Option<Value>
  {
    if v.Array? && Sift(v.items, KeepLabel) != [] then Cleaned(v, KeepLabel) else None
  }

  lemma LabelsStable(v: Value)
    ensures PublicLabels(OrNull(PublicLabels(v))) == PublicLabels(v)
  {
    hide KeepLabel;
    SimpleItemsStable();
    if v.Array? {
      SiftStable(v.items, KeepLabel);
    }
  }

  lemma CountStable(v: Value)
    ensures KeepCount(OrNull(KeepCount(v))) == KeepCount(v)
  {
  }

  lemma ErrorFieldStable(d: Doc, e: Doc, key: string)
    requires Get(e, key) == OrNull(ErrorField(d, key)) && ErrorCode(e) == ErrorCode(d)
    ensures ErrorField(e, key) == ErrorField(d, key)
  {
  }

  lemma PublicKeyMembers(verb: Verb)
    ensures "ok" in PublicKeys(verb, true) && "ok" in PublicKeys(verb, false) && "code" in PublicKeys(verb, false)
    ensures "value" in PublicKeys(FindAndModify, true)
  {
    hide OwnKeys;
    assert PublicKeys(verb, true)[0] == "ok" && PublicKeys(verb, false)[0] == "ok";
    assert PublicKeys(verb, false)[1] == ErrorKeys(false)[0];
    FindAndModifyKeys();
    assert PublicKeys(FindAndModify, true)[1] == "value";
  }

  lemma FindAndModifyKeys()
    ensures OwnKeys(FindAndModify) == ["value", "lastErrorObject"]
  {
  }

  lemma SpecialParts()
    ensures PartOf("ok") == OkPart && PartOf("code") == ErrorPart && PartOf("value") == ValuePart
  {
    hide PartOf;
    CommonParts();
    ErrorParts();
    OwnParts();
  }

  /** Only a findAndModify reply has the `value` field, and only when the command succeeded. */
  lemma ValueOnlyInFindAndModify(verb: Verb, ok: bool, key: string)
    requires key in PublicKeys(verb, ok) && PartOf(key) == ValuePart
    ensures verb == FindAndModify && ok && key == "value"
  {
    hide OwnKeys, ErrorKeys, PartOf;
    CommonKeyParts();
    ErrorKeyParts();
    var middle := if ok then OwnKeys(verb) else ErrorKeys(false);
    assert PublicKeys(verb, ok) == ["ok"] + middle + CommonKeys();
    assert key in middle;
    if ok {
      OwnValueKey(verb, key);
    }
  }

  lemma OwnValueKey(verb: Verb, key: string)
    requires key in OwnKeys(verb) && PartOf(key) == ValuePart
    ensures verb == FindAndModify && key == "value"
  {
  }

  lemma ErrorKeyOnlyInErrors(verb: Verb, ok: bool, key: string)
    requires key in PublicKeys(verb, ok) && PartOf(key) == ErrorPart
    ensures !ok
  {
    hide OwnKeys, ErrorKeys, PartOf;
    CommonKeyParts();
    OwnKeyParts(verb);
    var middle := if ok then OwnKeys(verb) else ErrorKeys(false);
    assert PublicKeys(verb, ok) == ["ok"] + middle + CommonKeys();
  }

  /**
   * Sanitizing a public reply again changes nothing, except for one family: a successful findAndModify whose
   * upstream `value` is neither absent, null nor a document.
   */
  lemma IdempotentIff(verb: Verb, reply: Doc)
    ensures PublicReply(verb, PublicReply(verb, reply)) == PublicReply(verb, reply) <==>
            !(verb == FindAndModify && Ok(reply) && DroppedValue(Get(reply, "value")))
  {
    hide PublicKeys, PublicField, PartOf, ErrorCode;
    var ok := Ok(reply);
    var keys := PublicKeys(verb, ok);
    var f := key => PublicField(verb, reply, key);
    var r := Pick(keys, f);
    assert r == PublicReply(verb, reply);
    PublicKeyMembers(verb);
    SpecialParts();
    PickGet(keys, f, "ok");
    OkFieldValue(verb, reply);
    OkValues();
    assert Ok(r) == ok;
    if !ok {
      PickGet(keys, f, "code");
      CodeFieldValue(verb, reply, r);
    }
    if verb == FindAndModify && ok && DroppedValue(Get(reply, "value")) {
      PickGet(keys, f, "value");
      PickGet(keys, key => PublicField(verb, r, key), "value");
      ValueFieldForms(verb, reply);
      ValueFieldForms(verb, r);
    } else {
      forall i | 0 <= i < |keys| ensures PublicField(verb, r, keys[i]) == PublicField(verb, reply, keys[i]) {
        PickGet(keys, f, keys[i]);
        if PartOf(keys[i]) == ValuePart { ValueOnlyInFindAndModify(verb, ok, keys[i]); }
        if PartOf(keys[i]) == ErrorPart { ErrorKeyOnlyInErrors(verb, ok, keys[i]); }
        PublicFieldStable(verb, reply, r, keys[i]);
      }
      PickSame(keys, key => PublicField(verb, r, key), f);
    }
  }

  lemma OkFieldValue(verb: Verb, reply: Doc)
    ensures PublicField(verb, reply, "ok") == Some(if Ok(reply) then ONE else ZERO)
  {
    hide PartOf;
    SpecialParts();
  }

  lemma CodeFieldValue(verb: Verb, reply: Doc, r: Doc)
    requires Get(r, "code") == OrNull(PublicField(verb, reply, "code"))
    ensures ErrorCode(r) == ErrorCode(reply)
  {
    hide PartOf;
    SpecialParts();
  }

  lemma ValueFieldForms(verb: Verb, reply: Doc)
    ensures PublicField(verb, reply, "value") ==
            if DroppedValue(Get(reply, "value")) then None else Some(Get(reply, "value"))
  {
    hide PartOf;
    SpecialParts();
  }

  /** The exceptional family is inhabited: a successful findAndModify reply whose value is a string. */
  lemma NotIdempotentExample()
    ensures var reply := [Field("ok", ONE), Field("value", String("x"))];
            PublicReply(FindAndModify, PublicReply(FindAndModify, reply)) != PublicReply(FindAndModify, reply)
  {
    hide PublicReply;
    var reply := [Field("ok", ONE), Field("value", String("x"))];
    OkValues();
    assert reply[1..] == [Field("value", String("x"))];
    assert Get(reply[1..], "value") == String("x");
    assert Get(reply, "value") == String("x");
    IdempotentIff(FindAndModify, reply);
  }

  // ----------------------------------------- nothing else of the upstream reply matters

  predicate Agree(a: Doc, b: Doc, keys: seq<string>)
  {
    forall i :: 0 <= i < |keys| ==> Get(a, keys[i]) == Get(b, keys[i])
  }

  /** Equal, or two documents that agree on the listed fields. */
  predicate AgreeDoc(a: Value, b: Value, keys: seq<string>)
  {
    a == b || (a.Document? && b.Document? && Agree(a.fields, b.fields, keys))
  }

  predicate AgreeItems(a: Value, b: Value, keys: seq<string>)
  {
    a == b || (a.Array? && b.Array? && |a.items| == |b.items| &&
               forall i :: 0 <= i < |a.items| ==> AgreeDoc(a.items[i], b.items[i], keys))
  }

  predicate AgreeBatch(verb: Verb, a: Value, b: Value)
  {
    if verb == ListCollections then AgreeItems(a, b, ["name", "type"])
    else if verb == ListIndexes then AgreeItems(a, b, IndexKeys())
    else a == b
  }

  predicate AgreeCursor(verb: Verb, a: Value, b: Value)
  {
    a == b ||
    (a.Document? && b.Document? && Agree(a.fields, b.fields, ["id", "ns"]) &&
     AgreeBatch(verb, Get(a.fields, "firstBatch"), Get(b.fields, "firstBatch")) &&
     AgreeBatch(verb, Get(a.fields, "nextBatch"), Get(b.fields, "nextBatch")))
  }

  /** The whitelisted content of one top-level field is the same on both sides. */
  predicate AgreeField(verb: Verb, a: Doc, b: Doc, key: string)
  {
    var x, y := Get(a, key), Get(b, key);
    match PartOf(key)
    case OkPart => Ok(a) == Ok(b)
    case ErrorPart => Get(a, "code") == Get(b, "code")
    case CursorPart => AgreeCursor(verb, x, y)
    case LastErrorPart => AgreeDoc(x, y, LastErrorKeys())
    case UpsertedPart => AgreeItems(x, y, ["index", "_id"])
    case DatabasesPart => AgreeItems(x, y, ["name", "sizeOnDisk", "empty"])
    case WriteErrorsPart => AgreeItems(x, y, ["code", "index"])
    case ConcernPart => AgreeDoc(x, y, ["code"])
    case _ => x == y
  }

  predicate AgreePublic(verb: Verb, a: Doc, b: Doc)
  {
    && Ok(a) == Ok(b)
    && forall i :: 0 <= i < |PublicKeys(verb, Ok(a))| ==> AgreeField(verb, a, b, PublicKeys(verb, Ok(a))[i])
  }

  lemma AgreeErrors(a: Doc, b: Doc, index: bool)
    requires Get(a, "code") == Get(b, "code") && (index ==> Get(a, "index") == Get(b, "index"))
    ensures CleanError(a, index) == CleanError(b, index)
  {
    ErrorKeyRepeats(index);
    var keys := ErrorKeys(index);
    forall i | 0 <= i < |keys| ensures ErrorField(a, keys[i]) == ErrorField(b, keys[i]) {
      if !index { assert keys[i] != "index"; }
    }
    PickSame(keys, key => ErrorField(a, key), key => ErrorField(b, key));
  }

  lemma AgreeWriteErrors(a: Value, b: Value)
    requires AgreeItems(a, b, ["code", "index"])
    ensures Cleaned(a, CleanWriteError) == Cleaned(b, CleanWriteError)
  {
    hide CleanError;
    if a != b {
      forall i | 0 <= i < |a.items| ensures CleanWriteError(a.items[i]) == CleanWriteError(b.items[i]) {
        var x, y := a.items[i], b.items[i];
        assert AgreeDoc(x, y, ["code", "index"]);
        if x != y {
          assert Get(x.fields, ["code", "index"][0]) == Get(y.fields, ["code", "index"][0]);
          assert Get(x.fields, ["code", "index"][1]) == Get(y.fields, ["code", "index"][1]);
          AgreeErrors(x.fields, y.fields, true);
        }
      }
      SiftSame(a.items, b.items, CleanWriteError);
    }
  }

  lemma AgreeUpserts(a: Value, b: Value)
    requires AgreeItems(a, b, ["index", "_id"])
    ensures Cleaned(a, CleanUpsert) == Cleaned(b, CleanUpsert)
  {
    if a != b {
      forall i | 0 <= i < |a.items| ensures CleanUpsert(a.items[i]) == CleanUpsert(b.items[i]) {
        var x, y := a.items[i], b.items[i];
        assert AgreeDoc(x, y, ["index", "_id"]);
        if x != y {
          assert Get(x.fields, ["index", "_id"][0]) == Get(y.fields, ["index", "_id"][0]);
          assert Get(x.fields, ["index", "_id"][1]) == Get(y.fields, ["index", "_id"][1]);
        }
      }
      SiftSame(a.items, b.items, CleanUpsert);
    }
  }

  lemma AgreeDatabases(a: Value, b: Value)
    requires AgreeItems(a, b, ["name", "sizeOnDisk", "empty"])
    ensures Cleaned(a, CleanDatabase) == Cleaned(b, CleanDatabase)
  {
    hide DatabaseName, DatabaseField;
    var keys := ["name", "sizeOnDisk", "empty"];
    if a != b {
      forall i | 0 <= i < |a.items| ensures CleanDatabase(a.items[i]) == CleanDatabase(b.items[i]) {
        var x, y := a.items[i], b.items[i];
        assert AgreeDoc(x, y, keys);
        if x != y {
          assert Get(x.fields, keys[0]) == Get(y.fields, keys[0]);
          forall k | 0 <= k < |keys| ensures DatabaseField(x.fields, keys[k]) == DatabaseField(y.fields, keys[k]) {
            DatabaseFieldReads(x.fields, y.fields, keys[k]);
          }
          PickSame(keys, key => DatabaseField(x.fields, key), key => DatabaseField(y.fields, key));
        }
      }
      SiftSame(a.items, b.items, CleanDatabase);
    }
  }

  lemma DatabaseFieldReads(a: Doc, b: Doc, key: string)
    requires Get(a, key) == Get(b, key)
    ensures DatabaseField(a, key) == DatabaseField(b, key)
  {
  }

  lemma AgreeIndexes(a: Value, b: Value)
    requires AgreeItems(a, b, IndexKeys())
    ensures a.Array? <==> b.Array?
    ensures a.Array? ==> Sift(a.items, CleanIndex) == Sift(b.items, CleanIndex)
  {
    hide IndexKeys, IndexKey, FieldName;
    IndexKeysHold();
    if a != b {
      forall i | 0 <= i < |a.items| ensures CleanIndex(a.items[i]) == CleanIndex(b.items[i]) {
        var x, y := a.items[i], b.items[i];
        assert AgreeDoc(x, y, IndexKeys());
        if x != y {
          PickSame(IndexKeys(), key => IndexField(x.fields, key), key => IndexField(y.fields, key));
        }
      }
      SiftSame(a.items, b.items, CleanIndex);
    }
  }

  lemma AgreeCollections(a: Value, b: Value)
    requires AgreeItems(a, b, ["name", "type"])
    ensures a.Array? <==> b.Array?
    ensures a.Array? ==> Sift(a.items, CleanCollection) == Sift(b.items, CleanCollection)
  {
    hide CollectionName;
    if a != b {
      forall i | 0 <= i < |a.items| ensures CleanCollection(a.items[i]) == CleanCollection(b.items[i]) {
        var x, y := a.items[i], b.items[i];
        assert AgreeDoc(x, y, ["name", "type"]);
        if x != y {
          assert Get(x.fields, ["name", "type"][0]) == Get(y.fields, ["name", "type"][0]);
          assert Get(x.fields, ["name", "type"][1]) == Get(y.fields, ["name", "type"][1]);
        }
      }
      SiftSame(a.items, b.items, CleanCollection);
    }
  }

  lemma AgreeBatches(verb: Verb, a: Value, b: Value)
    requires AgreeBatch(verb, a, b)
    ensures a.Array? <==> b.Array?
    ensures a.Array? ==> CleanBatch(verb, a.items) == CleanBatch(verb, b.items)
  {
    hide CleanCollection, CleanIndex, AgreeItems, IndexKeys;
    if verb == ListCollections {
      AgreeCollections(a, b);
    } else if verb == ListIndexes {
      AgreeIndexes(a, b);
    }
  }

  lemma AgreeCursors(verb: Verb, a: Doc, b: Doc)
    requires AgreeCursor(verb, Document(a), Document(b))
    ensures CleanCursor(verb, a) == CleanCursor(verb, b)
  {
    hide CleanBatch, AgreeBatch;
    if a != b {
      assert Get(a, ["id", "ns"][0]) == Get(b, ["id", "ns"][0]);
      assert Get(a, ["id", "ns"][1]) == Get(b, ["id", "ns"][1]);
      AgreeBatches(verb, Get(a, "firstBatch"), Get(b, "firstBatch"));
      AgreeBatches(verb, Get(a, "nextBatch"), Get(b, "nextBatch"));
      PickSame(CursorKeys(), key => CursorField(verb, a, key), key => CursorField(verb, b, key));
    }
  }

  lemma AgreePublicField(verb: Verb, a: Doc, b: Doc, key: string)
    requires AgreeField(verb, a, b, key) && PartOf(key) != ErrorPart
    ensures PublicField(verb, a, key) == PublicField(verb, b, key)
  {
    hide PartOf, CleanCursor, CleanError, CleanWriteError, CleanDatabase, CleanUpsert, Sift, Cleaned, LastErrorKeys,
         ErrorField, AgreeItems;
    var x, y := Get(a, key), Get(b, key);
    match PartOf(key)
    case CursorPart => if x != y { AgreeCursors(verb, x.fields, y.fields); }
    case LastErrorPart =>
      if x != y {
        PickSame(LastErrorKeys(), k => LastErrorField(x.fields, k), k => LastErrorField(y.fields, k));
      }
    case UpsertedPart => AgreeUpserts(x, y);
    case DatabasesPart => AgreeDatabases(x, y);
    case WriteErrorsPart => AgreeWriteErrors(x, y);
    case ConcernPart =>
      if x != y {
        assert Get(x.fields, ["code"][0]) == Get(y.fields, ["code"][0]);
        AgreeErrors(x.fields, y.fields, false);
      }
    case _ =>
  }

  lemma AgreeErrorField(verb: Verb, a: Doc, b: Doc, key: string)
    requires key in ErrorKeys(false) && Get(a, "code") == Get(b, "code")
    ensures PublicField(verb, a, key) == PublicField(verb, b, key)
  {
    hide PartOf, CodeName;
    ErrorParts();
    assert ErrorKeys(false) == ["code", "codeName", "errmsg"];
  }

  lemma ErrorPartKeys(verb: Verb, ok: bool, key: string)
    requires key in PublicKeys(verb, ok) && PartOf(key) == ErrorPart
    ensures key in ErrorKeys(false)
  {
    hide OwnKeys, ErrorKeys, PartOf;
    CommonKeyParts();
    ErrorKeyOnlyInErrors(verb, ok, key);
    assert PublicKeys(verb, ok) == ["ok"] + ErrorKeys(false) + CommonKeys();
  }

  /** Two upstream replies that agree on the whitelisted content give the same public reply. */
  lemma PublicReplyDependsOnWhitelist(verb: Verb, a: Doc, b: Doc)
    requires AgreePublic(verb, a, b)
    ensures PublicReply(verb, a) == PublicReply(verb, b)
  {
    hide PublicKeys, PublicField, PartOf, AgreeField;
    var keys := PublicKeys(verb, Ok(a));
    forall i | 0 <= i < |keys| ensures PublicField(verb, a, keys[i]) == PublicField(verb, b, keys[i]) {
      assert AgreeField(verb, a, b, keys[i]);
      if PartOf(keys[i]) == ErrorPart {
        ErrorPartKeys(verb, Ok(a), keys[i]);
        AgreeOnCode(verb, a, b, keys[i]);
        AgreeErrorField(verb, a, b, keys[i]);
      } else {
        AgreePublicField(verb, a, b, keys[i]);
      }
    }
    PickSame(keys, key => PublicField(verb, a, key), key => PublicField(verb, b, key));
  }

  lemma AgreeOnCode(verb: Verb, a: Doc, b: Doc, key: string)
    requires AgreeField(verb, a, b, key) && PartOf(key) == ErrorPart
    ensures Get(a, "code") == Get(b, "code")
  {
    hide PartOf;
  }

  // ------------------------------------------------------------- the texts of errors

  const ERROR_TEXT := "MongoDB operation failed"

  /** Equal, or two documents with the same fields but for the text of the error. */
  ghost predicate SameButText(a: Value, b: Value)
  {
    a == b || (a.Document? && b.Document? && forall key :: key != "errmsg" ==> Get(a.fields, key) == Get(b.fields, key))
  }

  ghost predicate SameItemsButText(a: Value, b: Value)
  {
    a == b || (a.Array? && b.Array? && |a.items| == |b.items| &&
               forall i :: 0 <= i < |a.items| ==> SameButText(a.items[i], b.items[i]))
  }

  /** Two upstream replies that differ in the texts of their errors alone, wherever these stand. */
  ghost predicate DifferInTexts(a: Doc, b: Doc)
  {
    && (forall key :: key !in ["errmsg", "writeErrors", "writeConcernError"] ==> Get(a, key) == Get(b, key))
    && SameItemsButText(Get(a, "writeErrors"), Get(b, "writeErrors"))
    && SameButText(Get(a, "writeConcernError"), Get(b, "writeConcernError"))
  }

  lemma SameFieldAgrees(verb: Verb, a: Doc, b: Doc, key: string)
    requires Get(a, key) == Get(b, key) && Ok(a) == Ok(b) && Get(a, "code") == Get(b, "code")
    ensures AgreeField(verb, a, b, key)
  {
    hide PartOf, Ok, AgreeBatch, Agree;
  }

  lemma CodeAndIndex(a: Value, b: Value)
    requires SameButText(a, b)
    ensures AgreeDoc(a, b, ["code", "index"]) && AgreeDoc(a, b, ["code"])
  {
    hide Get;
    assert |"errmsg"| == 6 && |"code"| == 4 && |"index"| == 5;
    assert ["code", "index"][0] == "code" && ["code", "index"][1] == "index";
  }

  lemma ErrorItemsAgree(a: Value, b: Value)
    requires SameItemsButText(a, b)
    ensures AgreeItems(a, b, ["code", "index"])
  {
    hide SameButText, AgreeDoc;
    if a != b {
      forall i | 0 <= i < |a.items| ensures AgreeDoc(a.items[i], b.items[i], ["code", "index"]) {
        CodeAndIndex(a.items[i], b.items[i]);
      }
    }
  }

  /** The texts of upstream errors make no difference: not to the error of a reply, nor to the errors inside it. */
  lemma ErrorTextIsInvisible(verb: Verb, a: Doc, b: Doc)
    requires DifferInTexts(a, b)
    ensures PublicReply(verb, a) == PublicReply(verb, b)
  {
    hide PublicKeys, PublicReply, PartOf, AgreeField, SameItemsButText, SameButText, InRange, Get;
    OtherKeys();
    assert Get(a, "ok") == Get(b, "ok") && Get(a, "code") == Get(b, "code");
    var keys := PublicKeys(verb, Ok(a));
    forall i | 0 <= i < |keys| ensures AgreeField(verb, a, b, keys[i]) {
      TextFieldAgrees(verb, a, b, keys[i]);
    }
    PublicReplyDependsOnWhitelist(verb, a, b);
  }

  lemma OtherKeys()
    ensures "ok" !in ["errmsg", "writeErrors", "writeConcernError"]
    ensures "code" !in ["errmsg", "writeErrors", "writeConcernError"]
  {
    assert |"ok"| == 2 && |"code"| == 4 && |"errmsg"| == 6 && |"writeErrors"| == 11 && |"writeConcernError"| == 17;
  }

  lemma TextFieldAgrees(verb: Verb, a: Doc, b: Doc, key: string)
    requires DifferInTexts(a, b) && Ok(a) == Ok(b) && Get(a, "code") == Get(b, "code")
    ensures AgreeField(verb, a, b, key)
  {
    hide PartOf, Ok, Get, SameItemsButText, SameButText, AgreeItems, AgreeDoc, AgreeCursor;
    CommonParts();
    ErrorParts();
    if key == "writeErrors" {
      ErrorItemsAgree(Get(a, key), Get(b, key));
    } else if key == "writeConcernError" {
      CodeAndIndex(Get(a, key), Get(b, key));
    } else if key != "errmsg" {
      SameFieldAgrees(verb, a, b, key);
    }
  }

  predicate FixedText(v: Value) { v.Document? && Get(v.fields, "errmsg") == String(ERROR_TEXT) }

  lemma ErrorsInside(verb: Verb, reply: Doc)
    ensures var v := Get(reply, "writeErrors");
            PublicField(verb, reply, "writeErrors") == Cleaned(v, CleanWriteError)
    ensures var v := Get(reply, "writeConcernError");
            PublicField(verb, reply, "writeConcernError") ==
            if v.Document? then Some(Document(CleanError(v.fields, false))) else None
    ensures PublicField(verb, reply, "errmsg") == Some(String(ERROR_TEXT))
  {
    hide PartOf, Get, CleanError, Cleaned;
    ErrorParts();
    CommonParts();
    ErrorText(reply);
  }

  lemma ErrorText(doc: Doc)
    ensures ErrorField(doc, "errmsg") == Some(String(ERROR_TEXT))
  {
    hide Get;
    assert |"errmsg"| == 6 && |"code"| == 4 && |"codeName"| == 8;
  }

  predicate FixedTextsOnly(items: seq<Value>) { forall v :: v in items ==> FixedText(v) }

  /** Every error text that a client sees is the one fixed text: of the reply, and of each error inside it. */
  lemma ErrorTextIsFixed(verb: Verb, reply: Doc)
    ensures var r := PublicReply(verb, reply);
            var errors, concern := Get(r, "writeErrors"), Get(r, "writeConcernError");
            && (!Ok(reply) ==> Get(r, "errmsg") == String(ERROR_TEXT))
            && (errors != Null ==> errors.Array? && FixedTextsOnly(errors.items))
            && (concern != Null ==> FixedText(concern))
  {
    hide PublicKeys, PublicField, Get, Pick, CleanError, FixedTextsOnly, Sift;
    var f := key => PublicField(verb, reply, key);
    var keys := PublicKeys(verb, Ok(reply));
    ErrorsInside(verb, reply);
    ErrmsgMember(verb);
    PickGet(keys, f, "errmsg");
    PickGet(keys, f, "writeErrors");
    PickGet(keys, f, "writeConcernError");
    var errors, concern := Get(reply, "writeErrors"), Get(reply, "writeConcernError");
    if errors.Array? {
      FixedTexts(errors.items);
    }
    if concern.Document? {
      CleanErrorText(concern.fields, false);
    }
  }

  lemma CleanErrorText(doc: Doc, index: bool)
    ensures FixedText(Document(CleanError(doc, index)))
  {
    hide Get, Pick;
    assert ErrorKeys(index)[2] == "errmsg";
    PickGet(ErrorKeys(index), key => ErrorField(doc, key), "errmsg");
    ErrorText(doc);
  }

  lemma {:induction false} FixedTexts(items: seq<Value>)
    ensures FixedTextsOnly(Sift(items, CleanWriteError))
  {
    hide CleanError, Get;
    if items != [] {
      var rest := Sift(items[1..], CleanWriteError);
      FixedTexts(items[1..]);
      if items[0].Document? {
        CleanErrorText(items[0].fields, true);
        var first := Document(CleanError(items[0].fields, true));
        assert CleanWriteError(items[0]) == Some(first);
      } else {
        assert CleanWriteError(items[0]) == None;
        assert Sift(items, CleanWriteError) == [] + rest == rest;
      }
    }
  }

  lemma ErrmsgMember(verb: Verb)
    ensures "errmsg" in PublicKeys(verb, false)
  {
    hide OwnKeys;
    assert ErrorKeys(false) == ["code", "codeName", "errmsg"];
    assert PublicKeys(verb, false)[3] == "errmsg";
  }
}
