/** The public reply as the code builds it: fields appended one after another, batches cleaned item by item. */
module ReplyLoops {
  import opened Values
  import opened PolicyTables
  import opened Policy
  import opened Reply

  // --------------------------------------------------------------- keys that are picked

  function One(key: string, v: Option<Value>): Doc { if v.Some? then [Field(key, v.value)] else [] }

  lemma PickHead(keys: seq<string>, f: string -> Option<Value>)
    requires keys != []
    ensures Pick(keys, f) == One(keys[0], f(keys[0])) + Pick(keys[1..], f)
  {
  }

  lemma {:induction false} PickAppend(a: seq<string>, b: seq<string>, f: string -> Option<Value>)
    ensures Pick(a + b, f) == Pick(a, f) + Pick(b, f)
  {
    if a == [] {
      assert a + b == b;
    } else {
      PickAppend(a[1..], b, f);
      assert (a + b)[1..] == a[1..] + b;
      AppendStep(a, b, f);
    }
  }

  lemma AppendStep(a: seq<string>, b: seq<string>, f: string -> Option<Value>)
    requires a != [] && (a + b)[1..] == a[1..] + b
    requires Pick(a[1..] + b, f) == Pick(a[1..], f) + Pick(b, f)
    ensures Pick(a + b, f) == Pick(a, f) + Pick(b, f)
  {
    hide Pick, One;
    PickHead(a, f);
    PickHead(a + b, f);
  }

  lemma PickOne(a: string, f: string -> Option<Value>)
    ensures Pick([a], f) == One(a, f(a))
  {
    assert [a][1..] == [];
  }

  lemma PickTwo(a: string, b: string, f: string -> Option<Value>)
    ensures Pick([a, b], f) == One(a, f(a)) + One(b, f(b))
  {
    PickOne(b, f);
    assert [a, b][1..] == [b];
  }

  lemma PickThree(a: string, b: string, c: string, f: string -> Option<Value>)
    ensures Pick([a, b, c], f) == One(a, f(a)) + One(b, f(b)) + One(c, f(c))
  {
    PickTwo(b, c, f);
    assert [a, b, c][1..] == [b, c];
  }

  /** A loop has built the fields of the keys before the k-th. */
  ghost predicate Built(r: Doc, keys: seq<string>, k: nat, f: string -> Option<Value>)
    requires k <= |keys|
  {
    Pick(keys, f) == r + Pick(keys[k..], f)
  }

  lemma BuiltStart(keys: seq<string>, f: string -> Option<Value>)
    ensures Built([], keys, 0, f)
  {
    assert keys[0..] == keys;
  }

  lemma BuiltNext(r: Doc, keys: seq<string>, k: nat, f: string -> Option<Value>)
    requires k < |keys| && Built(r, keys, k, f)
    ensures Built(r + One(keys[k], f(keys[k])), keys, k + 1, f)
  {
    assert keys[k..][1..] == keys[k + 1..];
  }

  lemma BuiltAll(r: Doc, keys: seq<string>, f: string -> Option<Value>)
    requires Built(r, keys, |keys|, f)
    ensures r == Pick(keys, f)
  {
    assert keys[|keys|..] == [];
  }

  // ------------------------------------------------------------------ items that are kept

  /** A loop has cleaned the items before the k-th. */
  ghost predicate Sifted(r: seq<Value>, items: seq<Value>, k: nat, f: Value -> Option<Value>)
    requires k <= |items|
  {
    Sift(items, f) == r + Sift(items[k..], f)
  }

  lemma SiftedStart(items: seq<Value>, f: Value -> Option<Value>)
    ensures Sifted([], items, 0, f)
  {
    assert items[0..] == items;
  }

  lemma SiftedNext(r: seq<Value>, items: seq<Value>, k: nat, f: Value -> Option<Value>)
    requires k < |items| && Sifted(r, items, k, f)
    ensures Sifted(if f(items[k]).Some? then r + [f(items[k]).value] else r, items, k + 1, f)
  {
    assert items[k..][1..] == items[k + 1..];
  }

  lemma SiftedAll(r: seq<Value>, items: seq<Value>, f: Value -> Option<Value>)
    requires Sifted(r, items, |items|, f)
    ensures r == Sift(items, f)
  {
    assert items[|items|..] == [];
  }

  // ------------------------------------------------------------------- counts and errors

  /** mongoPolicyCounts. */
  method Counts(doc: Doc, keys: seq<string>) returns (r: Doc)
    ensures r == Pick(keys, key => KeepCount(Get(doc, key)))
  {
    ghost var f := key => KeepCount(Get(doc, key));
    r := [];
    BuiltStart(keys, f);
    for k := 0 to |keys|
      invariant Built(r, keys, k, f)
    {
      BuiltNext(r, keys, k, f);
      var value := Get(doc, keys[k]);
      if InRange(value, 0, MAX_INT64) {
        r := r + [Field(keys[k], value)];
      }
    }
    BuiltAll(r, keys, f);
  }

  method OneCount(doc: Doc, key: string) returns (r: Doc)
    ensures r == One(key, KeepCount(Get(doc, key)))
  {
    r := Counts(doc, [key]);
    PickOne(key, k => KeepCount(Get(doc, k)));
  }

  lemma ErrorFields(doc: Doc)
    ensures ErrorField(doc, "code") == Some(ErrorCode(doc))
    ensures ErrorField(doc, "codeName") == Some(String(CodeName(IntOf(ErrorCode(doc)).value)))
    ensures ErrorField(doc, "errmsg") == Some(String("MongoDB operation failed"))
    ensures ErrorField(doc, "index") == KeepCount(Get(doc, "index"))
  {
    assert |"code"| == 4 && |"codeName"| == 8 && |"errmsg"| == 6 && |"index"| == 5;
  }

  lemma CleanErrorFields(doc: Doc, index: bool)
    ensures CleanError(doc, index) ==
            [Field("code", ErrorCode(doc)),
             Field("codeName", String(CodeName(IntOf(ErrorCode(doc)).value))),
             Field("errmsg", String("MongoDB operation failed"))] +
            (if index then One("index", KeepCount(Get(doc, "index"))) else [])
  {
    hide ErrorField, Get;
    var f := key => ErrorField(doc, key);
    ErrorFields(doc);
    PickThree("code", "codeName", "errmsg", f);
    PickOne("index", f);
    PickAppend(["code", "codeName", "errmsg"], if index then ["index"] else [], f);
  }

  /** mongoPolicyError. */
  method PolicyError(doc: Doc, index: bool) returns (r: Doc)
    ensures r == CleanError(doc, index)
  {
    hide CleanError, Get;
    CleanErrorFields(doc, index);
    var code := Get(doc, "code");
    if !InRange(code, 0, MAX_INT32) {
      code := Int32(8);
    }
    var n := IntOf(code).value;
    var name := "CommandFailed";
    if n == 13 {
      name := "Unauthorized";
    } else if n == 18 {
      name := "AuthenticationFailed";
    } else if n == 50 {
      name := "MaxTimeMSExpired";
    } else if n == 11000 {
      name := "DuplicateKey";
    }
    r := [Field("code", code), Field("codeName", String(name)), Field("errmsg", String("MongoDB operation failed"))];
    if index {
      var counts := OneCount(doc, "index");
      r := r + counts;
    }
  }

  // --------------------------------------------------------------------- item by item

  method WriteErrors(items: seq<Value>) returns (r: seq<Value>)
    ensures r == Sift(items, CleanWriteError)
  {
    hide CleanError;
    r := [];
    SiftedStart(items, CleanWriteError);
    for k := 0 to |items|
      invariant Sifted(r, items, k, CleanWriteError)
    {
      SiftedNext(r, items, k, CleanWriteError);
      if items[k].Document? {
        var clean := PolicyError(items[k].fields, true);
        r := r + [Document(clean)];
      }
    }
    SiftedAll(r, items, CleanWriteError);
  }

  method Labels(items: seq<Value>) returns (r: seq<Value>)
    ensures r == Sift(items, KeepLabel)
  {
    r := [];
    SiftedStart(items, KeepLabel);
    for k := 0 to |items|
      invariant Sifted(r, items, k, KeepLabel)
    {
      SiftedNext(r, items, k, KeepLabel);
      if items[k].String? &&
         items[k].text in ["RetryableWriteError", "NoWritesPerformed", "TransientTransactionError",
                           "UnknownTransactionCommitResult", "ResumableChangeStreamError",
                           "NonResumableChangeStreamError"] {
        r := r + [items[k]];
      }
    }
    SiftedAll(r, items, KeepLabel);
  }

  method Upserts(items: seq<Value>) returns (r: seq<Value>)
    ensures r == Sift(items, CleanUpsert)
  {
    r := [];
    SiftedStart(items, CleanUpsert);
    for k := 0 to |items|
      invariant Sifted(r, items, k, CleanUpsert)
    {
      SiftedNext(r, items, k, CleanUpsert);
      if items[k].Document? {
        var index := Get(items[k].fields, "index");
        if !InRange(index, 0, MAX_INT32) {
          continue;
        }
        r := r + [Document([Field("index", index), Field("_id", Get(items[k].fields, "_id"))])];
      }
    }
    SiftedAll(r, items, CleanUpsert);
  }

  method Ids(items: seq<Value>) returns (r: seq<Value>)
    ensures r == Sift(items, KeepInt)
  {
    r := [];
    SiftedStart(items, KeepInt);
    for k := 0 to |items|
      invariant Sifted(r, items, k, KeepInt)
    {
      SiftedNext(r, items, k, KeepInt);
      if IntOf(items[k]).Some? {
        r := r + [items[k]];
      }
    }
    SiftedAll(r, items, KeepInt);
  }

  lemma DatabaseFields(d: Doc)
    ensures Pick(["name", "sizeOnDisk", "empty"], key => DatabaseField(d, key)) ==
            [Field("name", Get(d, "name"))] + One("sizeOnDisk", KeepCount(Get(d, "sizeOnDisk")))
            + One("empty", KeepBool(Get(d, "empty")))
  {
    hide Get, KeepCount, KeepBool, Pick;
    assert |"name"| == 4 && |"sizeOnDisk"| == 10 && |"empty"| == 5;
    PickThree("name", "sizeOnDisk", "empty", key => DatabaseField(d, key));
  }

  method DatabaseDoc(d: Doc) returns (x: Doc)
    ensures x == Pick(["name", "sizeOnDisk", "empty"], key => DatabaseField(d, key))
  {
    hide Get, DatabaseField, Pick;
    DatabaseFields(d);
    x := [Field("name", Get(d, "name"))];
    var size := OneCount(d, "sizeOnDisk");
    x := x + size;
    if Get(d, "empty").Bool? {
      x := x + [Field("empty", Get(d, "empty"))];
    }
  }

  method Databases(items: seq<Value>) returns (r: seq<Value>)
    ensures r == Sift(items, CleanDatabase)
  {
    hide Get, DatabaseField, Pick;
    r := [];
    SiftedStart(items, CleanDatabase);
    for k := 0 to |items|
      invariant Sifted(r, items, k, CleanDatabase)
    {
      SiftedNext(r, items, k, CleanDatabase);
      if items[k].Document? {
        var d := items[k].fields;
        if !DatabaseName(Get(d, "name"), false) {
          continue;
        }
        var x := DatabaseDoc(d);
        r := r + [Document(x)];
      }
    }
    SiftedAll(r, items, CleanDatabase);
  }

  method Collections(items: seq<Value>) returns (r: seq<Value>)
    ensures r == Sift(items, CleanCollection)
  {
    r := [];
    SiftedStart(items, CleanCollection);
    for k := 0 to |items|
      invariant Sifted(r, items, k, CleanCollection)
    {
      SiftedNext(r, items, k, CleanCollection);
      if !items[k].Document? {
        continue;
      }
      var name, kind := Get(items[k].fields, "name"), Get(items[k].fields, "type");
      if !kind.String? || kind.text != "collection" || !CollectionName(name) {
        continue;
      }
      r := r + [Document([Field("name", name), Field("type", String("collection"))])];
    }
    SiftedAll(r, items, CleanCollection);
  }

  /** The flag that the loop over the parts of an index key leaves behind. */
  method IndexParts(key: Doc) returns (valid: bool)
    ensures valid <==> forall i :: 0 <= i < |key| ==> IndexPart(key[i].value)
  {
    valid := true;
    for i := 0 to |key|
      invariant valid <==> forall j :: 0 <= j < i ==> IndexPart(key[j].value)
    {
      var part := key[i].value;
      if IntOf(part) == Some(1) || IntOf(part) == Some(-1) {
        continue;
      }
      if !part.String? || part.text !in ["text", "hashed", "2d", "2dsphere"] {
        valid := false;
      }
    }
  }

  lemma IndexFieldsAre(d: Doc)
    ensures IndexField(d, "v") == KeepCount(Get(d, "v"))
    ensures IndexField(d, "key") == Some(Get(d, "key"))
    ensures IndexField(d, "name") == Some(Get(d, "name"))
    ensures IndexField(d, "unique") == KeepBool(Get(d, "unique"))
    ensures IndexField(d, "sparse") == KeepBool(Get(d, "sparse"))
    ensures IndexField(d, "hidden") == KeepBool(Get(d, "hidden"))
    ensures IndexField(d, "expireAfterSeconds") == KeepCount(Get(d, "expireAfterSeconds"))
  {
    hide Get, KeepCount, KeepBool;
    assert |"v"| == 1 && |"key"| == 3 && |"name"| == 4 && |"unique"| == 6 && |"expireAfterSeconds"| == 18;
  }

  lemma IndexFields(d: Doc)
    ensures Pick(IndexKeys(), key => IndexField(d, key)) ==
            One("v", KeepCount(Get(d, "v"))) + [Field("key", Get(d, "key")), Field("name", Get(d, "name"))]
            + One("unique", KeepBool(Get(d, "unique"))) + One("sparse", KeepBool(Get(d, "sparse")))
            + One("hidden", KeepBool(Get(d, "hidden")))
            + One("expireAfterSeconds", KeepCount(Get(d, "expireAfterSeconds")))
  {
    hide Get, IndexField, Pick, KeepCount, KeepBool;
    var f := key => IndexField(d, key);
    IndexFieldsAre(d);
    PickThree("v", "key", "name", f);
    PickThree("unique", "sparse", "hidden", f);
    PickOne("expireAfterSeconds", f);
    PickAppend(["v", "key", "name"], ["unique", "sparse", "hidden"], f);
    PickAppend(["v", "key", "name"] + ["unique", "sparse", "hidden"], ["expireAfterSeconds"], f);
    assert IndexKeys() == ["v", "key", "name"] + ["unique", "sparse", "hidden"] + ["expireAfterSeconds"];
  }

  method OneBool(doc: Doc, key: string) returns (r: Doc)
    ensures r == One(key, KeepBool(Get(doc, key)))
  {
    r := [];
    if Get(doc, key).Bool? {
      r := [Field(key, Get(doc, key))];
    }
  }

  method IndexFieldsOf(d: Doc) returns (x: Doc)
    ensures x == Pick(IndexKeys(), key => IndexField(d, key))
  {
    hide Get, IndexField, Pick;
    IndexFields(d);
    x := OneCount(d, "v");
    x := x + [Field("key", Get(d, "key")), Field("name", Get(d, "name"))];
    var unique := OneBool(d, "unique");
    var sparse := OneBool(d, "sparse");
    var hidden := OneBool(d, "hidden");
    x := x + unique + sparse + hidden;
    var expiry := OneCount(d, "expireAfterSeconds");
    x := x + expiry;
  }

  method Indexes(items: seq<Value>) returns (r: seq<Value>)
    ensures r == Sift(items, CleanIndex)
  {
    hide Get, IndexField, IndexKeys;
    r := [];
    SiftedStart(items, CleanIndex);
    for k := 0 to |items|
      invariant Sifted(r, items, k, CleanIndex)
    {
      SiftedNext(r, items, k, CleanIndex);
      if !items[k].Document? {
        continue;
      }
      var d := items[k].fields;
      if !FieldName(Get(d, "name")) {
        continue;
      }
      var key := Get(d, "key");
      if !FieldDoc(key) {
        continue;
      }
      var valid := IndexParts(key.fields);
      assert valid <==> IndexKey(key);
      if !valid {
        continue;
      }
      var x := IndexFieldsOf(d);
      r := r + [Document(x)];
    }
    SiftedAll(r, items, CleanIndex);
  }

  /** mongoPolicyMetadataBatch. */
  method MetadataBatch(verb: Verb, items: seq<Value>) returns (r: seq<Value>)
    requires verb == ListCollections || verb == ListIndexes
    ensures r == CleanBatch(verb, items)
  {
    if verb == ListCollections {
      r := Collections(items);
    } else {
      r := Indexes(items);
    }
  }

  // ------------------------------------------------------------- documents in the reply

  lemma CursorFieldsOf(verb: Verb, cursor: Doc)
    ensures CursorField(verb, cursor, "id") == KeepInt(Get(cursor, "id"))
    ensures CursorField(verb, cursor, "ns") ==
            if Get(cursor, "ns").String? then Some(Get(cursor, "ns")) else None
    ensures CursorField(verb, cursor, "firstBatch") == BatchField(verb, Get(cursor, "firstBatch"))
    ensures CursorField(verb, cursor, "nextBatch") == BatchField(verb, Get(cursor, "nextBatch"))
  {
    hide Get, CleanBatch;
    assert |"id"| == 2 && |"ns"| == 2 && "id"[0] != "ns"[0] && |"firstBatch"| == 10 && |"nextBatch"| == 9;
  }

  method Batch(verb: Verb, cursor: Doc, key: string) returns (r: Doc)
    ensures r == One(key, BatchField(verb, Get(cursor, key)))
  {
    r := [];
    if Get(cursor, key).Array? {
      var batch := Get(cursor, key).items;
      if verb == ListCollections || verb == ListIndexes {
        batch := MetadataBatch(verb, batch);
      }
      r := [Field(key, Array(batch))];
    }
  }

  lemma CursorFields(verb: Verb, cursor: Doc)
    ensures CleanCursor(verb, cursor) ==
            One("id", KeepInt(Get(cursor, "id")))
            + One("ns", if Get(cursor, "ns").String? then Some(Get(cursor, "ns")) else None)
            + One("firstBatch", BatchField(verb, Get(cursor, "firstBatch")))
            + One("nextBatch", BatchField(verb, Get(cursor, "nextBatch")))
  {
    hide Get, BatchField, CursorField, Pick, One, KeepInt;
    var f := key => CursorField(verb, cursor, key);
    CursorFieldsOf(verb, cursor);
    PickTwo("id", "ns", f);
    PickTwo("firstBatch", "nextBatch", f);
    PickAppend(["id", "ns"], ["firstBatch", "nextBatch"], f);
    assert CursorKeys() == ["id", "ns"] + ["firstBatch", "nextBatch"];
  }

  method CursorDoc(verb: Verb, cursor: Doc) returns (r: Doc)
    ensures r == CleanCursor(verb, cursor)
  {
    hide Get, BatchField, CleanCursor;
    CursorFields(verb, cursor);
    r := [];
    var id := Get(cursor, "id");
    if id != Null {
      if IntOf(id).Some? {
        r := r + [Field("id", id)];
      }
    }
    assert r == One("id", KeepInt(id));
    var ns := Get(cursor, "ns");
    if ns.String? {
      r := r + [Field("ns", ns)];
    }
    var first := Batch(verb, cursor, "firstBatch");
    r := r + first;
    var next := Batch(verb, cursor, "nextBatch");
    r := r + next;
  }

  lemma LastErrorFields(d: Doc)
    ensures LastErrorField(d, "n") == KeepCount(Get(d, "n"))
    ensures LastErrorField(d, "updatedExisting") == KeepBool(Get(d, "updatedExisting"))
    ensures LastErrorField(d, "upserted") == if Get(d, "upserted") != Null then Some(Get(d, "upserted")) else None
  {
    hide Get;
    assert |"n"| == 1 && |"updatedExisting"| == 15 && |"upserted"| == 8;
  }

  method LastError(last: Doc) returns (r: Doc)
    ensures r == Pick(LastErrorKeys(), key => LastErrorField(last, key))
  {
    hide Get, LastErrorField, Pick;
    LastErrorFields(last);
    PickThree("n", "updatedExisting", "upserted", key => LastErrorField(last, key));
    r := OneCount(last, "n");
    if Get(last, "updatedExisting").Bool? {
      r := r + [Field("updatedExisting", Get(last, "updatedExisting"))];
    }
    var id := Get(last, "upserted");
    if id != Null {
      r := r + [Field("upserted", id)];
    }
  }

  // ----------------------------------------------------------- the command's own fields

  method CursorReply(verb: Verb, reply: Doc) returns (r: Doc)
    requires OwnKeys(verb) == ["cursor"]
    ensures r == Pick(OwnKeys(verb), key => PublicField(verb, reply, key))
  {
    hide Get, CleanCursor, PartOf, Pick;
    OwnParts();
    PickOne("cursor", key => PublicField(verb, reply, key));
    r := [];
    var cursor := Get(reply, "cursor");
    if cursor.Document? {
      var clean := CursorDoc(verb, cursor.fields);
      r := [Field("cursor", Document(clean))];
    }
  }

  method FindAndModifyReply(reply: Doc) returns (r: Doc)
    ensures r == Pick(OwnKeys(FindAndModify), key => PublicField(FindAndModify, reply, key))
  {
    hide Get, LastErrorField, PartOf, Pick;
    OwnParts();
    PickTwo("value", "lastErrorObject", key => PublicField(FindAndModify, reply, key));
    r := [];
    var value := Get(reply, "value");
    if value != Null {
      if value.Document? {
        r := r + [Field("value", value)];
      }
    } else {
      r := r + [Field("value", Null)];
    }
    var last := Get(reply, "lastErrorObject");
    if last.Document? {
      var clean := LastError(last.fields);
      r := r + [Field("lastErrorObject", Document(clean))];
    }
  }

  method DistinctReply(reply: Doc) returns (r: Doc)
    ensures r == Pick(OwnKeys(Distinct), key => PublicField(Distinct, reply, key))
  {
    hide Get, PartOf, Pick;
    OwnParts();
    PickOne("values", key => PublicField(Distinct, reply, key));
    r := [];
    var values := Get(reply, "values");
    if values.Array? {
      r := [Field("values", values)];
    }
  }

  method CountReply(verb: Verb, reply: Doc) returns (r: Doc)
    requires verb == Count || verb == Insert || verb == Update || verb == Delete
    ensures r == Pick(OwnKeys(verb), key => PublicField(verb, reply, key))
  {
    hide Get, PartOf, Pick;
    OwnParts();
    ghost var f := key => PublicField(verb, reply, key);
    PickTwo("n", "nModified", f);
    PickTwo("n", "nModified", key => KeepCount(Get(reply, key)));
    r := Counts(reply, ["n", "nModified"]);
    if verb == Update {
      PickThree("n", "nModified", "upserted", f);
      var upserted := Get(reply, "upserted");
      if upserted.Array? {
        var clean := Upserts(upserted.items);
        r := r + [Field("upserted", Array(clean))];
      }
    }
  }

  method KillReply(reply: Doc) returns (r: Doc)
    ensures r == Pick(OwnKeys(KillCursors), key => PublicField(KillCursors, reply, key))
  {
    hide Get, PartOf, Pick;
    var keys := KillKeys();
    ghost var f := key => PublicField(KillCursors, reply, key);
    r := [];
    BuiltStart(keys, f);
    for k := 0 to |keys|
      invariant Built(r, keys, k, f)
    {
      BuiltNext(r, keys, k, f);
      KillParts(k);
      var ids := Get(reply, keys[k]);
      if ids.Array? {
        var clean := Ids(ids.items);
        r := r + [Field(keys[k], Array(clean))];
      }
    }
    BuiltAll(r, keys, f);
  }

  method DatabasesReply(reply: Doc) returns (r: Doc)
    ensures r == Pick(OwnKeys(ListDatabases), key => PublicField(ListDatabases, reply, key))
  {
    hide Get, PartOf, Pick;
    OwnParts();
    PickOne("databases", key => PublicField(ListDatabases, reply, key));
    r := [];
    var databases := Get(reply, "databases");
    if databases.Array? {
      var clean := Databases(databases.items);
      r := [Field("databases", Array(clean))];
    }
  }

  method BuildInfoReply(reply: Doc) returns (r: Doc)
    ensures r == Pick(OwnKeys(BuildInfo), key => PublicField(BuildInfo, reply, key))
  {
    hide Get, PartOf, Pick;
    OwnParts();
    PickTwo("version", "versionArray", key => PublicField(BuildInfo, reply, key));
    r := [];
    var version := Get(reply, "version");
    if version.String? && |version.text| <= 32 && version.text != "" && OnlyFrom(version.text, "0123456789.") {
      r := r + [Field("version", version)];
    }
    var versions := Get(reply, "versionArray");
    if versions.Array? && |versions.items| == 4 {
      var valid := true;
      for k := 0 to 4
        invariant valid <==> forall i :: 0 <= i < k ==> InRange(versions.items[i], 0, MAX_INT32)
      {
        valid := valid && InRange(versions.items[k], 0, MAX_INT32);
      }
      if valid {
        r := r + [Field("versionArray", versions)];
      }
    }
  }

  predicate GivesCursor(verb: Verb) { verb in {Find, Aggregate, GetMore, ListCollections, ListIndexes} }

  predicate GivesNothing(verb: Verb)
  {
    !GivesCursor(verb) && verb !in {FindAndModify, Distinct, Count, Insert, Update, Delete, KillCursors,
                                    ListDatabases, BuildInfo}
  }

  lemma OwnKeyForms(verb: Verb)
    ensures GivesCursor(verb) ==> OwnKeys(verb) == ["cursor"]
    ensures GivesNothing(verb) ==> OwnKeys(verb) == []
  {
  }

  method OwnFields(verb: Verb, reply: Doc) returns (r: Doc)
    ensures r == Pick(OwnKeys(verb), key => PublicField(verb, reply, key))
  {
    hide PublicField, OwnKeys;
    OwnKeyForms(verb);
    if verb == Find || verb == Aggregate || verb == GetMore || verb == ListCollections || verb == ListIndexes {
      r := CursorReply(verb, reply);
    } else if verb == FindAndModify {
      r := FindAndModifyReply(reply);
    } else if verb == Distinct {
      r := DistinctReply(reply);
    } else if verb == Count || verb == Insert || verb == Update || verb == Delete {
      r := CountReply(verb, reply);
    } else if verb == KillCursors {
      r := KillReply(reply);
    } else if verb == ListDatabases {
      r := DatabasesReply(reply);
    } else if verb == BuildInfo {
      r := BuildInfoReply(reply);
    } else {
      r := [];
    }
  }

  // -------------------------------------------------------------- the fields of every reply

  lemma CommonFieldsAre(verb: Verb, reply: Doc)
    ensures Pick(CommonKeys(), key => PublicField(verb, reply, key)) ==
            One("writeErrors", PublicField(verb, reply, "writeErrors"))
            + One("writeConcernError", PublicField(verb, reply, "writeConcernError"))
            + One("errorLabels", PublicField(verb, reply, "errorLabels"))
            + One("operationTime", PublicField(verb, reply, "operationTime"))
  {
    hide PublicField, Pick;
    var f := key => PublicField(verb, reply, key);
    PickThree("writeErrors", "writeConcernError", "errorLabels", f);
    PickOne("operationTime", f);
    PickAppend(["writeErrors", "writeConcernError", "errorLabels"], ["operationTime"], f);
    assert CommonKeys() == ["writeErrors", "writeConcernError", "errorLabels"] + ["operationTime"];
  }

  method CommonFields(verb: Verb, reply: Doc) returns (r: Doc)
    ensures r == Pick(CommonKeys(), key => PublicField(verb, reply, key))
  {
    hide Get, PartOf, Pick, CleanError;
    CommonParts();
    CommonFieldsAre(verb, reply);
    r := [];
    var errors := Get(reply, "writeErrors");
    if errors.Array? {
      var clean := WriteErrors(errors.items);
      r := r + [Field("writeErrors", Array(clean))];
    }
    var concern := Get(reply, "writeConcernError");
    if concern.Document? {
      var clean := PolicyError(concern.fields, false);
      r := r + [Field("writeConcernError", Document(clean))];
    }
    var labels := Get(reply, "errorLabels");
    if labels.Array? {
      var clean := Labels(labels.items);
      if |clean| > 0 {
        r := r + [Field("errorLabels", Array(clean))];
      }
    }
    var time := Get(reply, "operationTime");
    if time.Timestamp? {
      r := r + [Field("operationTime", time)];
    }
  }

  // ---------------------------------------------------------------------- the whole reply

  lemma ErrorPartOfReply(verb: Verb, reply: Doc)
    ensures CleanError(reply, false) == Pick(ErrorKeys(false), key => PublicField(verb, reply, key))
  {
    hide Pick, Get, ErrorField, PartOf;
    ErrorParts();
    assert ErrorKeys(false) == ["code", "codeName", "errmsg"];
    PickSame(ErrorKeys(false), key => ErrorField(reply, key), key => PublicField(verb, reply, key));
  }

  lemma ReplyInParts(verb: Verb, reply: Doc)
    ensures PublicReply(verb, reply) ==
            [Field("ok", if Ok(reply) then ONE else ZERO)]
            + (if Ok(reply) then Pick(OwnKeys(verb), key => PublicField(verb, reply, key))
               else CleanError(reply, false))
            + Pick(CommonKeys(), key => PublicField(verb, reply, key))
  {
    hide Pick, Ok, OwnKeys, ErrorKeys, CleanError;
    var f := key => PublicField(verb, reply, key);
    var own := if Ok(reply) then OwnKeys(verb) else ErrorKeys(false);
    assert f("ok") == Some(if Ok(reply) then ONE else ZERO) by { hide PublicReply; CommonParts(); }
    PickOne("ok", f);
    PickAppend(["ok"], own, f);
    PickAppend(["ok"] + own, CommonKeys(), f);
    ErrorPartOfReply(verb, reply);
  }

  /** mongoPublicReply. */
  method Sanitize(verb: Verb, reply: Doc) returns (r: Doc)
    ensures r == PublicReply(verb, reply)
  {
    hide PublicField, PublicReply, OwnKeys, CleanError, Pick, Get;
    ReplyInParts(verb, reply);
    var ok := ZERO;
    if InRange(Get(reply, "ok"), 1, 1) {
      ok := ONE;
    }
    r := [Field("ok", ok)];
    if ok == ZERO {
      var error := PolicyError(reply, false);
      r := r + error;
    } else {
      var own := OwnFields(verb, reply);
      r := r + own;
    }
    var common := CommonFields(verb, reply);
    r := r + common;
  }
}
