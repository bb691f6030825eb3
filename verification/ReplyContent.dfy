/** What a public reply holds, field by field: what the upstream reply says under the same key, or nothing. */
module ReplyContent {
  import opened Values
  import opened PolicyTables
  import opened Policy
  import opened Reply
  import opened ReplyLoops
  import opened WhitelistTheorems
  import W = Whitelist

  // -------------------------------------------------------------------- what is written

  /** The field, when it may be shown. */
  function Kept(key: string, v: Value, keep: bool): Doc { if keep then [Field(key, v)] else [] }

  predicate Counts(v: Value) { W.Between(v, 0, 9223372036854775807) }

  /** The reply says that the command has succeeded. */
  predicate Successful(reply: Doc) { W.Between(Get(reply, "ok"), 1, 1) }

  function NameOfCode(code: Value): string
  {
    if IntOf(code) == Some(13) then "Unauthorized"
    else if IntOf(code) == Some(18) then "AuthenticationFailed"
    else if IntOf(code) == Some(50) then "MaxTimeMSExpired"
    else if IntOf(code) == Some(11000) then "DuplicateKey"
    else "CommandFailed"
  }

  /** The code of an error, its name, a fixed text, and for one of many writes its number. */
  function Failure(d: Doc, index: bool): Doc
  {
    var code := if W.Between(Get(d, "code"), 0, 2147483647) then Get(d, "code") else Int32(8);
    [Field("code", code), Field("codeName", String(NameOfCode(code))),
     Field("errmsg", String("MongoDB operation failed"))] +
    Kept("index", Get(d, "index"), index && Counts(Get(d, "index")))
  }

  function FailureEntry(v: Value): Option<Value>
  {
    if v.Document? then Some(Document(Failure(v.fields, true))) else None
  }

  function LabelEntry(v: Value): Option<Value>
  {
    if v.String? && v.text in ["RetryableWriteError", "NoWritesPerformed", "TransientTransactionError",
                               "UnknownTransactionCommitResult", "ResumableChangeStreamError",
                               "NonResumableChangeStreamError"] then Some(v)
    else None
  }

  function NumberEntry(v: Value): Option<Value> { if IntOf(v).Some? then Some(v) else None }

  function UpsertEntry(v: Value): Option<Value>
  {
    if v.Document? && W.Between(Get(v.fields, "index"), 0, 2147483647) then
      Some(Document([Field("index", Get(v.fields, "index")), Field("_id", Get(v.fields, "_id"))]))
    else None
  }

  /** A database other than admin, local and config, with its size and whether it is empty. */
  function DatabaseEntry(v: Value): Option<Value>
  {
    if v.Document? && W.Database(Get(v.fields, "name"), false) then
      Some(Document([Field("name", Get(v.fields, "name"))] +
                    Kept("sizeOnDisk", Get(v.fields, "sizeOnDisk"), Counts(Get(v.fields, "sizeOnDisk"))) +
                    Kept("empty", Get(v.fields, "empty"), Get(v.fields, "empty").Bool?)))
    else None
  }

  /** A plain collection outside the system namespace: its name and its type. */
  function CollectionEntry(v: Value): Option<Value>
  {
    if v.Document? && Get(v.fields, "type") == String("collection") && W.Collection(Get(v.fields, "name")) then
      Some(Document([Field("name", Get(v.fields, "name")), Field("type", String("collection"))]))
    else None
  }

  /** The fields of an index, each with a direction or a kind. */
  predicate IndexedFields(v: Value)
  {
    W.Plain(v) && forall i :: 0 <= i < |v.fields| ==>
      W.Sign(v.fields[i].value) ||
      v.fields[i].value in [String("text"), String("hashed"), String("2d"), String("2dsphere")]
  }

  function IndexEntry(v: Value): Option<Value>
  {
    if v.Document? && W.Named(Get(v.fields, "name")) && IndexedFields(Get(v.fields, "key")) then
      var d := v.fields;
      Some(Document(Kept("v", Get(d, "v"), Counts(Get(d, "v"))) +
                    [Field("key", Get(d, "key")), Field("name", Get(d, "name"))] +
                    Kept("unique", Get(d, "unique"), Get(d, "unique").Bool?) +
                    Kept("sparse", Get(d, "sparse"), Get(d, "sparse").Bool?) +
                    Kept("hidden", Get(d, "hidden"), Get(d, "hidden").Bool?) +
                    Kept("expireAfterSeconds", Get(d, "expireAfterSeconds"), Counts(Get(d, "expireAfterSeconds")))))
    else None
  }

  // ---------------------------------------------------------------------- items in order

  /** The places where `f` gives something, in order. */
  ghost predicate Places(at: seq<nat>, items: seq<Value>, f: Value -> Option<Value>)
  {
    && (forall j, k :: 0 <= j < k < |at| ==> at[j] < at[k])
    && (forall k :: 0 <= k < |at| ==> at[k] < |items|)
    && forall i: nat :: i < |items| ==> (i in at <==> f(items[i]).Some?)
  }

  /** `out` holds what `f` gives for the items, in their order, and nothing else. */
  ghost predicate Selection(items: seq<Value>, out: seq<Value>, f: Value -> Option<Value>)
  {
    exists at: seq<nat> :: Places(at, items, f) && |out| == |at| &&
      forall k :: 0 <= k < |at| ==> Some(out[k]) == f(items[at[k]])
  }

  lemma OneMorePlace(at: seq<nat>, items: seq<Value>, n: nat, f: Value -> Option<Value>)
    requires n < |items| && Places(at, items[..n], f)
    ensures Places(if f(items[n]).Some? then at + [n] else at, items[..n + 1], f)
  {
    var front := items[..n + 1];
    assert forall i: nat :: i < n ==> front[i] == items[..n][i];
    var more := if f(items[n]).Some? then at + [n] else at;
    forall i: nat | i < n + 1 ensures i in more <==> f(front[i]).Some? {
      if i < n {
        assert i in at <==> f(items[..n][i]).Some?;
      }
    }
  }

  /** What the loop has picked so far, with the places. */
  ghost predicate Picked(at: seq<nat>, out: seq<Value>, items: seq<Value>, f: Value -> Option<Value>)
  {
    |out| == |at| && forall k :: 0 <= k < |at| ==> at[k] < |items| && Some(out[k]) == f(items[at[k]])
  }

  lemma SiftIsSelection(items: seq<Value>, f: Value -> Option<Value>)
    ensures Selection(items, Sift(items, f), f)
  {
    hide Places, Sifted;
    var at: seq<nat> := [];
    var out: seq<Value> := [];
    SiftedStart(items, f);
    NoPlaces(f);
    assert items[..0] == [];
    for n := 0 to |items|
      invariant Sifted(out, items, n, f) && Places(at, items[..n], f) && Picked(at, out, items, f)
    {
      SiftedNext(out, items, n, f);
      OneMorePlace(at, items, n, f);
      if f(items[n]).Some? {
        at, out := at + [n], out + [f(items[n]).value];
      }
    }
    SiftedAll(out, items, f);
    assert items[..|items|] == items;
  }

  lemma NoPlaces(f: Value -> Option<Value>)
    ensures Places([], [], f)
  {
  }

  lemma {:induction false} SiftAgrees(items: seq<Value>, f: Value -> Option<Value>, g: Value -> Option<Value>)
    requires forall v: Value :: f(v) == g(v)
    ensures Sift(items, f) == Sift(items, g)
  {
    if items != [] {
      SiftAgrees(items[1..], f, g);
    }
  }

  // --------------------------------------------------------------- the entries are those

  lemma CountsAgree(key: string, v: Value)
    ensures One(key, KeepCount(v)) == Kept(key, v, Counts(v))
    ensures One(key, KeepBool(v)) == Kept(key, v, v.Bool?)
    ensures One(key, KeepInt(v)) == Kept(key, v, IntOf(v).Some?)
  {
    hide IntOf;
  }

  lemma FailuresAgree(d: Doc, index: bool)
    ensures CleanError(d, index) == Failure(d, index)
  {
    hide CleanError, Get;
    CleanErrorFields(d, index);
    CountsAgree("index", Get(d, "index"));
    NamesOfCodesAgree(ErrorCode(d));
  }

  lemma NamesOfCodesAgree(code: Value)
    requires IntOf(code).Some?
    ensures CodeName(IntOf(code).value) == NameOfCode(code)
  {
    hide IntOf;
  }

  lemma FailureEntriesAgree(v: Value)
    ensures CleanWriteError(v) == FailureEntry(v)
  {
    hide CleanError, Failure;
    if v.Document? {
      FailuresAgree(v.fields, true);
    }
  }

  lemma SmallEntriesAgree(v: Value)
    ensures KeepLabel(v) == LabelEntry(v) && KeepInt(v) == NumberEntry(v) && CleanUpsert(v) == UpsertEntry(v)
  {
    hide IntOf, Get;
  }

  lemma DatabaseEntriesAgree(v: Value)
    ensures CleanDatabase(v) == DatabaseEntry(v)
  {
    hide Get, DatabaseName, W.Database, Pick, Counts;
    if v.Document? {
      var d := v.fields;
      DatabasesAgree(Get(d, "name"), false);
      DatabaseFields(d);
      CountsAgree("sizeOnDisk", Get(d, "sizeOnDisk"));
      CountsAgree("empty", Get(d, "empty"));
    }
  }

  lemma CollectionEntriesAgree(v: Value)
    ensures CleanCollection(v) == CollectionEntry(v)
  {
    hide Get, CollectionName, W.Collection;
    if v.Document? {
      CollectionsAgree(Get(v.fields, "name"));
    }
  }

  lemma IndexedFieldsAgree(v: Value)
    ensures IndexKey(v) == IndexedFields(v)
  {
    hide FieldDoc, W.Plain, IntOf;
    ShapesAgree(v);
    if v.Document? {
      forall i | 0 <= i < |v.fields|
        ensures IndexPart(v.fields[i].value) <==>
                W.Sign(v.fields[i].value) ||
                v.fields[i].value in [String("text"), String("hashed"), String("2d"), String("2dsphere")]
      {
        IndexPartsAgree(v.fields[i].value);
      }
    }
  }

  lemma IndexPartsAgree(v: Value)
    ensures IndexPart(v) <==>
            W.Sign(v) || v in [String("text"), String("hashed"), String("2d"), String("2dsphere")]
  {
    hide IntOf;
  }

  lemma IndexEntriesAgree(v: Value)
    ensures CleanIndex(v) == IndexEntry(v)
  {
    hide Get, FieldName, W.Named, Pick, Counts, IndexKey, IndexedFields, IndexKeys;
    if v.Document? {
      var d := v.fields;
      ShapesAgree(Get(d, "name"));
      IndexedFieldsAgree(Get(d, "key"));
      IndexFields(d);
      CountsAgree("v", Get(d, "v"));
      CountsAgree("unique", Get(d, "unique"));
      CountsAgree("sparse", Get(d, "sparse"));
      CountsAgree("hidden", Get(d, "hidden"));
      CountsAgree("expireAfterSeconds", Get(d, "expireAfterSeconds"));
    }
  }

  // ------------------------------------------------------------------ the whole reply

  /** An array under this key, with only the entries that `f` gives. */
  function Listed(key: string, v: Value, f: Value -> Option<Value>): Doc
  {
    if v.Array? then [Field(key, Array(Sift(v.items, f)))] else []
  }

  /** A batch: as it is, but for the listings. */
  function BatchContent(name: string, key: string, v: Value): Doc
  {
    if name == "listCollections" then Listed(key, v, CollectionEntry)
    else if name == "listIndexes" then Listed(key, v, IndexEntry)
    else Kept(key, v, v.Array?)
  }

  function CursorContent(name: string, d: Doc): Doc
  {
    Kept("id", Get(d, "id"), IntOf(Get(d, "id")).Some?) + Kept("ns", Get(d, "ns"), Get(d, "ns").String?) +
    BatchContent(name, "firstBatch", Get(d, "firstBatch")) + BatchContent(name, "nextBatch", Get(d, "nextBatch"))
  }

  function LastContent(d: Doc): Doc
  {
    Kept("n", Get(d, "n"), Counts(Get(d, "n"))) +
    Kept("updatedExisting", Get(d, "updatedExisting"), Get(d, "updatedExisting").Bool?) +
    Kept("upserted", Get(d, "upserted"), Get(d, "upserted") != Null)
  }

  /** The document that findAndModify has found, Null when none, and what became of it. */
  function ModifyContent(reply: Doc): Doc
  {
    var value, last := Get(reply, "value"), Get(reply, "lastErrorObject");
    Kept("value", value, value == Null || value.Document?) +
    (if last.Document? then [Field("lastErrorObject", Document(LastContent(last.fields)))] else [])
  }

  function CountContent(name: string, reply: Doc): Doc
  {
    Kept("n", Get(reply, "n"), Counts(Get(reply, "n"))) +
    Kept("nModified", Get(reply, "nModified"), Counts(Get(reply, "nModified"))) +
    (if name == "update" then Listed("upserted", Get(reply, "upserted"), UpsertEntry) else [])
  }

  function KillContent(reply: Doc): Doc
  {
    Listed("cursorsKilled", Get(reply, "cursorsKilled"), NumberEntry) +
    Listed("cursorsNotFound", Get(reply, "cursorsNotFound"), NumberEntry) +
    Listed("cursorsAlive", Get(reply, "cursorsAlive"), NumberEntry) +
    Listed("cursorsUnknown", Get(reply, "cursorsUnknown"), NumberEntry)
  }

  function BuildContent(reply: Doc): Doc
  {
    var version, numbers := Get(reply, "version"), Get(reply, "versionArray");
    Kept("version", version, version.String? && 1 <= |version.text| <= 32 && W.Letters(version.text, "0123456789.")) +
    Kept("versionArray", numbers,
         numbers.Array? && |numbers.items| == 4 &&
         forall k :: 0 <= k < 4 ==> W.Between(numbers.items[k], 0, 2147483647))
  }

  predicate CursorCommand(name: string)
  {
    name in ["find", "aggregate", "getMore", "listCollections", "listIndexes"]
  }

  /** What the command itself answers. */
  function Content(name: string, reply: Doc): Doc
  {
    if CursorCommand(name) then
      var cursor := Get(reply, "cursor");
      if cursor.Document? then [Field("cursor", Document(CursorContent(name, cursor.fields)))] else []
    else if name == "findAndModify" then ModifyContent(reply)
    else if name == "distinct" then Kept("values", Get(reply, "values"), Get(reply, "values").Array?)
    else if name in ["count", "insert", "update", "delete"] then CountContent(name, reply)
    else if name == "killCursors" then KillContent(reply)
    else if name == "listDatabases" then Listed("databases", Get(reply, "databases"), DatabaseEntry)
    else if name in ["buildInfo", "buildinfo"] then BuildContent(reply)
    else []
  }

  /** What every reply may add. */
  function Tail(reply: Doc): Doc
  {
    var concern, labels, time :=
      Get(reply, "writeConcernError"), Get(reply, "errorLabels"), Get(reply, "operationTime");
    Listed("writeErrors", Get(reply, "writeErrors"), FailureEntry) +
    (if concern.Document? then [Field("writeConcernError", Document(Failure(concern.fields, false)))] else []) +
    (if labels.Array? && Sift(labels.items, LabelEntry) != [] then Listed("errorLabels", labels, LabelEntry) else []) +
    Kept("operationTime", time, time.Timestamp?)
  }

  lemma ListsAgree(key: string, v: Value, f: Value -> Option<Value>, g: Value -> Option<Value>)
    requires forall x: Value :: f(x) == g(x)
    ensures One(key, Cleaned(v, f)) == Listed(key, v, g)
  {
    if v.Array? {
      SiftAgrees(v.items, f, g);
    }
  }

  lemma CursorVerbs(name: string)
    ensures GivesCursor(VerbOf(name)) <==> CursorCommand(name)
    ensures VerbOf(name) == ListIndexes <==> name == "listIndexes"
  {
  }

  lemma WritingVerbs(name: string)
    ensures VerbOf(name) in {Count, Insert, Update, Delete} <==> name in ["count", "insert", "update", "delete"]
    ensures (VerbOf(name) == Update <==> name == "update") && (VerbOf(name) == Distinct <==> name == "distinct")
  {
  }

  lemma OtherVerbs(name: string)
    ensures VerbOf(name) == KillCursors <==> name == "killCursors"
    ensures VerbOf(name) == BuildInfo <==> name in ["buildInfo", "buildinfo"]
  {
  }

  lemma BatchesAgree(name: string, key: string, v: Value)
    ensures One(key, BatchField(VerbOf(name), v)) == BatchContent(name, key, v)
  {
    hide VerbOf, CleanCollection, CollectionEntry, CleanIndex, IndexEntry;
    ListingVerbs(name);
    CursorVerbs(name);
    if v.Array? {
      forall x: Value ensures CleanCollection(x) == CollectionEntry(x) && CleanIndex(x) == IndexEntry(x) {
        CollectionEntriesAgree(x);
        IndexEntriesAgree(x);
      }
      SiftAgrees(v.items, CleanCollection, CollectionEntry);
      SiftAgrees(v.items, CleanIndex, IndexEntry);
    }
  }

  lemma CursorsAgree(name: string, d: Doc)
    ensures CleanCursor(VerbOf(name), d) == CursorContent(name, d)
  {
    hide VerbOf, BatchField, BatchContent, CleanCursor, Get, IntOf;
    CursorFields(VerbOf(name), d);
    CountsAgree("id", Get(d, "id"));
    BatchesAgree(name, "firstBatch", Get(d, "firstBatch"));
    BatchesAgree(name, "nextBatch", Get(d, "nextBatch"));
  }

  lemma CursorFieldIs(verb: Verb, reply: Doc)
    ensures PublicField(verb, reply, "cursor") ==
            var v := Get(reply, "cursor"); if v.Document? then Some(Document(CleanCursor(verb, v.fields))) else None
  {
    hide PartOf, Get, CleanCursor;
    OwnParts();
  }

  lemma CountFields(verb: Verb, reply: Doc)
    ensures PublicField(verb, reply, "n") == KeepCount(Get(reply, "n"))
    ensures PublicField(verb, reply, "nModified") == KeepCount(Get(reply, "nModified"))
    ensures PublicField(verb, reply, "upserted") == Cleaned(Get(reply, "upserted"), CleanUpsert)
  {
    hide PartOf, Get, KeepCount, CleanUpsert, Cleaned;
    OwnParts();
  }

  lemma ModifyFields(verb: Verb, reply: Doc)
    ensures PublicField(verb, reply, "value") ==
            var v := Get(reply, "value"); if v == Null || v.Document? then Some(v) else None
    ensures PublicField(verb, reply, "lastErrorObject") ==
            var v := Get(reply, "lastErrorObject");
            if v.Document? then Some(Document(Pick(LastErrorKeys(), k => LastErrorField(v.fields, k)))) else None
  {
    hide PartOf, Get, Pick;
    OwnParts();
  }

  lemma BuildFields(verb: Verb, reply: Doc)
    ensures PublicField(verb, reply, "version") ==
            var v := Get(reply, "version"); if VersionText(v) then Some(v) else None
    ensures PublicField(verb, reply, "versionArray") ==
            var v := Get(reply, "versionArray"); if VersionNumbers(v) then Some(v) else None
  {
    hide PartOf, Get, VersionText, VersionNumbers;
    OwnParts();
  }

  function OwnOf(verb: Verb, reply: Doc): Doc { Pick(OwnKeys(verb), key => PublicField(verb, reply, key)) }

  lemma CursorReplies(name: string, reply: Doc)
    requires CursorCommand(name)
    ensures OwnOf(VerbOf(name), reply) == Content(name, reply)
  {
    hide VerbOf, CleanCursor, CursorContent, Get, Pick, PublicField;
    CursorVerbs(name);
    CursorFieldIs(VerbOf(name), reply);
    PickOne("cursor", key => PublicField(VerbOf(name), reply, key));
    if Get(reply, "cursor").Document? {
      CursorsAgree(name, Get(reply, "cursor").fields);
    }
  }

  lemma ModifyReplies(reply: Doc)
    ensures OwnOf(FindAndModify, reply) == ModifyContent(reply)
  {
    hide Get, Pick, PublicField, LastErrorField;
    ModifyFields(FindAndModify, reply);
    PickTwo("value", "lastErrorObject", key => PublicField(FindAndModify, reply, key));
    var last := Get(reply, "lastErrorObject");
    if last.Document? {
      LastErrorsAgree(last.fields);
    }
  }

  lemma LastErrorsAgree(d: Doc)
    ensures Pick(LastErrorKeys(), key => LastErrorField(d, key)) == LastContent(d)
  {
    hide Get, Pick, LastErrorField, Counts, KeepCount, KeepBool;
    LastErrorFields(d);
    PickThree("n", "updatedExisting", "upserted", key => LastErrorField(d, key));
    CountsAgree("n", Get(d, "n"));
    CountsAgree("updatedExisting", Get(d, "updatedExisting"));
  }

  lemma DistinctReplies(reply: Doc)
    ensures OwnOf(Distinct, reply) == Kept("values", Get(reply, "values"), Get(reply, "values").Array?)
  {
    hide Get, Pick, PartOf;
    OwnParts();
    PickOne("values", key => PublicField(Distinct, reply, key));
  }

  lemma CountReplies(name: string, reply: Doc)
    requires name in ["count", "insert", "update", "delete"]
    ensures OwnOf(VerbOf(name), reply) == CountContent(name, reply)
  {
    hide VerbOf, Get, Pick, PublicField, Counts, KeepCount;
    WritingVerbs(name);
    CountFields(VerbOf(name), reply);
    var f := key => PublicField(VerbOf(name), reply, key);
    PickTwo("n", "nModified", f);
    PickThree("n", "nModified", "upserted", f);
    CountsAgree("n", Get(reply, "n"));
    CountsAgree("nModified", Get(reply, "nModified"));
    forall x: Value ensures CleanUpsert(x) == UpsertEntry(x) {
      SmallEntriesAgree(x);
    }
    hide CleanUpsert, UpsertEntry;
    ListsAgree("upserted", Get(reply, "upserted"), CleanUpsert, UpsertEntry);
  }

  lemma KillReplies(reply: Doc)
    ensures OwnOf(KillCursors, reply) == KillContent(reply)
  {
    hide Get, Pick, PartOf, KeepInt, NumberEntry;
    var f := key => PublicField(KillCursors, reply, key);
    assert KillKeys() == ["cursorsKilled", "cursorsNotFound"] + ["cursorsAlive", "cursorsUnknown"];
    PickTwo("cursorsKilled", "cursorsNotFound", f);
    PickTwo("cursorsAlive", "cursorsUnknown", f);
    PickAppend(["cursorsKilled", "cursorsNotFound"], ["cursorsAlive", "cursorsUnknown"], f);
    forall x: Value ensures KeepInt(x) == NumberEntry(x) {
      SmallEntriesAgree(x);
    }
    forall k: nat | k < 4
      ensures One(KillKeys()[k], f(KillKeys()[k])) == Listed(KillKeys()[k], Get(reply, KillKeys()[k]), NumberEntry)
    {
      KillParts(k);
      ListsAgree(KillKeys()[k], Get(reply, KillKeys()[k]), KeepInt, NumberEntry);
    }
    assert KillKeys()[0] == "cursorsKilled" && KillKeys()[1] == "cursorsNotFound";
    assert KillKeys()[2] == "cursorsAlive" && KillKeys()[3] == "cursorsUnknown";
  }

  lemma DatabaseReplies(reply: Doc)
    ensures OwnOf(ListDatabases, reply) == Listed("databases", Get(reply, "databases"), DatabaseEntry)
  {
    hide Get, Pick, PartOf, CleanDatabase, DatabaseEntry;
    OwnParts();
    PickOne("databases", key => PublicField(ListDatabases, reply, key));
    forall x: Value ensures CleanDatabase(x) == DatabaseEntry(x) {
      DatabaseEntriesAgree(x);
    }
    ListsAgree("databases", Get(reply, "databases"), CleanDatabase, DatabaseEntry);
  }

  lemma BuildReplies(reply: Doc)
    ensures OwnOf(BuildInfo, reply) == BuildContent(reply)
  {
    hide Get, Pick, PublicField, IntOf;
    BuildFields(BuildInfo, reply);
    PickTwo("version", "versionArray", key => PublicField(BuildInfo, reply, key));
    VersionsAgree(Get(reply, "version"));
  }

  lemma VersionsAgree(v: Value)
    ensures VersionText(v) <==> v.String? && 1 <= |v.text| <= 32 && W.Letters(v.text, "0123456789.")
  {
  }

  lemma NoContent(verb: Verb, reply: Doc)
    requires GivesNothing(verb)
    ensures OwnOf(verb, reply) == []
  {
    OwnKeyForms(verb);
  }

  lemma ContentsAgree(name: string, reply: Doc)
    ensures OwnOf(VerbOf(name), reply) == Content(name, reply)
  {
    hide VerbOf, OwnOf, CursorCommand, CursorContent, ModifyContent, CountContent, KillContent, BuildContent, Listed,
         Get;
    CursorVerbs(name);
    WritingVerbs(name);
    OtherVerbs(name);
    SpecialVerbs(name);
    ListingVerbs(name);
    if GivesCursor(VerbOf(name)) {
      CursorReplies(name, reply);
    } else if VerbOf(name) in {Count, Insert, Update, Delete} {
      CountReplies(name, reply);
    } else if GivesNothing(VerbOf(name)) {
      NoContent(VerbOf(name), reply);
    } else {
      ModifyReplies(reply);
      DistinctReplies(reply);
      KillReplies(reply);
      DatabaseReplies(reply);
      BuildReplies(reply);
    }
  }

  lemma LabelsAgree(labels: Value)
    ensures One("errorLabels", if labels.Array? && Sift(labels.items, KeepLabel) != [] then Cleaned(labels, KeepLabel)
                               else None) ==
            if labels.Array? && Sift(labels.items, LabelEntry) != [] then Listed("errorLabels", labels, LabelEntry)
            else []
  {
    hide KeepLabel, LabelEntry;
    forall x: Value ensures KeepLabel(x) == LabelEntry(x) {
      SmallEntriesAgree(x);
    }
    if labels.Array? {
      SiftAgrees(labels.items, KeepLabel, LabelEntry);
    }
  }

  lemma TailsAgree(verb: Verb, reply: Doc)
    ensures Pick(CommonKeys(), key => PublicField(verb, reply, key)) == Tail(reply)
  {
    hide Get, Pick, PartOf, CleanError, Failure, KeepLabel, LabelEntry, CleanWriteError, FailureEntry;
    CommonParts();
    CommonFieldsAre(verb, reply);
    forall x: Value ensures CleanWriteError(x) == FailureEntry(x) {
      FailureEntriesAgree(x);
    }
    ListsAgree("writeErrors", Get(reply, "writeErrors"), CleanWriteError, FailureEntry);
    var concern := Get(reply, "writeConcernError");
    if concern.Document? {
      FailuresAgree(concern.fields, false);
    }
    LabelsAgree(Get(reply, "errorLabels"));
  }

  /**
   * The reply in full: whether the command has succeeded, then what the command answers or why it has failed, then
   * what every reply may add.
   */
  function Written(name: string, reply: Doc): Doc
  {
    [Field("ok", Double(if Successful(reply) then 0x3FF0_0000_0000_0000 else 0))] +
    (if Successful(reply) then Content(name, reply) else Failure(reply, false)) + Tail(reply)
  }

  /** The public reply is the one written out: each field with the key, and with the value, that it has upstream. */
  lemma ReplyWrittenOut(name: string, reply: Doc)
    ensures PublicReply(VerbOf(name), reply) == Written(name, reply)
  {
    hide VerbOf, PublicReply, PublicField, Pick, OwnKeys, CleanError, Failure, Content, Tail, Get, IntOf;
    ReplyInParts(VerbOf(name), reply);
    ContentsAgree(name, reply);
    TailsAgree(VerbOf(name), reply);
    FailuresAgree(reply, false);
  }

  lemma CursorIsShown(verb: Verb, reply: Doc)
    requires GivesCursor(verb) && Ok(reply) && Get(reply, "cursor").Document?
    ensures Get(PublicReply(verb, reply), "cursor") == Document(CleanCursor(verb, Get(reply, "cursor").fields))
  {
    hide CleanCursor, Get, Ok, PartOf, Pick;
    OwnParts();
    OwnKeyForms(verb);
    var keys := PublicKeys(verb, Ok(reply));
    assert keys[1] == "cursor";
    PickGet(keys, key => PublicField(verb, reply, key), "cursor");
  }

  lemma CursorFieldIsShown(verb: Verb, cursor: Doc, k: nat)
    requires k < 4
    ensures Get(CleanCursor(verb, cursor), CursorKeys()[k]) == OrNull(CursorField(verb, cursor, CursorKeys()[k]))
  {
    hide Get, CursorField, Pick;
    PickGet(CursorKeys(), key => CursorField(verb, cursor, key), CursorKeys()[k]);
  }

  lemma NoListing(name: string)
    requires name in ["find", "aggregate", "getMore"]
    ensures CursorCommand(name) && name != "listCollections" && name != "listIndexes"
  {
    assert |name| < 10 && |"listCollections"| == 15 && |"listIndexes"| == 11;
  }

  /** The documents of a find, an aggregate or a getMore reach the client as they are, and so does the cursor. */
  lemma DocumentsArrive(name: string, reply: Doc)
    requires name in ["find", "aggregate", "getMore"] && Successful(reply) && Get(reply, "cursor").Document?
    ensures var shown := Get(PublicReply(VerbOf(name), reply), "cursor");
            var cursor := Get(reply, "cursor").fields;
            && shown.Document?
            && (Get(cursor, "firstBatch").Array? ==> Get(shown.fields, "firstBatch") == Get(cursor, "firstBatch"))
            && (Get(cursor, "nextBatch").Array? ==> Get(shown.fields, "nextBatch") == Get(cursor, "nextBatch"))
            && (IntOf(Get(cursor, "id")).Some? ==> Get(shown.fields, "id") == Get(cursor, "id"))
            && (Get(cursor, "ns").String? ==> Get(shown.fields, "ns") == Get(cursor, "ns"))
  {
    hide VerbOf, CleanCursor, CursorField, Get, IntOf, PublicReply;
    NoListing(name);
    CursorVerbs(name);
    ListingVerbs(name);
    var verb := VerbOf(name);
    var cursor := Get(reply, "cursor").fields;
    CursorIsShown(verb, reply);
    CursorFieldsOf(verb, cursor);
    CursorFieldIsShown(verb, cursor, 0);
    CursorFieldIsShown(verb, cursor, 1);
    CursorFieldIsShown(verb, cursor, 2);
    CursorFieldIsShown(verb, cursor, 3);
  }

  function EntryOf(name: string): Value -> Option<Value>
  {
    if name == "listCollections" then CollectionEntry else IndexEntry
  }

  /** A listing shows the plain collections outside the system namespace, or the indexes, in order, and no others. */
  lemma ListingsArrive(name: string, reply: Doc, key: string)
    requires name in ["listCollections", "listIndexes"] && key in ["firstBatch", "nextBatch"]
    requires Successful(reply) && Get(reply, "cursor").Document? && Get(Get(reply, "cursor").fields, key).Array?
    ensures var shown := Get(PublicReply(VerbOf(name), reply), "cursor");
            && shown.Document? && Get(shown.fields, key).Array?
            && Selection(Get(Get(reply, "cursor").fields, key).items, Get(shown.fields, key).items, EntryOf(name))
  {
    hide VerbOf, CleanCursor, CursorField, Get, PublicReply, CollectionEntry, IndexEntry, Selection, IntOf;
    ListingWords(name);
    CursorVerbs(name);
    ListingVerbs(name);
    var cursor := Get(reply, "cursor").fields;
    CursorIsShown(VerbOf(name), reply);
    CursorFieldsOf(VerbOf(name), cursor);
    CursorFieldIsShown(VerbOf(name), cursor, if key == "firstBatch" then 2 else 3);
    BatchesAgree(name, key, Get(cursor, key));
    SiftIsSelection(Get(cursor, key).items, EntryOf(name));
  }

  lemma ListingWords(name: string)
    requires name in ["listCollections", "listIndexes"]
    ensures CursorCommand(name) && (name == "listIndexes" <==> name != "listCollections")
  {
    assert |"listCollections"| == 15 && |"listIndexes"| == 11;
  }
}
