/** What the policy means in plain words: names that never pass, operators with their operands, and commands that do. */
module CommandLaws {
  import opened Values
  import opened PolicyTables
  import opened Policy
  import opened Positions
  import opened PolicyUnfold
  import opened PolicyTheorems
  import opened Namespaces
  import opened WhitelistTheorems
  import W = Whitelist

  // ------------------------------------------------------------------- what never passes

  lemma RuleOfCommand(doc: Doc)
    requires CommandOK(doc)
    ensures W.CommandRule(doc)
  {
    hide CommandOK, W.CommandRule, Place;
    CommandAcceptedIffWhitelisted(doc);
    PlaceRoot(CommandRole, Document(doc));
    RootRule(doc);
  }

  lemma RootRule(doc: Doc)
    requires Whitelisted(doc) && Place(CommandRole, Document(doc), []) == Some(Node(CommandRole, Document(doc), 0))
    ensures W.CommandRule(doc)
  {
    hide W.CommandRule, Place;
    assert W.Rule(CommandRole, Document(doc)) by {
      assert Place(CommandRole, Document(doc), []).Some?;
      hide W.Rule;
    }
  }

  /** The database of an accepted command: never local or config in any case, and admin for server commands only. */
  lemma DatabaseOfCommand(doc: Doc)
    requires CommandOK(doc)
    ensures |doc| >= 2 && Get(doc, "$db").String?
    ensures var db := Get(doc, "$db").text;
            && !W.AnyCase(db, "local") && !W.AnyCase(db, "config")
            && (W.AnyCase(db, "admin") ==>
                  db == "admin" && doc[0].key in ["ping", "buildInfo", "buildinfo", "listDatabases", "endSessions"])
            && forall i :: 0 <= i < |db| ==>
                 db[i] !in ['/', '\\', '.', ' ', '"', '$', '*', '<', '>', ':', '|', '?', '\0']
  {
    hide CommandOK, W.SubjectRule, W.OnlyKeys, W.Required, W.OptionRule, W.AnyCase;
    RuleOfCommand(doc);
  }

  // ---------------------------------------------------------------- the collections named

  /** The command's own collection: its value, or for a getMore the option of that name. */
  predicate Own(doc: Doc, c: string)
  {
    doc != [] && (doc[0].value == String(c) || (doc[0].key == "getMore" && Get(doc, "collection") == String(c)))
  }

  /** A stage that reads another collection. */
  predicate Mentions(stage: Value, c: string)
  {
    && stage.Document? && |stage.fields| == 1
    && var key, x := stage.fields[0].key, stage.fields[0].value;
    || (key == "$lookup" && x.Document? && Get(x.fields, "from") == String(c))
    || (key == "$unionWith" && (x == String(c) || (x.Document? && Get(x.fields, "coll") == String(c))))
  }

  /** Some stage of the command, at any nesting of its pipelines, reads the collection. */
  ghost predicate Reads(doc: Doc, c: string)
  {
    exists path: Path :: Place(CommandRole, Document(doc), path).Some? &&
      var n := Place(CommandRole, Document(doc), path).value; n.role.StageRole? && Mentions(n.value, c)
  }

  lemma NamesAreMentions(role: Role, v: Value, c: string)
    ensures Names(role, v) == Some(c) <==> role.StageRole? && Mentions(v, c)
  {
    if v.Document? && |v.fields| == 1 {
      StageWords(v.fields[0].key);
    }
    hide StageOf, Get;
  }

  predicate HasCollection(verb: Verb)
  {
    verb in {Find, Aggregate, Count, Distinct, KillCursors, Insert, Update, Delete, FindAndModify, ListIndexes}
  }

  lemma CollectionVerbs(name: string)
    ensures HasCollection(VerbOf(name)) <==> W.CollectionCommand(name)
  {
    hide VerbOf, W.ServerCommand, W.CollectionCommand;
    VerbsAgree(name);
    ServerVerbs(name);
    CommandsAreApart(name);
    match VerbOf(name)
    case Find | Aggregate | Count | Distinct | KillCursors | Insert | Update | Delete | FindAndModify | ListIndexes =>
    case _ =>
  }

  lemma MainIsOwn(doc: Doc, c: string)
    requires W.CommandRule(doc)
    ensures MainCollection(doc) == Some(c) <==> Own(doc, c)
  {
    hide VerbOf, W.ServerCommand, W.CollectionCommand, W.OnlyKeys, W.Required, W.OptionRule, W.Database, Get, W.Lsid;
    var name := doc[0].key;
    VerbsAgree(name);
    CollectionVerbs(name);
    CommandsAreApart(name);
  }

  /**
   * The list of namespaces of an accepted command, in the words of the command: its own collection, and every
   * collection that a `$lookup` names in `from` or a `$unionWith` names, by itself or in `coll`, at any nesting. And
   * nothing else.
   */
  lemma NamespacesWrittenOut(doc: Doc, c: string)
    requires CommandOK(doc)
    ensures Get(doc, "$db").String?
    ensures Touches(doc, c) <==> Own(doc, c) || Reads(doc, c)
    ensures Namespace(Get(doc, "$db").text, c) in NamespaceList(doc) <==> Own(doc, c) || Reads(doc, c)
  {
    hide CommandOK, MainCollection, Own, At, Place, Names, Mentions, NamespaceList, W.CommandRule, FirstUseList;
    NamespaceListExact(doc);
    RuleOfCommand(doc);
    MainIsOwn(doc, c);
    forall path: Path
      ensures At(CommandRole, Document(doc), path) == Place(CommandRole, Document(doc), path)
    {
      AtIsPlace(CommandRole, Document(doc), path);
    }
    forall n: Node ensures Names(n.role, n.value) == Some(c) <==> n.role.StageRole? && Mentions(n.value, c) {
      NamesAreMentions(n.role, n.value, c);
    }
  }

  /** No collection that an accepted command touches lies in the system namespace, in whatever case it is written. */
  lemma NoSystemCollection(doc: Doc, c: string)
    requires CommandOK(doc) && Touches(doc, c)
    ensures W.Collection(String(c)) && !W.BeginsInAnyCase(c, "system.") && '$' !in c
  {
    hide CommandOK, Touches, Own, W.CommandRule, Place, Mentions, W.BeginsInAnyCase;
    NamespacesWrittenOut(doc, c);
    RuleOfCommand(doc);
    if Own(doc, c) {
      OwnIsCollection(doc, c);
    } else {
      CommandAcceptedIffWhitelisted(doc);
      var path: Path :| Place(CommandRole, Document(doc), path).Some? &&
        var n := Place(CommandRole, Document(doc), path).value; n.role.StageRole? && Mentions(n.value, c);
      RuleAt(doc, path);
      MentionIsCollection(Place(CommandRole, Document(doc), path).value, c);
    }
  }

  lemma RuleAt(doc: Doc, path: Path)
    requires Whitelisted(doc) && Place(CommandRole, Document(doc), path).Some?
    ensures var n := Place(CommandRole, Document(doc), path).value; W.Rule(n.role, n.value)
  {
    hide Place, W.Rule;
  }

  lemma OwnIsCollection(doc: Doc, c: string)
    requires W.CommandRule(doc) && Own(doc, c)
    ensures W.Collection(String(c))
  {
    hide W.ServerCommand, W.CollectionCommand, W.OnlyKeys, W.Required, W.OptionRule, W.Database, W.Collection, Get,
         W.Lsid;
    SubjectWords(doc[0].key);
  }

  lemma SubjectWords(name: string)
    ensures name == "getMore" ==> !W.CollectionCommand(name) && !W.ServerCommand(name) && name != "listCollections"
  {
    hide W.CollectionCommand, W.ServerCommand;
    CommandsAreApart(name);
    assert |"getMore"| == 7 && |"listCollections"| == 15;
  }

  lemma MentionIsCollection(n: Node, c: string)
    requires n.role.StageRole? && W.Rule(n.role, n.value) && Mentions(n.value, c)
    ensures W.Collection(String(c))
  {
    hide W.Collection, W.StageArgument, W.Named, Get, W.OnlyKeys;
    JoinArguments(n.value.fields[0].key, n.value.fields[0].value);
    CollectionsAreTexts(n.value.fields[0].value);
  }

  lemma CollectionsAreTexts(x: Value)
    ensures W.Collection(x) ==> x.String?
  {
  }

  lemma JoinArguments(key: string, x: Value)
    requires W.StageArgument(key, x)
    ensures key == "$lookup" ==> W.Lookup(x)
    ensures key == "$unionWith" ==>
              W.Collection(x) || (W.Object(x, ["coll", "pipeline"]) && W.Collection(Get(x.fields, "coll")))
  {
    hide StageOf, W.Collection, W.Group, W.Order, W.Unwind, W.Plain, W.Between, W.Named, W.Lookup, W.Object, W.Lone,
         Get;
    StageWords(key);
  }

  // ------------------------------------------------------------------ what is evaluated

  /**
   * Every expression that an accepted command evaluates, at any nesting: a text refers to the permitted variables
   * only, and an operator is a known one with the number of operands, or the named arguments, that it must have.
   */
  lemma EvaluatedOperators(doc: Doc, path: Path)
    requires CommandOK(doc) && Place(CommandRole, Document(doc), path).Some?
    requires Place(CommandRole, Document(doc), path).value.role == ExpressionRole
    ensures var v := Place(CommandRole, Document(doc), path).value.value;
            && (v.String? ==> W.Reference(v.text))
            && (v.Document? && |v.fields| == 1 && W.Starts(v.fields[0].key) && v.fields[0].key != "$literal" ==>
                  W.OperatorRule(v.fields[0].key, v.fields[0].value))
  {
    hide CommandOK, At, Place, OperatorShape, FormOf, W.OperatorRule, ExpressionText, W.Reference;
    AtIsPlace(CommandRole, Document(doc), path);
    EvaluatedExpressions(doc, path);
    var v := Place(CommandRole, Document(doc), path).value.value;
    if v.String? {
      ReferencesAgree(v.text);
    }
    if v.Document? && |v.fields| == 1 {
      OperatorsAgree(v.fields[0].key, v.fields[0].value);
    }
  }

  // ------------------------------------------------------------------ what is accepted

  lemma AcceptedByParts(doc: Doc)
    requires W.CommandRule(doc)
    requires forall i :: 1 <= i < |doc| && W.OptionPart(doc[0].key, doc[i].key, doc[i].value).Some? ==>
               Accepts(W.OptionPart(doc[0].key, doc[i].key, doc[i].value).value.role, doc[i].value, 0)
    ensures CommandOK(doc)
  {
    hide CommandHead, OptionShape, W.CommandRule, CommandOption, OptionChild, W.OptionPart, VerbOf, Accepts;
    AtLeastTwo(doc);
    HeadsOfCommandsAgree(doc);
    forall i | 1 <= i < |doc| ensures CommandOption(VerbOf(doc[0].key), doc[i].key, doc[i].value) {
      UnfoldOption(VerbOf(doc[0].key), doc[i].key, doc[i].value);
      OptionPartsAgree(doc[0].key, doc[i].key, doc[i].value);
      PartIsValue(doc[0].key, doc[i].key, doc[i].value);
    }
  }

  lemma AtLeastTwo(doc: Doc)
    ensures W.CommandRule(doc) ==> |doc| >= 2
  {
  }

  lemma PartIsValue(name: string, key: string, x: Value)
    ensures W.OptionPart(name, key, x).Some? ==> W.OptionPart(name, key, x).value.value == x
  {
    hide W.Common;
  }

  /** A value compared with as it is: no document that begins a test. */
  predicate Data(v: Value) { v.Document? ==> !W.Tests(v.fields) }

  lemma EqualityIsFilter(field: string, value: Value)
    requires W.Key(field) && Data(value)
    ensures Match(Document([Field(field, value)]), 0)
  {
    if value.Document? {
      TestsAgree(value.fields);
    }
    assert FilterKeyOf(field) == PathKey by {
      assert field[0] != '$';
      assert "$and"[0] == '$' && "$or"[0] == '$' && "$nor"[0] == '$' && "$expr"[0] == '$';
    }
  }

  lemma DatabaseOptionIs(name: string, x: Value)
    ensures W.OptionRule("$db", x) && W.OptionPart(name, "$db", x) == None
  {
  }

  lemma WindowOptionIs(name: string, x: Value)
    ensures W.OptionRule("skip", x) == W.OptionRule("limit", x) == W.Between(x, 0, 9223372036854775807)
    ensures W.OptionPart(name, "skip", x) == W.OptionPart(name, "limit", x) == None
  {
    hide W.Between, W.FurtherOption, W.FurtherPart;
  }

  lemma NoFlag(key: string)
    requires key in ["filter", "sort", "documents", "pipeline", "cursor", "updates"]
    ensures !W.Common(key)
  {
  }

  lemma FilterOptionIs(x: Value)
    ensures W.OptionRule("filter", x) && W.OptionPart("find", "filter", x) == Some(Node(FilterRole, x, 0))
  {
    hide W.Common, W.Flag;
    NoFlag("filter");
    NotCommon("filter", x);
    assert |"find"| == 4 && |"listCollections"| == 15 && |"listDatabases"| == 13;
  }

  lemma NotCommon(key: string, x: Value)
    requires !W.Common(key)
    ensures W.OptionRule(key, x) == W.FurtherOption(key, x)
  {
    hide W.Flag, W.FurtherOption;
  }

  lemma SortOptionIs(name: string, x: Value)
    ensures W.OptionRule("sort", x) == W.Order(x) && W.OptionPart(name, "sort", x) == None
  {
    hide W.Common, W.Flag, W.Order, W.LastOption, W.LastPart;
    NoFlag("sort");
    NotCommon("sort", x);
  }

  lemma FindWords()
    ensures W.CollectionCommand("find") && !W.ServerCommand("find") && W.Required("find") == []
    ensures W.Options("find")[0] == "filter" && W.Options("find")[2] == "sort" && W.Options("find")[3] == "skip"
    ensures W.Options("find")[4] == "limit" && |W.Options("find")| == 19
    ensures "find" !in ["endSessions", "findAndModify", "listCollections", "getMore"]
  {
    assert |"find"| == 4;
  }

  lemma FindKeys(doc: Doc)
    requires |doc| == 6 && doc[0].key == "find" && doc[1].key == "filter" && doc[2].key == "sort"
    requires doc[3].key == "skip" && doc[4].key == "limit" && doc[5].key == "$db"
    ensures W.OnlyKeys(doc, ["find"] + ["$db", "lsid", "maxTimeMS", "$readPreference"] + W.Options("find"))
    ensures Get(doc, "$db") == doc[5].value
  {
    hide W.Options;
    FindWords();
    var allowed := ["find"] + ["$db", "lsid", "maxTimeMS", "$readPreference"] + W.Options("find");
    assert allowed[0] == "find" && allowed[1] == "$db" && allowed[5] == "filter" && allowed[7] == "sort";
    assert allowed[8] == "skip" && allowed[9] == "limit";
    assert |"find"| == 4 && |"filter"| == 6 && |"sort"| == 4 && |"skip"| == 4 && |"limit"| == 5 && |"$db"| == 3;
    assert "find"[0] == 'f' && "sort"[1] == 'o' && "skip"[1] == 'k';
    assert UniqueKeys(doc);
    GetAt(doc, 5);
  }

  /** A find by equality on any field, in any order, with any window, in any collection of any ordinary database. */
  lemma FindIsAccepted(db: string, c: string, field: string, value: Value, order: string, direction: int32, skip: int64,
                       limit: int64)
    requires W.Database(String(db), false) && W.Collection(String(c)) && W.Key(field) && W.Key(order)
    requires Data(value) && direction in {1, -1} && skip >= 0 && limit >= 0
    ensures CommandOK([Field("find", String(c)), Field("filter", Document([Field(field, value)])),
                       Field("sort", Document([Field(order, Int32(direction))])), Field("skip", Int64(skip)),
                       Field("limit", Int64(limit)), Field("$db", String(db))])
  {
    hide W.Database, W.Collection, W.Key, Match, W.OptionRule, W.OptionPart, W.OnlyKeys, W.Options, W.Required,
         W.ServerCommand, W.CollectionCommand, CommandOK, Get;
    var doc := [Field("find", String(c)), Field("filter", Document([Field(field, value)])),
                Field("sort", Document([Field(order, Int32(direction))])), Field("skip", Int64(skip)),
                Field("limit", Int64(limit)), Field("$db", String(db))];
    EqualityIsFilter(field, value);
    FilterOptionIs(doc[1].value);
    SortOptionIs("find", doc[2].value);
    WindowOptionIs("find", doc[3].value);
    WindowOptionIs("find", doc[4].value);
    DatabaseOptionIs("find", doc[5].value);
    FindWords();
    FindKeys(doc);
    OneKeyOrder(order, direction);
    AcceptsFilter(doc[1].value);
    assert W.CommandRule(doc);
    AcceptedByParts(doc);
  }

  lemma OneKeyOrder(order: string, direction: int32)
    requires W.Key(order) && direction in {1, -1}
    ensures W.Order(Document([Field(order, Int32(direction))]))
  {
  }

  lemma AcceptsFilter(x: Value)
    ensures Accepts(FilterRole, x, 0) == Match(x, 0)
  {
    AcceptsOptionRoles(x);
  }

  lemma InsertWords()
    ensures W.CollectionCommand("insert") && W.Required("insert") == ["documents"]
    ensures W.Options("insert") == ["documents", "ordered", "writeConcern", "bypassDocumentValidation"]
    ensures "insert" !in ["endSessions", "findAndModify"] && !W.ServerCommand("insert")
  {
    assert |"insert"| == 6;
  }

  lemma DocumentsOptionIs(name: string, x: Value)
    ensures W.OptionRule("documents", x) == W.DocumentsRule(x) && W.OptionPart(name, "documents", x) == None
  {
    hide W.Common, W.Flag, W.DocumentsRule;
    NoFlag("documents");
    NotCommon("documents", x);
    assert |"documents"| == 9;
  }

  /** An insert of any documents into any collection of any ordinary database. */
  lemma InsertIsAccepted(db: string, c: string, items: seq<Value>)
    requires W.Database(String(db), false) && W.Collection(String(c))
    requires items != [] && forall i :: 0 <= i < |items| ==> items[i].Document?
    ensures CommandOK([Field("insert", String(c)), Field("documents", Array(items)), Field("$db", String(db))])
  {
    hide W.Database, W.Collection, W.OptionRule, W.OptionPart, W.OnlyKeys, W.Options, W.Required, W.ServerCommand,
         W.CollectionCommand, CommandOK, Get;
    var doc := [Field("insert", String(c)), Field("documents", Array(items)), Field("$db", String(db))];
    InsertWords();
    InsertKeys(doc);
    DocumentsOptionIs("insert", doc[1].value);
    DatabaseOptionIs("insert", doc[2].value);
    assert W.CommandRule(doc);
    AcceptedByParts(doc);
  }

  lemma InsertKeys(doc: Doc)
    requires |doc| == 3 && doc[0].key == "insert" && doc[1].key == "documents" && doc[2].key == "$db"
    ensures W.OnlyKeys(doc, ["insert"] + ["$db", "lsid", "maxTimeMS", "$readPreference"] + W.Options("insert"))
    ensures Get(doc, "$db") == doc[2].value && Get(doc, "documents") == doc[1].value
  {
    hide W.Options;
    InsertWords();
    var allowed := ["insert"] + ["$db", "lsid", "maxTimeMS", "$readPreference"] + W.Options("insert");
    assert allowed[0] == "insert" && allowed[1] == "$db" && allowed[5] == "documents";
    assert |"insert"| == 6 && |"documents"| == 9 && |"$db"| == 3;
    GetAt(doc, 1);
    GetAt(doc, 2);
  }

  lemma UpdateWords()
    ensures W.CollectionCommand("update") && W.Required("update") == ["updates"]
    ensures W.Options("update") == ["updates", "ordered", "writeConcern", "bypassDocumentValidation", "let"]
    ensures "update" !in ["endSessions", "findAndModify"] && !W.ServerCommand("update")
  {
    assert |"update"| == 6;
  }

  lemma UpdatesOptionIs(name: string, x: Value)
    ensures W.OptionRule("updates", x) && W.OptionPart(name, "updates", x) == Some(Node(WriteListRole(true), x, 0))
  {
    hide W.Common, W.Flag;
    NoFlag("updates");
    NotCommon("updates", x);
    assert |"updates"| == 7;
  }

  lemma UpdateKeys(doc: Doc)
    requires |doc| == 3 && doc[0].key == "update" && doc[1].key == "updates" && doc[2].key == "$db"
    ensures W.OnlyKeys(doc, ["update"] + ["$db", "lsid", "maxTimeMS", "$readPreference"] + W.Options("update"))
    ensures Get(doc, "$db") == doc[2].value && Get(doc, "updates") == doc[1].value
  {
    hide W.Options;
    UpdateWords();
    var allowed := ["update"] + ["$db", "lsid", "maxTimeMS", "$readPreference"] + W.Options("update");
    assert allowed[0] == "update" && allowed[1] == "$db" && allowed[5] == "updates";
    assert |"update"| == 6 && |"updates"| == 7 && |"$db"| == 3;
    GetAt(doc, 1);
    GetAt(doc, 2);
  }

  function SetOf(field: string, value: Value, target: string, setting: Value): Value
  {
    Document([Field("q", Document([Field(field, value)])),
              Field("u", Document([Field("$set", Document([Field(target, setting)]))]))])
  }

  lemma SetIsUpdate(target: string, setting: Value)
    requires W.Key(target)
    ensures UpdateSpec(Document([Field("$set", Document([Field(target, setting)]))]), 0)
  {
    var v := Document([Field("$set", Document([Field(target, setting)]))]);
    assert ModifierOf("$set") == AssignModifier;
    assert Dollar(v.fields[0].key);
    hide ModifierOf;
  }

  lemma SetIsWrite(field: string, value: Value, target: string, setting: Value)
    requires W.Key(field) && Data(value) && W.Key(target)
    ensures Write(SetOf(field, value, target, setting), true)
  {
    hide Match, UpdateSpec, W.Key;
    EqualityIsFilter(field, value);
    SetIsUpdate(target, setting);
    var d := SetOf(field, value, target, setting).fields;
    assert d[0].key == "q" && d[1].key == "u" && |"q"| == 1 && |"u"| == 1 && "q"[0] != "u"[0];
    assert UniqueKeys(d);
    GetAt(d, 0);
    GetAt(d, 1);
    assert "q" in WriteFields(true) && "u" in WriteFields(true);
    assert |"upsert"| == 6 && |"multi"| == 5 && |"hint"| == 4 && |"arrayFilters"| == 12;
  }

  /** An update that sets any field of the documents with any value of any other field. */
  lemma UpdateIsAccepted(db: string, c: string, field: string, value: Value, target: string, setting: Value)
    requires W.Database(String(db), false) && W.Collection(String(c))
    requires W.Key(field) && Data(value) && W.Key(target)
    ensures CommandOK([Field("update", String(c)), Field("updates", Array([SetOf(field, value, target, setting)])),
                       Field("$db", String(db))])
  {
    hide W.Database, W.Collection, W.OptionRule, W.OptionPart, W.OnlyKeys, W.Options, W.Required, W.ServerCommand,
         W.CollectionCommand, CommandOK, Get, Write, SetOf, W.Key;
    var doc := [Field("update", String(c)), Field("updates", Array([SetOf(field, value, target, setting)])),
                Field("$db", String(db))];
    UpdateWords();
    UpdateKeys(doc);
    UpdatesOptionIs("update", doc[1].value);
    DatabaseOptionIs("update", doc[2].value);
    SetIsWrite(field, value, target, setting);
    AcceptsWrites(doc[1].value);
    assert W.CommandRule(doc);
    AcceptedByParts(doc);
  }

  lemma AcceptsWrites(x: Value)
    ensures Accepts(WriteListRole(true), x, 0) == Writes(x, true)
  {
    AcceptsOptionRoles(x);
  }

  lemma GetMoreWords()
    ensures W.Required("getMore") == ["collection"] && W.Options("getMore") == ["collection", "batchSize"]
    ensures "getMore" !in ["endSessions", "findAndModify"] && !W.ServerCommand("getMore")
  {
    assert |"getMore"| == 7;
  }

  lemma CollectionOptionIs(name: string, x: Value)
    ensures W.OptionRule("collection", x) == W.Collection(x) && W.OptionPart(name, "collection", x) == None
  {
    hide W.Common, W.Flag, W.Collection;
    CollectionIsNotCommon("collection");
    NotCommon("collection", x);
    assert |"collection"| == 10;
  }

  lemma CollectionIsNotCommon(key: string)
    requires key == "collection"
    ensures !W.Common(key)
  {
    assert |key| == 10;
  }

  /** A getMore of any cursor number on any collection. */
  lemma GetMoreIsAccepted(db: string, c: string, id: int64)
    requires W.Database(String(db), false) && W.Collection(String(c))
    ensures CommandOK([Field("getMore", Int64(id)), Field("collection", String(c)), Field("$db", String(db))])
  {
    hide W.Database, W.Collection, W.OptionRule, W.OptionPart, W.OnlyKeys, W.Options, W.Required, W.ServerCommand,
         W.CollectionCommand, CommandOK, Get;
    var doc := [Field("getMore", Int64(id)), Field("collection", String(c)), Field("$db", String(db))];
    GetMoreWords();
    GetMoreKeys(doc);
    CollectionOptionIs("getMore", doc[1].value);
    DatabaseOptionIs("getMore", doc[2].value);
    assert W.CommandRule(doc);
    AcceptedByParts(doc);
  }

  lemma GetMoreKeys(doc: Doc)
    requires |doc| == 3 && doc[0].key == "getMore" && doc[1].key == "collection" && doc[2].key == "$db"
    ensures W.OnlyKeys(doc, ["getMore"] + ["$db", "lsid", "maxTimeMS", "$readPreference"] + W.Options("getMore"))
    ensures Get(doc, "$db") == doc[2].value && Get(doc, "collection") == doc[1].value
  {
    hide W.Options;
    GetMoreWords();
    var allowed := ["getMore"] + ["$db", "lsid", "maxTimeMS", "$readPreference"] + W.Options("getMore");
    assert allowed[0] == "getMore" && allowed[1] == "$db" && allowed[5] == "collection";
    assert |"getMore"| == 7 && |"collection"| == 10 && |"$db"| == 3;
    GetAt(doc, 1);
    GetAt(doc, 2);
  }
}
