/** The policy as it is checked is the whitelist as it is written out: at every position, for every command. */
module WhitelistTheorems {
  import opened Values
  import opened PolicyTables
  import opened Policy
  import opened Positions
  import opened PolicyUnfold
  import opened PolicyTheorems
  import W = Whitelist

  // ------------------------------------------------------------------- names and shapes

  lemma ShapesAgree(v: Value)
    ensures FieldDoc(v) == W.Plain(v) && SortSpec(v) == W.Order(v) && FieldName(v) == W.Named(v)
    ensures PlusOrMinusOne(v) == W.Sign(v) && Number(v) == W.Amount(v) && Hint(v) == W.HintRule(v)
    ensures SortOrder(v) == (W.Sign(v) || W.Order(v)) && SessionId(v) == W.Lsid(v)
  {
    hide IntOf;
  }

  lemma TestsAgree(d: Doc)
    ensures HasOperators(d) == W.Tests(d)
  {
    if HasOperators(d) {
      var i :| 0 <= i < |d| && Dollar(d[i].key);
      assert W.Starts(d[i].key);
    }
    if W.Tests(d) {
      var i :| 0 <= i < |d| && W.Starts(d[i].key);
      assert Dollar(d[i].key);
    }
  }

  lemma CaseAgrees(s: string, small: string)
    ensures W.AnyCase(s, small) <==> Lower(s) == small
  {
    assert forall c: char :: W.Small(c) == LowerChar(c);
    if W.AnyCase(s, small) {
      assert forall i :: 0 <= i < |s| ==> Lower(s)[i] == small[i];
      assert Lower(s) == small;
    }
  }

  lemma ForbiddenOctets(c: char)
    ensures c in "/\\. \"$*<>:|?\0" <==> c in ['/', '\\', '.', ' ', '"', '$', '*', '<', '>', ':', '|', '?', '\0']
  {
  }

  lemma DatabasesAgree(v: Value, admin: bool)
    ensures DatabaseName(v, admin) == W.Database(v, admin)
  {
    hide Lower, W.AnyCase;
    if v.String? {
      CaseAgrees(v.text, "local");
      CaseAgrees(v.text, "config");
      CaseAgrees(v.text, "admin");
      forall i | 0 <= i < |v.text| ensures v.text[i] in "/\\. \"$*<>:|?\0" <==>
        v.text[i] in ['/', '\\', '.', ' ', '"', '$', '*', '<', '>', ':', '|', '?', '\0'] {
        ForbiddenOctets(v.text[i]);
      }
    }
  }

  lemma PrefixAgrees(s: string, prefix: string)
    ensures HasPrefix(Lower(s), prefix) <==> W.BeginsInAnyCase(s, prefix)
  {
    if |prefix| <= |s| {
      CaseAgrees(s[..|prefix|], prefix);
      assert Lower(s)[..|prefix|] == Lower(s[..|prefix|]);
    }
  }

  lemma CollectionsAgree(v: Value)
    ensures CollectionName(v) == W.Collection(v)
  {
    hide HasPrefix, W.BeginsInAnyCase, Lower;
    if v.String? {
      PrefixAgrees(v.text, "system.");
      if forall i :: 0 < i < |v.text| ==> v.text[i - 1] != '.' || v.text[i] != '.' {
        forall i | 0 <= i < |v.text| - 1 ensures !(v.text[i] == '.' && v.text[i + 1] == '.') {
          assert 0 < i + 1 < |v.text|;
        }
      }
    }
  }

  // ----------------------------------------------------------------------------- filters

  lemma TypesAgree(v: Value)
    ensures BsonType(v) == W.TypeName(v)
  {
    hide IntOf;
  }

  lemma PlainTestsAgree(d: Doc, i: nat)
    requires i < |d|
    ensures ConditionKeyOf(d[i].key) !in {Negation, ElementTest, AllTest} ==> PlainTest(d, i) == W.TestRule(d, i)
  {
    hide IntOf, BsonType, W.TypeName, Number, W.Amount, Get, HasOperators, W.Tests, Dollar, W.Starts;
    var x := d[i].value;
    TypesAgree(x);
    if x.Array? {
      forall j | 0 <= j < |x.items| ensures BsonType(x.items[j]) == W.TypeName(x.items[j]) &&
                                            Number(x.items[j]) == W.Amount(x.items[j]) {
        TypesAgree(x.items[j]);
        ShapesAgree(x.items[j]);
      }
    }
  }

  lemma NestingTestsAgree(d: Doc, i: nat)
    requires i < |d|
    ensures ConditionKeyOf(d[i].key) in {Negation, ElementTest, AllTest} ==> TestShape(d, i) == W.TestRule(d, i)
  {
    hide IntOf, BsonType, W.TypeName, Number, W.Amount, Get, HasOperators, W.Tests, PlainTest;
    var x := d[i].value;
    if x.Array? {
      forall k | 0 <= k < |x.items| && x.items[k].Document?
        ensures HasOperators(x.items[k].fields) == W.Tests(x.items[k].fields)
      {
        TestsAgree(x.items[k].fields);
      }
    }
  }

  lemma TestAgrees(d: Doc, i: nat)
    requires i < |d|
    ensures TestShape(d, i) == W.TestRule(d, i)
  {
    hide ConditionKeyOf, W.TestRule, PlainTest;
    PlainTestsAgree(d, i);
    NestingTestsAgree(d, i);
  }

  lemma FilterAgrees(v: Value)
    ensures FilterKeysOK(v) == W.FilterRule(v)
  {
  }

  // ------------------------------------------------------------------------- expressions

  lemma {:induction false} HeadsAgree(s: string)
    ensures Head(s) == W.UpToDot(s)
  {
    if s != "" && s[0] != '.' {
      HeadsAgree(s[1..]);
    }
  }

  lemma ReferencesAgree(s: string)
    ensures ExpressionText(s) == W.Reference(s)
  {
    hide Head, W.UpToDot;
    if |s| >= 2 {
      HeadsAgree(s[2..]);
    }
  }

  lemma KindsAgree(kind: ScalarKind)
    ensures kind in {Decimal128, ObjectId, DateTime, Undefined, MinKey, MaxKey} <==>
            kind !in {DbPointer, JavaScript, Symbol}
  {
    match kind
    case DbPointer | JavaScript | Symbol => assert kind in {DbPointer, JavaScript, Symbol};
    case _ =>
  }

  lemma ExpressionsAgree(v: Value)
    ensures ExpressionShape(v) == W.ExpressionRule(v)
  {
    hide ExpressionText, W.Reference;
    match v
    case String(s) => ReferencesAgree(s);
    case Scalar(kind, _) => KindsAgree(kind);
    case Document(d) => assert |d| == 1 ==> Dollar(d[0].key) == W.Starts(d[0].key);
    case _ =>
  }

  lemma OperatorTablesAgree(op: string)
    ensures UnaryOperator(op) == W.Unary(op) && FoldOperator(op) == W.Folding(op)
    ensures BinaryOperator(op) == W.Binary2(op) && DatePartOperator(op) == W.DatePart(op)
  {
  }

  lemma ArraysAgree(op: string)
    ensures ArrayForm(op) ==
            if W.Arity(op).Some? then OperatorForm.Arguments(W.Arity(op).value.0, W.Arity(op).value.1)
            else if op in ["$round", "$trunc"] then RoundForm
            else if op == "$cond" then CondForm
            else Forbidden
  {
  }

  lemma DateNamesAgree(op: string)
    ensures DateForm(op) ==
            if W.DateArguments(op).Some? then
              OperatorForm.Named(W.DateArguments(op).value.0, W.DateArguments(op).value.1)
            else Forbidden
  {
  }

  lemma CountIsNoDate()
    ensures W.DateArguments("$count") == None
  {
  }

  lemma NamesAgree(op: string)
    ensures NamedForm(op) ==
            if W.Arguments(op).Some? then OperatorForm.Named(W.Arguments(op).value.0, W.Arguments(op).value.1)
            else if op == "$count" then EmptyDocument
            else Forbidden
  {
    hide DateForm, W.DateArguments;
    DateNamesAgree(op);
    CountIsNoDate();
  }

  lemma CountIsNoSimple(op: string)
    requires |op| == 6 && op[1] == 'c' && op[2] == 'o' && op[3] == 'u'
    ensures !UnaryOperator(op) && !FoldOperator(op)
  {
  }

  lemma CountIsNoBinary(op: string)
    requires |op| == 6 && op[1] == 'c' && op[2] == 'o' && op[3] == 'u'
    ensures !BinaryOperator(op) && !DatePartOperator(op)
  {
  }

  lemma CountIsNoList(op: string)
    requires |op| == 6 && op[1] == 'c' && op[2] == 'o' && op[3] == 'u'
    ensures ArrayForm(op) == Forbidden
  {
  }

  lemma CountHasNoNames(op: string)
    requires |op| == 6 && op[1] == 'c' && op[2] == 'o' && op[3] == 'u'
    ensures W.Arguments(op).None?
  {
  }

  lemma CountIsOnlyEmpty()
    ensures FormOf("$count") == EmptyDocument
  {
    hide UnaryOperator, FoldOperator, BinaryOperator, DatePartOperator, ArrayForm, NamedForm, W.Arguments;
    var op := "$count";
    assert |op| == 6 && op[1] == 'c' && op[2] == 'o' && op[3] == 'u';
    CountIsNoSimple(op);
    CountIsNoBinary(op);
    CountIsNoList(op);
    CountHasNoNames(op);
    NamesAgree(op);
  }

  /** The form of an operator in terms of the tables written out. */
  lemma FormsAgree(op: string)
    ensures FormOf(op) ==
            if W.Unary(op) then OneArgument
            else if W.Folding(op) then AnyArgument
            else if W.Binary2(op) then OperatorForm.Arguments(2, 2)
            else if W.DatePart(op) then DatePartForm
            else if W.Arity(op).Some? then OperatorForm.Arguments(W.Arity(op).value.0, W.Arity(op).value.1)
            else if W.Rounding(op) then RoundForm
            else if op == "$cond" then CondForm
            else if W.Arguments(op).Some? then OperatorForm.Named(W.Arguments(op).value.0, W.Arguments(op).value.1)
            else if op == "$count" then EmptyDocument
            else Forbidden
  {
    hide UnaryOperator, FoldOperator, BinaryOperator, DatePartOperator, ArrayForm, NamedForm, W.Unary, W.Folding,
         W.Binary2, W.DatePart, W.Arity, W.Arguments;
    OperatorTablesAgree(op);
    ArraysAgree(op);
    NamesAgree(op);
  }

  lemma RulesOfNamesAgree(op: string, x: Value)
    ensures RuleOf(op, x).Named? <==> W.Naming(op, x).Some?
    ensures RuleOf(op, x).Named? ==>
              RuleOf(op, x) == OperatorForm.Named(W.Naming(op, x).value.0, W.Naming(op, x).value.1)
    ensures RuleOf(op, x) == EmptyDocument <==> op == "$count"
  {
    hide FormOf, W.Unary, W.Folding, W.Binary2, W.DatePart, W.Arity, W.Arguments, Present;
    FormsAgree(op);
    CountIsOnlyEmpty();
  }

  lemma SlotsAgree(op: string, key: string, x: Value)
    ensures SlotShape(op, key, x) == W.ArgumentRule(op, key, x)
  {
    hide SortOrder, W.Order, W.Sign;
    ShapesAgree(x);
  }

  lemma OperatorsAgree(op: string, x: Value)
    ensures OperatorShape(op, x) == W.OperatorRule(op, x)
  {
    hide FormOf, W.Unary, W.Folding, W.Binary2, W.DatePart, W.Arity, W.Arguments, Present, SlotShape, W.ArgumentRule;
    FormsAgree(op);
    if x.Document? {
      forall i | 0 <= i < |x.fields|
        ensures SlotShape(op, x.fields[i].key, x.fields[i].value) ==
                W.ArgumentRule(op, x.fields[i].key, x.fields[i].value)
      {
        SlotsAgree(op, x.fields[i].key, x.fields[i].value);
      }
    }
  }

  // ---------------------------------------------------------------- stages and updates

  lemma PathsAgree(x: Value)
    ensures FieldPath(x) == W.Path(x)
  {
  }

  lemma UnwindsAgree(x: Value)
    ensures UnwindSpec(x) == W.Unwind(x)
  {
    hide FieldPath, W.Path, FieldName, W.Named, Get;
    PathsAgree(x);
    if x.Document? {
      PathsAgree(Get(x.fields, "path"));
      forall i | 0 <= i < |x.fields| ensures FieldName(x.fields[i].value) == W.Named(x.fields[i].value) {
        ShapesAgree(x.fields[i].value);
      }
    }
  }

  lemma GroupsAgree(x: Value)
    ensures GroupFields(x) == W.Group(x)
  {
    hide FieldDoc, W.Plain, Present;
    ShapesAgree(x);
  }

  lemma LookupsAgree(x: Value)
    ensures LookupFields(x) == W.Lookup(x)
  {
    hide CollectionName, W.Collection, FieldName, W.Named, Get;
    if x.Document? {
      CollectionsAgree(Get(x.fields, "from"));
      ShapesAgree(Get(x.fields, "as"));
      ShapesAgree(Get(x.fields, "localField"));
      ShapesAgree(Get(x.fields, "foreignField"));
      NullIsNoName();
    }
  }

  lemma NullIsNoName()
    ensures !FieldName(Null)
  {
  }

  lemma UnionsAgree(x: Value)
    ensures (if x.String? then CollectionName(x) else UnionFields(x)) <==>
            W.Collection(x) || (W.Object(x, ["coll", "pipeline"]) && W.Collection(Get(x.fields, "coll")))
  {
    hide Get;
    CollectionsAgree(x);
    if x.Document? {
      CollectionsAgree(Get(x.fields, "coll"));
    }
  }

  lemma UnsetsAgree(x: Value)
    ensures UnsetSpec(x) <==>
            if x.Array? then forall i :: 0 <= i < |x.items| ==> W.Named(x.items[i]) else W.Named(x)
  {
  }

  lemma StageWords(key: string)
    ensures StageOf(key) in {MatchStage, ProjectStage, ExpressionStage} <==>
            key in ["$match", "$project", "$set", "$addFields", "$replaceWith", "$sortByCount"]
    ensures (StageOf(key) == GroupStage <==> key == "$group") && (StageOf(key) == SortStage <==> key == "$sort")
    ensures (StageOf(key) == SkipStage <==> key == "$skip") && (StageOf(key) == LimitStage <==> key == "$limit")
    ensures (StageOf(key) == CountStage <==> key == "$count") && (StageOf(key) == UnsetStage <==> key == "$unset")
    ensures (StageOf(key) == UnwindStage <==> key == "$unwind") && (StageOf(key) == LookupStage <==> key == "$lookup")
    ensures (StageOf(key) == UnionStage <==> key == "$unionWith") && (StageOf(key) == FacetStage <==> key == "$facet")
    ensures StageOf(key) == ReplaceRootStage <==> key == "$replaceRoot"
    ensures StageOf(key) == SampleStage <==> key == "$sample"
  {
  }

  lemma UpdateStagesAgree(key: string)
    ensures UpdateStage(key) <==>
            key in ["$set", "$addFields", "$project", "$unset", "$replaceRoot", "$replaceWith"]
  {
  }

  lemma StageArgumentsAgree(key: string, x: Value)
    ensures W.StageArgument(key, x) <==>
      match StageOf(key)
      case GroupStage => GroupFields(x)
      case SortStage => SortSpec(x)
      case SkipStage => InRange(x, 0, MAX_INT64)
      case LimitStage => InRange(x, 1, MAX_INT64)
      case CountStage => FieldName(x)
      case UnsetStage => UnsetSpec(x)
      case UnwindStage => UnwindSpec(x)
      case LookupStage => LookupFields(x)
      case UnionStage => if x.String? then CollectionName(x) else UnionFields(x)
      case FacetStage => FieldDoc(x)
      case ReplaceRootStage => SingleField(x, "newRoot")
      case SampleStage => SingleField(x, "size") && InRange(x.fields[0].value, 0, MAX_INT64)
      case NoStage => false
      case _ => true
  {
    hide StageOf, GroupFields, SortSpec, FieldName, UnsetSpec, UnwindSpec, LookupFields, UnionFields, FieldDoc,
         CollectionName, W.Group, W.Order, W.Named, W.Unwind, W.Lookup, W.Collection, W.Plain, IntOf, W.Object;
    StageWords(key);
    ShapesAgree(x);
    GroupsAgree(x);
    UnsetsAgree(x);
    UnwindsAgree(x);
    LookupsAgree(x);
    UnionsAgree(x);
  }

  lemma StagesAgree(update: bool, v: Value)
    ensures StageShape(update, v) == W.StageRule(update, v)
  {
    hide StageOf, UpdateStage, GroupFields, SortSpec, FieldName, UnsetSpec, UnwindSpec, LookupFields, UnionFields,
         FieldDoc, CollectionName, SingleField, InRange, W.StageArgument;
    if v.Document? && |v.fields| == 1 {
      UpdateStagesAgree(v.fields[0].key);
      StageArgumentsAgree(v.fields[0].key, v.fields[0].value);
    }
  }

  lemma PushesAgree(x: Value, allowed: seq<string>)
    ensures (!x.Document? || PushControls(x.fields, allowed)) == W.Pushed(x, allowed)
  {
    hide SortOrder, W.Sign, W.Order, IntOf, Get, HasOperators, W.Tests;
    if x.Document? {
      TestsAgree(x.fields);
      forall i | 0 <= i < |x.fields|
        ensures SortOrder(x.fields[i].value) <==> W.Sign(x.fields[i].value) || W.Order(x.fields[i].value)
      {
        ShapesAgree(x.fields[i].value);
      }
    }
  }

  predicate Modifies(kind: ModifierKind, x: Value)
  {
    (kind == PullModifier && x.Document?) || PlainModification(kind, x)
  }

  lemma ModifierWords(key: string)
    ensures ModifierOf(key) == AssignModifier <==> key in ["$set", "$unset", "$min", "$max", "$setOnInsert"]
    ensures ModifierOf(key) == NumberModifier <==> key in ["$inc", "$mul"]
    ensures ModifierOf(key) == RenameModifier <==> key == "$rename"
    ensures ModifierOf(key) == PopModifier <==> key == "$pop"
    ensures ModifierOf(key) == PullAllModifier <==> key == "$pullAll"
    ensures ModifierOf(key) == PullModifier <==> key == "$pull"
    ensures ModifierOf(key) == DateModifier <==> key == "$currentDate"
    ensures (ModifierOf(key) == BitModifier <==> key == "$bit") && (ModifierOf(key) == PushModifier <==> key == "$push")
    ensures ModifierOf(key) == AddToSetModifier <==> key == "$addToSet"
    ensures ModifierOf(key) != NoModifier <==> W.Modifier(key)
  {
  }

  lemma ModifiersAgree(key: string, x: Value)
    ensures ModifierOf(key) != NoModifier <==> W.Modifier(key)
    ensures ModifierOf(key) == PullModifier <==> key == "$pull"
    ensures Modifies(ModifierOf(key), x) <==> W.ModifierRule(key, x)
  {
    hide ModifierOf, W.Modifier, PushControls, W.Pushed, IntOf, FieldName, W.Named, PlusOrMinusOne, W.Sign, Number,
         W.Amount;
    ModifierWords(key);
    ShapesAgree(x);
    PushesAgree(x, ["$each", "$slice", "$position", "$sort"]);
    PushesAgree(x, ["$each"]);
  }

  lemma UpdatesAgree(v: Value)
    ensures UpdateShape(v) == W.UpdateRule(v)
  {
    hide ModifierOf, PlainModification, W.Modifier, W.ModifierRule, FieldDoc, W.Plain, HasOperators, W.Tests;
    if v.Document? {
      TestsAgree(v.fields);
      forall i | 0 <= i < |v.fields|
        ensures FieldDoc(v.fields[i].value) == W.Plain(v.fields[i].value)
        ensures ModifierOf(v.fields[i].key) != NoModifier <==> W.Modifier(v.fields[i].key)
      {
        ShapesAgree(v.fields[i].value);
        ModifiersAgree(v.fields[i].key, Null);
      }
      PlainAreDocuments();
      forall i, j | 0 <= i < |v.fields| && FieldDoc(v.fields[i].value) && 0 <= j < |v.fields[i].value.fields|
        ensures var x := v.fields[i].value.fields[j].value;
                Modifies(ModifierOf(v.fields[i].key), x) <==> W.ModifierRule(v.fields[i].key, x)
      {
        ModifiersAgree(v.fields[i].key, v.fields[i].value.fields[j].value);
      }
    }
  }

  lemma PlainAreDocuments()
    ensures forall v :: FieldDoc(v) ==> v.Document?
  {
  }

  lemma WritesAgree(v: Value, update: bool)
    ensures WriteShape(v, update) == W.WriteRule(v, update)
  {
    hide Hint, W.HintRule, IntOf, Get, Present;
    if v.Document? {
      forall i | 0 <= i < |v.fields| ensures Hint(v.fields[i].value) == W.HintRule(v.fields[i].value) {
        ShapesAgree(v.fields[i].value);
      }
    }
  }

  // ------------------------------------------------------------------ listing filters

  lemma NameTestsAgree(d: Doc)
    ensures NamePredicate(d) == W.NameTests(d)
  {
    hide Present;
    forall v: Value ensures NameOperand(v) == W.NamePattern(v) {}
  }

  lemma ListingsAgree(v: Value, collections: bool)
    ensures MetadataShape(v, collections) == W.ListingRule(v, collections)
  {
    hide NamePredicate, W.NameTests;
    if v.Document? {
      forall i | 0 <= i < |v.fields| && v.fields[i].value.Document?
        ensures NamePredicate(v.fields[i].value.fields) == W.NameTests(v.fields[i].value.fields)
      {
        NameTestsAgree(v.fields[i].value.fields);
      }
    }
  }

  // ------------------------------------------------------------------------- commands

  lemma KnownCommands(name: string)
    ensures VerbOf(name) != OtherCommand <==>
            W.ServerCommand(name) || W.CollectionCommand(name) || name in ["listCollections", "endSessions", "getMore"]
  {
  }

  lemma ServerVerbs(name: string)
    ensures VerbOf(name) in {Ping, BuildInfo, ListDatabases} <==> W.ServerCommand(name)
    ensures VerbOf(name) == EndSessions <==> name == "endSessions"
  {
  }

  lemma ListingVerbs(name: string)
    ensures VerbOf(name) == ListCollections <==> name == "listCollections"
    ensures VerbOf(name) == ListDatabases <==> name == "listDatabases"
  {
  }

  lemma SpecialVerbs(name: string)
    ensures VerbOf(name) == GetMore <==> name == "getMore"
    ensures VerbOf(name) == FindAndModify <==> name == "findAndModify"
  {
  }

  lemma VerbsAgree(name: string)
    ensures VerbOf(name) != OtherCommand <==>
            W.ServerCommand(name) || W.CollectionCommand(name) || name in ["listCollections", "endSessions", "getMore"]
    ensures AdminVerb(VerbOf(name)) <==> W.ServerCommand(name) || name == "endSessions"
    ensures VerbOf(name) in {Ping, BuildInfo, ListDatabases, ListCollections} <==>
            W.ServerCommand(name) || name == "listCollections"
    ensures VerbOf(name) == EndSessions <==> name == "endSessions"
    ensures VerbOf(name) == GetMore <==> name == "getMore"
    ensures VerbOf(name) == FindAndModify <==> name == "findAndModify"
    ensures MetadataVerb(VerbOf(name)) <==> name in ["listCollections", "listDatabases"]
    ensures VerbOf(name) == ListCollections <==> name == "listCollections"
  {
    hide VerbOf, W.ServerCommand, W.CollectionCommand;
    KnownCommands(name);
    ServerVerbs(name);
    ListingVerbs(name);
    SpecialVerbs(name);
  }

  lemma OptionListsAgree(name: string)
    requires VerbOf(name) != OtherCommand
    ensures OwnOptions(VerbOf(name)) == W.Options(name)
  {
  }

  lemma RequiredListsAgree(name: string)
    requires VerbOf(name) != OtherCommand
    ensures RequiredOf(VerbOf(name)) == W.Required(name)
  {
  }

  lemma ItemsAgree(items: seq<Value>)
    ensures (forall i :: 0 <= i < |items| ==> SessionId(items[i])) <==>
            (forall i :: 0 <= i < |items| ==> W.Lsid(items[i]))
  {
    forall i | 0 <= i < |items| ensures SessionId(items[i]) == W.Lsid(items[i]) {
      ShapesAgree(items[i]);
    }
  }

  lemma SubjectsAgree(doc: Doc)
    requires doc != []
    ensures VerbOf(doc[0].key) != OtherCommand && CommandArgument(VerbOf(doc[0].key), doc) <==> W.SubjectRule(doc)
  {
    hide VerbOf, CollectionName, W.Collection, SessionId, W.Lsid, IntOf, Get, W.ServerCommand, W.CollectionCommand;
    var v := doc[0].value;
    VerbsAgree(doc[0].key);
    CommandsAreApart(doc[0].key);
    CollectionsAgree(v);
    CollectionsAgree(Get(doc, "collection"));
    if v.Array? {
      ItemsAgree(v.items);
    }
  }

  lemma CommandsAreApart(name: string)
    ensures W.CollectionCommand(name) ==>
              !W.ServerCommand(name) && name !in ["listCollections", "endSessions", "getMore"]
    ensures W.ServerCommand(name) ==> name !in ["listCollections", "endSessions", "getMore"]
  {
  }

  lemma HeadsOfCommandsAgree(doc: Doc)
    ensures CommandHead(doc) && (forall i :: 1 <= i < |doc| ==> OptionShape(doc[i].key, doc[i].value)) <==>
            W.CommandRule(doc)
  {
    hide VerbOf, OwnOptions, RequiredOf, CommandArgument, W.SubjectRule, W.Options, W.Required, DatabaseName,
         W.Database, OptionShape, W.OptionRule, Get, W.ServerCommand;
    if |doc| >= 2 {
      var name := doc[0].key;
      SubjectsAgree(doc);
      VerbsAgree(name);
      DatabasesAgree(Get(doc, "$db"), AdminVerb(VerbOf(name)));
      if VerbOf(name) != OtherCommand {
        OptionListsAgree(name);
        RequiredListsAgree(name);
        assert [name] + OptionsOf(VerbOf(name)) ==
               [name] + ["$db", "lsid", "maxTimeMS", "$readPreference"] + W.Options(name);
      }
      forall i | 1 <= i < |doc|
        ensures OptionShape(doc[i].key, doc[i].value) == W.OptionRule(doc[i].key, doc[i].value)
      {
        OptionsAgree(doc[i].key, doc[i].value);
      }
    }
  }

  lemma ConcernsAgree(x: Value)
    ensures ReadConcern(x) == W.ReadConcernRule(x) && WriteConcern(x) == W.WriteConcernRule(x)
  {
    hide IntOf;
  }

  lemma CursorSpecsAgree(x: Value)
    ensures CursorSpec(x) == W.CursorRule(x)
  {
    hide IntOf;
    if x.Document? && UniqueKeys(x.fields) && |x.fields| >= 2 {
      assert x.fields[0].key != x.fields[1].key;
    }
  }

  predicate KindShape(kind: OptionKind, x: Value) { NestedOption(kind) || PlainOption(kind, x) }

  lemma NestedKinds(x: Value)
    ensures KindShape(FilterOption, x) && KindShape(ProjectionOption, x) && KindShape(LetOption, x)
    ensures KindShape(PipelineOption, x) && KindShape(UpdatesOption, x) && KindShape(DeletesOption, x)
    ensures KindShape(UpdateOption, x) && KindShape(ArrayFiltersOption, x) && !KindShape(NoOption, x)
  {
    hide PlainOption;
    assert !PlainOption(NoOption, x) by { NoOptionHasNoShape(x); }
  }

  lemma NoOptionHasNoShape(x: Value)
    ensures !PlainOption(NoOption, x)
  {
  }

  lemma OrderKindsMean(x: Value)
    ensures KindShape(SortOption, x) == W.Order(x) && KindShape(HintOption, x) == W.HintRule(x)
    ensures KindShape(BoundOption, x) == W.Plain(x)
  {
    hide SortSpec, W.Order, Hint, W.HintRule, FieldDoc, W.Plain;
    ShapesAgree(x);
  }

  lemma FurtherKindsMean(x: Value)
    ensures KindShape(ReadConcernOption, x) == W.ReadConcernRule(x)
    ensures KindShape(WriteConcernOption, x) == W.WriteConcernRule(x) && KindShape(CursorOption, x) == W.CursorRule(x)
  {
    hide ReadConcern, W.ReadConcernRule, WriteConcern, W.WriteConcernRule, CursorSpec, W.CursorRule;
    ConcernsAgree(x);
    CursorSpecsAgree(x);
  }

  lemma LastKindsMean(x: Value)
    ensures KindShape(KeyOption, x) == W.Named(x) && KindShape(CollectionOption, x) == W.Collection(x)
    ensures KindShape(DocumentsOption, x) == W.DocumentsRule(x) && KindShape(CursorsOption, x) == W.CursorsRule(x)
  {
    hide PlainOption, W.Named, W.Collection, W.DocumentsRule, W.CursorsRule;
    NameKindsMean(x);
    ListKindsMean(x);
  }

  lemma NameKindsMean(x: Value)
    ensures PlainOption(KeyOption, x) == W.Named(x) && PlainOption(CollectionOption, x) == W.Collection(x)
  {
    hide FieldName, W.Named, CollectionName, W.Collection;
    ShapesAgree(x);
    CollectionsAgree(x);
  }

  lemma ListKindsMean(x: Value)
    ensures PlainOption(DocumentsOption, x) == W.DocumentsRule(x) && PlainOption(CursorsOption, x) == W.CursorsRule(x)
  {
    hide IntOf;
  }

  lemma LastOptionsAgree(key: string, x: Value)
    ensures KindShape(LastKindOf(key), x) == W.LastOption(key, x)
  {
    hide KindShape, W.Named, W.Collection, W.DocumentsRule, W.CursorsRule;
    NestedKinds(x);
    LastKindsMean(x);
  }

  lemma FurtherOptionsAgree(key: string, x: Value)
    ensures KindShape(FurtherKindOf(key), x) == W.FurtherOption(key, x)
  {
    hide KindShape, W.Order, W.HintRule, W.Plain, W.ReadConcernRule, W.WriteConcernRule, W.CursorRule, LastKindOf,
         W.LastOption;
    NestedKinds(x);
    OrderKindsMean(x);
    FurtherKindsMean(x);
    LastOptionsAgree(key, x);
  }

  lemma CommonKindsMean(x: Value)
    ensures KindShape(DatabaseOption, x) && KindShape(SessionOption, x) == W.Lsid(x)
    ensures KindShape(ReadPreferenceOption, x) == W.ReadPreferenceRule(x)
  {
    hide SessionId, W.Lsid, ReadMode, W.ReadPreferenceRule;
    ShapesAgree(x);
    ReadModesAgree(x);
  }

  lemma NumberKindsMean(x: Value)
    ensures KindShape(MillisOption, x) == W.Between(x, 0, 2147483647) && KindShape(FlagOption, x) == x.Bool?
    ensures KindShape(CountOption, x) == W.Between(x, 0, 9223372036854775807)
  {
    hide IntOf;
  }

  lemma OptionsAgree(key: string, x: Value)
    ensures OptionShape(key, x) == W.OptionRule(key, x)
  {
    hide KindShape, FurtherKindOf, W.FurtherOption, W.Lsid, W.Between, W.ReadPreferenceRule, NestedOption, PlainOption;
    assert OptionShape(key, x) == KindShape(OptionKindOf(key), x) by { OptionShapeIsKindShape(key, x); }
    CommonKindsMean(x);
    NumberKindsMean(x);
    FurtherOptionsAgree(key, x);
  }

  lemma OptionShapeIsKindShape(key: string, x: Value)
    ensures OptionShape(key, x) == KindShape(OptionKindOf(key), x)
  {
    hide OptionKindOf, NestedOption, PlainOption;
  }

  lemma ReadModesAgree(x: Value)
    ensures SingleField(x, "mode") && x.fields[0].value.String? && ReadMode(x.fields[0].value.text) <==>
            W.ReadPreferenceRule(x)
  {
  }

  // -------------------------------------------------------------------- every position

  lemma SlicesAgree(v: Value, find: bool)
    ensures ProjectionShape(find, v) == W.SliceRule(find, v)
  {
    hide FieldDoc, W.Plain, IntOf;
    ShapesAgree(v);
  }

  lemma ConditionsAgree(v: Value)
    ensures (v.Document? && HasOperators(v.fields) ==>
               UniqueKeys(v.fields) && forall i :: 0 <= i < |v.fields| ==> TestShape(v.fields, i)) <==>
            W.ConditionRule(v)
  {
    hide TestShape, W.TestRule, HasOperators, W.Tests;
    if v.Document? {
      TestsAgree(v.fields);
      forall i | 0 <= i < |v.fields| ensures TestShape(v.fields, i) == W.TestRule(v.fields, i) {
        TestAgrees(v.fields, i);
      }
    }
  }

  lemma VariablesAgree(v: Value)
    ensures FieldDoc(v) && (forall i :: 0 <= i < |v.fields| ==> VariableIdentifier(v.fields[i].key)) <==>
            W.BindingRule(v)
  {
    hide FieldDoc, W.Plain;
    ShapesAgree(v);
    PlainAreDocuments();
    forall s: string ensures VariableIdentifier(s) == W.Variable(s) {}
  }

  /** At every position the check asks for what the whitelist says. */
  lemma LocalIsRule(role: Role, v: Value)
    ensures Local(role, v) == W.Rule(role, v)
  {
    hide FilterKeysOK, W.FilterRule, TestShape, W.ConditionRule, ExpressionShape, W.ExpressionRule, OperatorShape,
         W.OperatorRule, FieldDoc, VariableIdentifier, W.BindingRule, ProjectionShape, W.SliceRule, StageShape,
         W.StageRule, UpdateShape, W.UpdateRule, WriteShape, W.WriteRule, MetadataShape, W.ListingRule, CommandHead,
         OptionShape, W.CommandRule, HasOperators;
    PlainAreDocumentsOf(v);
    match role
    case FilterRole => FilterAgrees(v);
    case ConditionRole => ConditionsAgree(v);
    case ExpressionRole => ExpressionsAgree(v);
    case OperatorRole(op) => OperatorsAgree(op, v);
    case BindingsRole => VariablesAgree(v);
    case ProjectionRole(find) => SlicesAgree(v, find);
    case StageRole(update) => StagesAgree(update, v);
    case UpdateRole => UpdatesAgree(v);
    case WriteRole(update) => WritesAgree(v, update);
    case MetadataRole(collections) => ListingsAgree(v, collections);
    case CommandRole => if v.Document? { HeadsOfCommandsAgree(v.fields); }
    case _ =>
  }

  lemma PlainAreDocumentsOf(v: Value)
    ensures FieldDoc(v) ==> v.Document?
  {
  }

  // -------------------------------------------------------------- what is looked into

  lemma FilterPartsAgree(v: Value, i: nat, j: nat)
    ensures Child(FilterRole, v, i, j) == W.Part(FilterRole, v, i, j)
  {
  }

  lemma TestPartsAgree(key: string, x: Value, j: nat)
    ensures ConditionChild(key, x, j) == W.TestPart(key, x, j)
  {
    NestingTests(key);
    hide ConditionKeyOf;
  }

  lemma NestingTests(key: string)
    ensures (ConditionKeyOf(key) == Negation <==> key == "$not") && (ConditionKeyOf(key) == AllTest <==> key == "$all")
    ensures ConditionKeyOf(key) == ElementTest <==> key == "$elemMatch"
  {
  }

  lemma ConditionPartsAgree(v: Value, i: nat, j: nat)
    ensures Child(ConditionRole, v, i, j) == W.Part(ConditionRole, v, i, j)
  {
    hide ConditionChild, W.TestPart, HasOperators, W.Tests;
    if v.Document? && i < |v.fields| {
      TestsAgree(v.fields);
      TestPartsAgree(v.fields[i].key, v.fields[i].value, j);
    }
  }

  lemma ElementPartsAgree(v: Value, i: nat, j: nat)
    ensures Child(ElementRole, v, i, j) == W.Part(ElementRole, v, i, j)
  {
  }

  lemma ExpressionPartsAgree(v: Value, i: nat, j: nat)
    ensures Child(ExpressionRole, v, i, j) == W.Part(ExpressionRole, v, i, j)
  {
  }

  lemma ArgumentPartsAgree(op: string, key: string, x: Value, j: nat)
    ensures W.ArgumentPart(op, key, x, j) ==
            match SlotOf(op, key)
            case VariableBindings => if j == 0 then Some(Node(BindingsRole, x, 1)) else None
            case SwitchBranches => ItemChild(x, j, ExpressionRole, 1)
            case Evaluated => if j == 0 then Some(Node(ExpressionRole, x, 1)) else None
            case _ => None
  {
  }

  lemma OperatorPartsAgree(op: string, v: Value, i: nat, j: nat)
    ensures OperatorChild(op, v, i, j) == W.Part(OperatorRole(op), v, i, j)
  {
    hide RuleOf, SlotOf, W.Naming, W.ArgumentPart;
    RulesOfNamesAgree(op, v);
    if v.Document? && i < |v.fields| {
      ArgumentPartsAgree(op, v.fields[i].key, v.fields[i].value, j);
    }
  }

  lemma StagePartsAgree(key: string, x: Value, i: nat)
    ensures StageChild(key, x, i) == W.StagePart(key, x, i)
  {
    MoreStageWords(key);
    hide StageOf;
  }

  lemma MoreStageWords(key: string)
    ensures StageOf(key) == MatchStage <==> key == "$match"
    ensures StageOf(key) == ProjectStage <==> key in ["$project", "$set", "$addFields"]
    ensures StageOf(key) == ExpressionStage <==> key in ["$replaceWith", "$sortByCount"]
    ensures (StageOf(key) == LookupStage <==> key == "$lookup") && (StageOf(key) == GroupStage <==> key == "$group")
    ensures (StageOf(key) == UnionStage <==> key == "$unionWith") && (StageOf(key) == FacetStage <==> key == "$facet")
    ensures StageOf(key) == ReplaceRootStage <==> key == "$replaceRoot"
  {
  }

  lemma UpdatePartsAgree(v: Value, i: nat, j: nat)
    ensures Child(UpdateRole, v, i, j) == W.Part(UpdateRole, v, i, j)
  {
    hide ModifierOf, HasOperators;
    if v.Document? && i < |v.fields| {
      PullWord(v.fields[i].key);
      TestsAgree(v.fields);
      assert v.fields[i].key == "$pull" ==> HasOperators(v.fields);
    }
  }

  lemma PullWord(key: string)
    ensures ModifierOf(key) == PullModifier <==> key == "$pull"
    ensures key == "$pull" ==> W.Starts(key)
  {
  }

  function KindPart(verb: Verb, kind: OptionKind, x: Value): Option<Node>
  {
    if NestedOption(kind) then Some(Node(OptionRole(verb, kind), x, 0)) else None
  }

  lemma QuietKinds(verb: Verb, x: Value)
    ensures KindPart(verb, DatabaseOption, x) == KindPart(verb, SessionOption, x) == None
    ensures KindPart(verb, ReadPreferenceOption, x) == KindPart(verb, MillisOption, x) == None
    ensures KindPart(verb, CountOption, x) == KindPart(verb, FlagOption, x) == KindPart(verb, SortOption, x) == None
    ensures KindPart(verb, HintOption, x) == KindPart(verb, BoundOption, x) == None
    ensures KindPart(verb, ReadConcernOption, x) == KindPart(verb, WriteConcernOption, x) == None
    ensures KindPart(verb, CursorOption, x) == KindPart(verb, DocumentsOption, x) == None
    ensures KindPart(verb, KeyOption, x) == None
    ensures KindPart(verb, CollectionOption, x) == KindPart(verb, CursorsOption, x) == None
    ensures KindPart(verb, NoOption, x) == None
  {
  }

  lemma NestedKindParts(verb: Verb, x: Value)
    ensures KindPart(verb, ProjectionOption, x) == Some(Node(ProjectionRole(true), x, 0))
    ensures KindPart(verb, LetOption, x) == Some(Node(BindingsRole, x, 0))
    ensures KindPart(verb, PipelineOption, x) == Some(Node(PipelineRole(false), x, 0))
    ensures KindPart(verb, UpdatesOption, x) == Some(Node(WriteListRole(true), x, 0))
    ensures KindPart(verb, DeletesOption, x) == Some(Node(WriteListRole(false), x, 0))
    ensures KindPart(verb, UpdateOption, x) == Some(Node(UpdateRole, x, 0))
    ensures KindPart(verb, ArrayFiltersOption, x) == Some(Node(FilterListRole, x, 0))
    ensures KindPart(verb, FilterOption, x) ==
            Some(Node(if MetadataVerb(verb) then MetadataRole(verb == ListCollections) else FilterRole, x, 0))
  {
    hide MetadataVerb;
  }

  lemma LastPartsAgree(verb: Verb, key: string, x: Value)
    ensures KindPart(verb, LastKindOf(key), x) == W.LastPart(key, x)
  {
    hide KindPart, MetadataVerb;
    QuietKinds(verb, x);
    NestedKindParts(verb, x);
  }

  lemma FurtherPartsAgree(name: string, key: string, x: Value)
    ensures KindPart(VerbOf(name), FurtherKindOf(key), x) == W.FurtherPart(name, key, x)
  {
    hide VerbOf, KindPart, MetadataVerb, LastKindOf, W.LastPart;
    VerbsAgree(name);
    QuietKinds(VerbOf(name), x);
    NestedKindParts(VerbOf(name), x);
    LastPartsAgree(VerbOf(name), key, x);
  }

  lemma OptionPartsAgree(name: string, key: string, x: Value)
    ensures OptionChild(VerbOf(name), key, x) == W.OptionPart(name, key, x)
  {
    hide VerbOf, KindPart, FurtherKindOf, W.FurtherPart;
    assert OptionChild(VerbOf(name), key, x) == KindPart(VerbOf(name), OptionKindOf(key), x) by {
      OptionChildIsKindPart(VerbOf(name), key, x);
    }
    QuietKinds(VerbOf(name), x);
    FurtherPartsAgree(name, key, x);
  }

  lemma OptionChildIsKindPart(verb: Verb, key: string, x: Value)
    ensures OptionChild(verb, key, x) == KindPart(verb, OptionKindOf(key), x)
  {
    hide OptionKindOf, NestedOption, OptionRole;
  }

  /** What the check looks into is what the whitelist names as parts. */
  lemma ChildIsPart(role: Role, v: Value, i: nat, j: nat)
    ensures Child(role, v, i, j) == W.Part(role, v, i, j)
  {
    match role
    case FilterRole => FilterPartsAgree(v, i, j);
    case ConditionRole => ConditionPartsAgree(v, i, j);
    case ElementRole => ElementPartsAgree(v, i, j);
    case ExpressionRole => ExpressionPartsAgree(v, i, j);
    case OperatorRole(op) => OperatorPartsAgree(op, v, i, j);
    case UpdateRole => UpdatePartsAgree(v, i, j);
    case _ => OtherPartsAgree(role, v, i, j);
  }

  lemma OtherPartsAgree(role: Role, v: Value, i: nat, j: nat)
    requires role !in {FilterRole, ConditionRole, ElementRole, ExpressionRole, UpdateRole} && !role.OperatorRole?
    ensures Child(role, v, i, j) == W.Part(role, v, i, j)
  {
    hide StageChild, W.StagePart, OptionChild, W.OptionPart;
    if v.Document? && v.fields != [] {
      StagePartsAgree(v.fields[0].key, v.fields[0].value, i);
      if i < |v.fields| {
        OptionPartsAgree(v.fields[0].key, v.fields[i].key, v.fields[i].value);
      }
    }
  }

  // ---------------------------------------------------------------------- whole commands

  /** The position that a path of parts reaches, with the depth of all steps; None when the path leaves the command. */
  function Place(role: Role, v: Value, path: Path): Option<Node>
    decreases path
  {
    if path == [] then Some(Node(role, v, 0))
    else
      match W.Part(role, v, path[0].i, path[0].j)
      case None => None
      case Some(n) =>
        match Place(n.role, n.value, path[1..])
        case None => None
        case Some(m) => Some(Node(m.role, m.value, n.cost + m.cost))
  }

  lemma AtRoot(role: Role, v: Value)
    ensures At(role, v, []) == Some(Node(role, v, 0))
  {
  }

  lemma PlaceRoot(role: Role, v: Value)
    ensures Place(role, v, []) == Some(Node(role, v, 0))
  {
  }

  function Deeper(n: Node, below: Option<Node>): Option<Node>
  {
    match below
    case None => None
    case Some(m) => Some(Node(m.role, m.value, n.cost + m.cost))
  }

  lemma AtUnfolds(role: Role, v: Value, path: Path)
    requires path != []
    ensures var n := Child(role, v, path[0].i, path[0].j);
            At(role, v, path) == if n.None? then None else Deeper(n.value, At(n.value.role, n.value.value, path[1..]))
  {
    hide Child;
  }

  lemma PlaceUnfolds(role: Role, v: Value, path: Path)
    requires path != []
    ensures var n := W.Part(role, v, path[0].i, path[0].j);
            Place(role, v, path) ==
            if n.None? then None else Deeper(n.value, Place(n.value.role, n.value.value, path[1..]))
  {
    hide W.Part;
  }

  lemma {:induction false} AtIsPlace(role: Role, v: Value, path: Path)
    ensures At(role, v, path) == Place(role, v, path)
    decreases path
  {
    hide Child, W.Part, At, Place;
    if path == [] {
      AtRoot(role, v);
      PlaceRoot(role, v);
    } else {
      AtUnfolds(role, v, path);
      PlaceUnfolds(role, v, path);
      ChildIsPart(role, v, path[0].i, path[0].j);
      var n := Child(role, v, path[0].i, path[0].j);
      if n.Some? {
        AtIsPlace(n.value.role, n.value.value, path[1..]);
      }
    }
  }

  /** Roles whose depth counts against the limit. */
  predicate Counted(role: Role)
  {
    match role
    case FilterRole | ConditionRole | ExpressionRole | OperatorRole(_) | PipelineRole(_) | MetadataRole(_) => true
    case _ => false
  }

  /** Every place of the command, at any nesting, keeps its rule and lies no deeper than 64. */
  ghost predicate Whitelisted(doc: Doc)
  {
    forall path: Path :: Place(CommandRole, Document(doc), path).Some? ==>
      var n := Place(CommandRole, Document(doc), path).value;
      W.Rule(n.role, n.value) && (Counted(n.role) ==> n.cost <= 64)
  }

  /** The policy accepts exactly the commands of which every place is whitelisted, word for word. */
  lemma CommandAcceptedIffWhitelisted(doc: Doc)
    ensures CommandOK(doc) <==> Whitelisted(doc)
  {
    hide CommandOK, At, Place, W.Rule, Local;
    CommandAcceptedIffEverywhere(doc);
    forall path: Path
      ensures At(CommandRole, Document(doc), path) == Place(CommandRole, Document(doc), path)
    {
      AtIsPlace(CommandRole, Document(doc), path);
    }
    forall n: Node ensures NodeOK(n, 0) <==> W.Rule(n.role, n.value) && (Counted(n.role) ==> n.cost <= 64) {
      LocalIsRule(n.role, n.value);
    }
  }
}
