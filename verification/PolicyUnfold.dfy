/** The recursive check of each role is its local rule plus the check of its children. */
module PolicyUnfold {
  import opened Values
  import opened PolicyTables
  import opened Policy
  import opened Positions

  ghost predicate ChildrenAccepted(role: Role, v: Value, depth: nat)
  {
    forall i: nat, j: nat :: Child(role, v, i, j).Some? ==>
      var n := Child(role, v, i, j).value;
      Accepts(n.role, n.value, depth + n.cost)
  }

  ghost predicate OneStep(role: Role, v: Value, depth: nat)
  {
    Local(role, v) && (Bounded(role) ==> depth <= MAX_DEPTH) && ChildrenAccepted(role, v, depth)
  }

  lemma UnfoldFilter(v: Value, depth: nat)
    ensures Match(v, depth) <==> OneStep(FilterRole, v, depth)
  {
    hide FilterKeyOf, ConditionKeyOf, Condition, Expression, MatchArray;
    if OneStep(FilterRole, v, depth) {
      forall i | 0 <= i < |v.fields| ensures FilterField(v.fields[i].key, v.fields[i].value, depth) {
        assert Child(FilterRole, v, i, 0).Some?;
      }
    }
  }

  lemma UnfoldFilterList(v: Value, depth: nat)
    ensures MatchArray(v, depth) <==> OneStep(FilterListRole, v, depth)
  {
    hide Match;
    if OneStep(FilterListRole, v, depth) {
      forall i | 0 <= i < |v.items| ensures Match(v.items[i], depth + 1) {
        assert Child(FilterListRole, v, i, 0).Some?;
      }
    }
  }

  ghost predicate TestChildrenAccepted(key: string, x: Value, depth: nat)
  {
    forall j: nat :: ConditionChild(key, x, j).Some? ==>
      var n := ConditionChild(key, x, j).value;
      Accepts(n.role, n.value, depth + n.cost)
  }

  lemma UnfoldTest(d: Doc, i: nat, depth: nat)
    requires i < |d|
    ensures ConditionTest(d, i, depth) <==>
            TestShape(d, i) && TestChildrenAccepted(d[i].key, d[i].value, depth)
  {
    hide ConditionKeyOf, ElementMatch, PlainTest, Condition, FormOf, StageOf, OptionKindOf, SlotOf, FilterKeyOf,
         ModifierOf, CommandHead, Stage, Operator;
    var x := d[i].value;
    if TestShape(d, i) && TestChildrenAccepted(d[i].key, x, depth) {
      if ConditionKeyOf(d[i].key) == AllTest {
        forall j | 0 <= j < |x.items| ensures AllItem(x.items[j], depth) {
          if x.items[j].Document? && HasOperators(x.items[j].fields) {
            assert ConditionChild(d[i].key, x, j).Some?;
          }
        }
      } else {
        assert ConditionChild(d[i].key, x, 0).Some? || ConditionChild(d[i].key, x, 0).None?;
      }
    }
    if ConditionTest(d, i, depth) {
      forall j: nat | ConditionChild(d[i].key, x, j).Some?
        ensures var n := ConditionChild(d[i].key, x, j).value; Accepts(n.role, n.value, depth + n.cost)
      {
        if ConditionKeyOf(d[i].key) == AllTest {
          assert AllItem(x.items[j], depth);
          assert Dollar(x.items[j].fields[0].key);
        }
      }
      if ConditionKeyOf(d[i].key) == AllTest {
        forall k | 0 <= k < |x.items| && x.items[k].Document? && HasOperators(x.items[k].fields)
          ensures SingleField(x.items[k], "$elemMatch")
        {
          assert AllItem(x.items[k], depth);
        }
      }
    }
  }

  lemma UnfoldCondition(v: Value, depth: nat)
    ensures Condition(v, depth) <==> OneStep(ConditionRole, v, depth)
  {
    hide ConditionKeyOf, ElementMatch, ConditionChild, ConditionTest, TestShape, FormOf, StageOf, OptionKindOf,
         SlotOf, FilterKeyOf, ModifierOf, CommandHead, Stage, Operator, Expression, Match, MetadataFilter, Accepts;
    if v.Document? && HasOperators(v.fields) {
      forall i | 0 <= i < |v.fields|
        ensures ConditionTest(v.fields, i, depth) <==>
                TestShape(v.fields, i) && TestChildrenAccepted(v.fields[i].key, v.fields[i].value, depth)
      {
        UnfoldTest(v.fields, i, depth);
      }
      if ChildrenAccepted(ConditionRole, v, depth) {
        forall i | 0 <= i < |v.fields|
          ensures TestChildrenAccepted(v.fields[i].key, v.fields[i].value, depth)
        {
          forall j: nat | ConditionChild(v.fields[i].key, v.fields[i].value, j).Some?
            ensures var n := ConditionChild(v.fields[i].key, v.fields[i].value, j).value;
                    Accepts(n.role, n.value, depth + n.cost)
          {
            assert Child(ConditionRole, v, i, j) == ConditionChild(v.fields[i].key, v.fields[i].value, j);
          }
        }
      }
    }
  }

  lemma UnfoldElement(v: Value, depth: nat)
    ensures ElementMatch(v, depth) <==> OneStep(ElementRole, v, depth)
  {
    hide Match, Condition, FilterKeyOf, FormOf, StageOf, OptionKindOf, ElementCondition;
    if v.Document? {
      assert Child(ElementRole, v, 0, 0).Some?;
    }
  }

  lemma UnfoldExpressionArray(v: Value, depth: nat)
    requires v.Array?
    ensures ChildrenAccepted(ExpressionRole, v, depth) <==>
            forall i :: 0 <= i < |v.items| ==> Expression(v.items[i], depth + 1)
  {
    hide FormOf, StageOf, OptionKindOf, Operator, FilterKeyOf, Match, Stage, Expression;
    forall i | 0 <= i < |v.items|
      ensures Child(ExpressionRole, v, i, 0) == Some(Node(ExpressionRole, v.items[i], 1))
    {
    }
  }

  lemma UnfoldExpressionDocument(v: Value, depth: nat)
    requires v.Document?
    ensures ChildrenAccepted(ExpressionRole, v, depth) <==>
            if |v.fields| == 1 && Dollar(v.fields[0].key) then
              v.fields[0].key == "$literal" || Operator(v.fields[0].key, v.fields[0].value, depth + 1)
            else forall i :: 0 <= i < |v.fields| ==> Expression(v.fields[i].value, depth + 1)
  {
    hide FormOf, StageOf, OptionKindOf, Operator, FilterKeyOf, Match, Stage, Expression;
    if |v.fields| == 1 && Dollar(v.fields[0].key) {
      assert v.fields[0].key != "$literal" ==>
        Child(ExpressionRole, v, 0, 0) == Some(Node(OperatorRole(v.fields[0].key), v.fields[0].value, 1));
    } else {
      forall i | 0 <= i < |v.fields|
        ensures Child(ExpressionRole, v, i, 0) == Some(Node(ExpressionRole, v.fields[i].value, 1))
      {
      }
    }
  }

  lemma UnfoldExpression(v: Value, depth: nat)
    ensures Expression(v, depth) <==> OneStep(ExpressionRole, v, depth)
  {
    hide FormOf, StageOf, OptionKindOf, Operator, FilterKeyOf, Match, Stage, ChildrenAccepted, SystemVariable,
         ExpressionText, ExpressionScalar;
    if v.Array? {
      UnfoldExpressionArray(v, depth);
    } else if v.Document? {
      UnfoldExpressionDocument(v, depth);
    } else {
      assert forall i: nat, j: nat :: Child(ExpressionRole, v, i, j).None?;
      UnfoldChildless(ExpressionRole, v, depth);
    }
  }

  lemma UnfoldChildless(role: Role, v: Value, depth: nat)
    requires forall i: nat, j: nat :: Child(role, v, i, j).None?
    ensures ChildrenAccepted(role, v, depth)
  {
    hide FormOf, StageOf, OptionKindOf, FilterKeyOf, Child;
  }

  lemma UnfoldArgument(op: string, key: string, x: Value, depth: nat)
    ensures NamedArgument(op, key, x, depth) <==>
            SlotShape(op, key, x) &&
            match SlotOf(op, key)
            case VariableBindings => Bindings(x, depth + 1)
            case SwitchBranches => forall j :: 0 <= j < |x.items| ==> Expression(x.items[j], depth + 1)
            case Evaluated => Expression(x, depth + 1)
            case _ => true
  {
    hide SlotOf, Expression, Bindings, SortOrder, FormOf, StageOf, Branch;
  }

  lemma UnfoldNamed(op: string, v: Value, depth: nat)
    requires RuleOf(op, v).Named? && v.Document?
    ensures (forall i :: 0 <= i < |v.fields| ==> NamedArgument(op, v.fields[i].key, v.fields[i].value, depth)) <==>
            (forall i :: 0 <= i < |v.fields| ==> SlotShape(op, v.fields[i].key, v.fields[i].value)) &&
            ChildrenAccepted(OperatorRole(op), v, depth)
  {
    hide SlotOf, Expression, Bindings, NamedArgument, FormOf, StageOf, RuleOf, OptionKindOf, FilterKeyOf,
         ConditionKeyOf, Match, Stage;
    forall i | 0 <= i < |v.fields|
      ensures NamedArgument(op, v.fields[i].key, v.fields[i].value, depth) <==>
              SlotShape(op, v.fields[i].key, v.fields[i].value) &&
              match SlotOf(op, v.fields[i].key)
              case VariableBindings => Bindings(v.fields[i].value, depth + 1)
              case SwitchBranches =>
                forall j :: 0 <= j < |v.fields[i].value.items| ==> Expression(v.fields[i].value.items[j], depth + 1)
              case Evaluated => Expression(v.fields[i].value, depth + 1)
              case _ => true
    {
      UnfoldArgument(op, v.fields[i].key, v.fields[i].value, depth);
    }
    if ChildrenAccepted(OperatorRole(op), v, depth) &&
       (forall i :: 0 <= i < |v.fields| ==> SlotShape(op, v.fields[i].key, v.fields[i].value)) {
      forall i | 0 <= i < |v.fields| ensures NamedArgument(op, v.fields[i].key, v.fields[i].value, depth) {
        if SlotOf(op, v.fields[i].key) == SwitchBranches {
          forall j | 0 <= j < |v.fields[i].value.items| ensures Expression(v.fields[i].value.items[j], depth + 1) {
            assert Child(OperatorRole(op), v, i, j).Some?;
          }
        } else if SlotOf(op, v.fields[i].key) in {VariableBindings, Evaluated} {
          assert Child(OperatorRole(op), v, i, 0).Some?;
        }
      }
    }
  }

  lemma UnfoldSingleArgument(op: string, v: Value, depth: nat)
    requires !RuleOf(op, v).Named? && !RuleOf(op, v).EmptyDocument?
    ensures ChildrenAccepted(OperatorRole(op), v, depth) <==> Expression(v, depth + 1)
  {
    hide FormOf, StageOf, OptionKindOf, FilterKeyOf, Match, Stage, Expression, RuleOf, Operator;
    assert Child(OperatorRole(op), v, 0, 0) == Some(Node(ExpressionRole, v, 1));
  }

  lemma UnfoldOperator(op: string, v: Value, depth: nat)
    ensures Operator(op, v, depth) <==> OneStep(OperatorRole(op), v, depth)
  {
    hide SlotOf, Expression, FormOf, StageOf, OptionKindOf, FilterKeyOf, Match, Stage, NamedArgument, SlotShape,
         RuleOf, ChildrenAccepted, Fields, Present;
    match RuleOf(op, v)
    case Named(_, _) =>
      if v.Document? {
        UnfoldNamed(op, v, depth);
      }
    case EmptyDocument =>
      assert forall i: nat, j: nat :: Child(OperatorRole(op), v, i, j).None?;
      UnfoldChildless(OperatorRole(op), v, depth);
    case _ =>
      UnfoldSingleArgument(op, v, depth);
  }

  lemma UnfoldBindings(v: Value, depth: nat)
    ensures Bindings(v, depth) <==> OneStep(BindingsRole, v, depth)
  {
    hide Expression, FormOf, StageOf, OptionKindOf, VariableIdentifier, FieldDoc, Match, Stage;
    if OneStep(BindingsRole, v, depth) {
      AreDocuments(v);
      forall i | 0 <= i < |v.fields| ensures Expression(v.fields[i].value, depth + 1) {
        assert Child(BindingsRole, v, i, 0).Some?;
      }
    }
  }

  lemma AreDocuments(v: Value)
    ensures FieldDoc(v) || GroupFields(v) || LookupFields(v) || UnionFields(v) ==> v.Document?
  {
  }

  lemma UnfoldProjection(v: Value, depth: nat, find: bool)
    ensures Projection(v, depth, find) <==> OneStep(ProjectionRole(find), v, depth)
  {
    hide Expression, FormOf, StageOf, OptionKindOf, ElementMatch, Match, Stage, SliceBounds, ConditionKeyOf;
    if OneStep(ProjectionRole(find), v, depth) {
      forall i | 0 <= i < |v.fields|
        ensures var x := v.fields[i].value;
                if find && SingleField(x, "$elemMatch") then ElementMatch(x.fields[0].value, depth + 1)
                else if find && SingleField(x, "$slice") then SliceBounds(x.fields[0].value)
                else Expression(x, depth + 1)
      {
        assert Child(ProjectionRole(find), v, i, 0) == ProjectionChild(find, v.fields[i].value);
      }
    }
  }

  lemma UnfoldPipeline(v: Value, depth: nat, update: bool)
    ensures Pipeline(v, depth, update) <==> OneStep(PipelineRole(update), v, depth)
  {
    hide Stage, FormOf, StageOf, OptionKindOf, Match, Expression, FilterKeyOf;
    if OneStep(PipelineRole(update), v, depth) {
      forall i | 0 <= i < |v.items| ensures Stage(v.items[i], depth, update) {
        assert Child(PipelineRole(update), v, i, 0).Some?;
      }
    }
  }

  ghost predicate StageChildrenAccepted(key: string, x: Value, depth: nat)
  {
    forall i: nat :: StageChild(key, x, i).Some? ==>
      var n := StageChild(key, x, i).value;
      Accepts(n.role, n.value, depth + n.cost)
  }

  lemma UnfoldStageArgument(v: Value, depth: nat, update: bool)
    requires v.Document? && |v.fields| == 1
    ensures Stage(v, depth, update) <==>
            StageShape(update, v) && StageChildrenAccepted(v.fields[0].key, v.fields[0].value, depth)
  {
    hide FormOf, StageOf, OptionKindOf, Match, Expression, FilterKeyOf, Projection, Pipeline, Bindings, UpdateStage,
         GroupFields, SortSpec, UnsetSpec, UnwindSpec, LookupFields, UnionFields, FieldDoc, CollectionName,
         InRange, FieldName, ConditionKeyOf, SlotOf, Operator;
    var key, x := v.fields[0].key, v.fields[0].value;
    AreDocuments(x);
    if StageShape(update, v) && StageChildrenAccepted(key, x, depth) {
      match StageOf(key)
      case LookupStage =>
        forall i | 0 <= i < |x.fields|
          ensures x.fields[i].key == "pipeline" ==> Pipeline(x.fields[i].value, depth + 1, false)
          ensures x.fields[i].key == "let" ==> Bindings(x.fields[i].value, depth + 1)
        {
          var n := StageChild(key, x, i);
        }
      case UnionStage =>
        if x.Document? {
          forall i | 0 <= i < |x.fields| && x.fields[i].key == "pipeline"
            ensures Pipeline(x.fields[i].value, depth + 1, false)
          {
            assert StageChild(key, x, i).Some?;
          }
        }
      case GroupStage =>
        forall i | 0 <= i < |x.fields| ensures Expression(x.fields[i].value, depth + 1) {
          assert StageChild(key, x, i).Some?;
        }
      case FacetStage =>
        forall i | 0 <= i < |x.fields| ensures Pipeline(x.fields[i].value, depth + 1, false) {
          assert StageChild(key, x, i).Some?;
        }
      case MatchStage | ProjectStage | ExpressionStage | ReplaceRootStage =>
        assert StageChild(key, x, 0).Some?;
      case _ =>
    }
  }

  lemma UnfoldStage(v: Value, depth: nat, update: bool)
    ensures Stage(v, depth, update) <==> OneStep(StageRole(update), v, depth)
  {
    hide FormOf, StageOf, OptionKindOf, Match, Expression, FilterKeyOf, StageChild, StageShape, Accepts, Stage;
    StageIsSingle(v, depth, update);
    if v.Document? && |v.fields| == 1 {
      UnfoldStageArgument(v, depth, update);
      forall i: nat
        ensures Child(StageRole(update), v, i, 0) == StageChild(v.fields[0].key, v.fields[0].value, i)
      {
      }
    }
  }

  lemma StageIsSingle(v: Value, depth: nat, update: bool)
    ensures Stage(v, depth, update) || StageShape(update, v) ==> v.Document? && |v.fields| == 1
  {
  }

  lemma UnfoldUpdate(v: Value, depth: nat)
    ensures UpdateSpec(v, depth) <==> OneStep(UpdateRole, v, depth)
  {
    hide FormOf, StageOf, OptionKindOf, Match, Expression, FilterKeyOf, Pipeline, FieldDoc, ElementMatch,
         ModifierOf, PlainModification, ConditionKeyOf, SlotOf, Stage;
    if v.Array? {
      assert Child(UpdateRole, v, 0, 0).Some?;
    } else if v.Document? && HasOperators(v.fields) {
      forall i | 0 <= i < |v.fields| ensures FieldDoc(v.fields[i].value) ==> v.fields[i].value.Document? {
        AreDocuments(v.fields[i].value);
      }
      if ChildrenAccepted(UpdateRole, v, depth) && UpdateShape(v) {
        forall i, j | 0 <= i < |v.fields| && 0 <= j < |v.fields[i].value.fields|
          ensures Modification(ModifierOf(v.fields[i].key), v.fields[i].value.fields[j].value, depth)
        {
          assert ModifierOf(v.fields[i].key) == PullModifier && v.fields[i].value.fields[j].value.Document? ==>
            Child(UpdateRole, v, i, j).Some?;
        }
      }
    }
  }

  lemma UnfoldWrite(v: Value, update: bool)
    ensures Write(v, update) <==> OneStep(WriteRole(update), v, 0)
  {
    hide FormOf, StageOf, OptionKindOf, Match, Expression, FilterKeyOf, UpdateSpec, MatchArray, Hint, InRange,
         ConditionKeyOf, SlotOf, Stage, WriteFields, Condition, ElementMatch, Operator, Projection, Bindings,
         Pipeline, CommandOK, MetadataFilter;
    if v.Document? && UniqueKeys(v.fields) {
      forall i | 0 <= i < |v.fields| ensures Get(v.fields, v.fields[i].key) == v.fields[i].value {
        GetAt(v.fields, i);
      }
      NullRejected();
      DeleteFields();
      if !Present(v.fields, "q") { GetAbsent(v.fields, "q"); }
      if !Present(v.fields, "u") { GetAbsent(v.fields, "u"); }
      if ChildrenAccepted(WriteRole(update), v, 0) {
        forall i | 0 <= i < |v.fields|
          ensures WriteChild(update, v.fields[i].key, v.fields[i].value).Some? ==>
            var n := WriteChild(update, v.fields[i].key, v.fields[i].value).value; Accepts(n.role, n.value, 0)
        {
          assert Child(WriteRole(update), v, i, 0) == WriteChild(update, v.fields[i].key, v.fields[i].value);
        }
      }
    }
  }

  lemma DeleteFields()
    ensures "u" !in WriteFields(false) && "arrayFilters" !in WriteFields(false)
  {
  }

  lemma NullRejected()
    ensures !Match(Null, 0) && !UpdateSpec(Null, 0)
  {
  }

  lemma UnfoldWrites(v: Value, update: bool)
    ensures Writes(v, update) <==> OneStep(WriteListRole(update), v, 0)
  {
    hide Write, FormOf, StageOf, OptionKindOf, Match, Expression, FilterKeyOf, Stage;
    if OneStep(WriteListRole(update), v, 0) {
      forall i | 0 <= i < |v.items| ensures Write(v.items[i], update) {
        assert Child(WriteListRole(update), v, i, 0).Some?;
      }
    }
  }

  lemma UnfoldMetadata(v: Value, collections: bool, depth: nat)
    ensures MetadataFilter(v, collections, depth) <==> OneStep(MetadataRole(collections), v, depth)
  {
    hide FormOf, StageOf, OptionKindOf, Match, Expression, FilterKeyOf, Stage, NamePredicate, NameOperand,
         MetadataFields, MetadataLogical;
    if OneStep(MetadataRole(collections), v, depth) {
      forall i, j | 0 <= i < |v.fields| && MetadataLogical(v.fields[i].key) && v.fields[i].value.Array?
                    && 0 <= j < |v.fields[i].value.items|
        ensures MetadataFilter(v.fields[i].value.items[j], collections, depth + 1)
      {
        assert Child(MetadataRole(collections), v, i, j).Some?;
      }
    }
  }

  /** What acceptance is, for the roles that the options of a command give. */
  lemma AcceptsOptionRoles(x: Value)
    ensures Accepts(FilterRole, x, 0) == Match(x, 0) && Accepts(FilterListRole, x, 0) == MatchArray(x, 0)
    ensures Accepts(MetadataRole(true), x, 0) == MetadataFilter(x, true, 0)
    ensures Accepts(MetadataRole(false), x, 0) == MetadataFilter(x, false, 0)
    ensures Accepts(ProjectionRole(true), x, 0) == Projection(x, 0, true)
    ensures Accepts(BindingsRole, x, 0) == Bindings(x, 0)
    ensures Accepts(PipelineRole(false), x, 0) == Pipeline(x, 0, false)
    ensures Accepts(UpdateRole, x, 0) == UpdateSpec(x, 0)
    ensures Accepts(WriteListRole(true), x, 0) == Writes(x, true)
    ensures Accepts(WriteListRole(false), x, 0) == Writes(x, false)
  {
    hide FormOf, StageOf, Match, Expression, FilterKeyOf, Stage, MetadataFilter, Projection, Bindings, Pipeline, Writes,
         UpdateSpec, MatchArray, Condition, ElementMatch, Operator, Write, CommandOK;
  }

  lemma UnfoldNestedOption(verb: Verb, kind: OptionKind, x: Value)
    ensures NestedCheck(verb, kind, x) <==> Accepts(OptionRole(verb, kind), x, 0)
  {
    hide Match, MetadataFilter, Projection, Bindings, Pipeline, Writes, UpdateSpec, MatchArray, Accepts, MetadataVerb;
    AcceptsOptionRoles(x);
  }

  lemma UnfoldOption(verb: Verb, key: string, x: Value)
    ensures CommandOption(verb, key, x) <==>
            OptionShape(key, x) &&
            (OptionChild(verb, key, x).Some? ==>
               var n := OptionChild(verb, key, x).value; Accepts(n.role, n.value, 0))
  {
    hide OptionKindOf, NestedOption, NestedCheck, PlainOption, OptionRole, Accepts;
    UnfoldNestedOption(verb, OptionKindOf(key), x);
  }

  lemma UnfoldCommand(v: Value)
    ensures v.Document? && CommandOK(v.fields) <==> OneStep(CommandRole, v, 0)
  {
    hide FormOf, StageOf, OptionKindOf, Match, Expression, FilterKeyOf, Stage, CommandHead, CommandOption,
         OptionShape, OptionChild, ConditionKeyOf, SlotOf, ModifierOf, VerbOf;
    HeadIsNotEmpty(v);
    if v.Document? && CommandHead(v.fields) {
      forall i | 1 <= i < |v.fields|
        ensures Child(CommandRole, v, i, 0) == OptionChild(VerbOf(v.fields[0].key), v.fields[i].key, v.fields[i].value)
        ensures CommandOption(VerbOf(v.fields[0].key), v.fields[i].key, v.fields[i].value) <==>
                OptionShape(v.fields[i].key, v.fields[i].value) &&
                (Child(CommandRole, v, i, 0).Some? ==>
                   var n := Child(CommandRole, v, i, 0).value; Accepts(n.role, n.value, 0))
      {
        UnfoldOption(VerbOf(v.fields[0].key), v.fields[i].key, v.fields[i].value);
      }
      forall i: nat, j: nat | Child(CommandRole, v, i, j).Some? ensures 1 <= i < |v.fields| && j == 0 {}
      CostsNothing(v);
    }
  }

  lemma HeadIsNotEmpty(v: Value)
    ensures v.Document? && CommandHead(v.fields) ==> |v.fields| >= 2
  {
  }

  lemma CostsNothing(v: Value)
    ensures forall i: nat, j: nat :: Child(CommandRole, v, i, j).Some? ==> Child(CommandRole, v, i, j).value.cost == 0
  {
    hide FormOf, StageOf, OptionKindOf, FilterKeyOf, VerbOf;
  }

  /** Accepting a value is its local rule, the depth limit, and accepting its children. */
  lemma Unfold(role: Role, v: Value, depth: nat)
    ensures Accepts(role, v, depth) <==>
            OneStep(role, v, depth) && (role.CommandRole? || role.WriteRole? || role.WriteListRole? ==> depth == 0)
  {
    hide FormOf, StageOf, OptionKindOf, Match, Expression, FilterKeyOf, Stage, CommandHead, OneStep, Operator,
         MatchArray, Condition, ElementMatch, Bindings, Projection, Pipeline, UpdateSpec, Writes, Write,
         MetadataFilter, CommandOK;
    match role
    case FilterRole => UnfoldFilter(v, depth);
    case FilterListRole => UnfoldFilterList(v, depth);
    case ConditionRole => UnfoldCondition(v, depth);
    case ElementRole => UnfoldElement(v, depth);
    case ExpressionRole => UnfoldExpression(v, depth);
    case OperatorRole(op) => UnfoldOperator(op, v, depth);
    case BindingsRole => UnfoldBindings(v, depth);
    case ProjectionRole(find) => UnfoldProjection(v, depth, find);
    case PipelineRole(update) => UnfoldPipeline(v, depth, update);
    case StageRole(update) => UnfoldStage(v, depth, update);
    case UpdateRole => UnfoldUpdate(v, depth);
    case WriteListRole(update) => if depth == 0 { UnfoldWrites(v, update); }
    case WriteRole(update) => if depth == 0 { UnfoldWrite(v, update); }
    case MetadataRole(collections) => UnfoldMetadata(v, collections, depth);
    case CommandRole => if depth == 0 { UnfoldCommand(v); }
  }
}
