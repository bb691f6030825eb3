/**
 * The positions of a command that the server evaluates, and what the policy guarantees there.
 *
 * `Child` says which values inside a value are evaluated and as what, `Local` what the whitelist asks of
 * one position by itself. Neither mentions the recursive checks of module Policy.
 */
module Positions {
  import opened Values
  import opened PolicyTables
  import opened Policy

  datatype Role =
    | FilterRole | FilterListRole | ConditionRole | ElementRole
    | ExpressionRole | OperatorRole(op: string) | BindingsRole
    | ProjectionRole(find: bool) | PipelineRole(update: bool) | StageRole(update: bool)
    | UpdateRole | WriteListRole(update: bool) | WriteRole(update: bool)
    | MetadataRole(collections: bool) | CommandRole

  /** A value in a role, with the depth it adds to that of the position above it. */
  datatype Node = Node(role: Role, value: Value, cost: nat)

  /** The roles whose check counts depth against the limit. */
  predicate Bounded(role: Role)
  {
    role.FilterRole? || role.ConditionRole? || role.ExpressionRole? || role.OperatorRole? ||
    role.PipelineRole? || role.MetadataRole?
  }

  /** Orders roles that pass the same value on. */
  function Rank(role: Role): nat
  {
    match role
    case FilterRole | ConditionRole | ExpressionRole | PipelineRole(_) | MetadataRole(_) => 0
    case _ => 1
  }

  // ------------------------------------------------------- evaluated sub-values

  function FieldChild(v: Value, i: nat, role: Role, cost: nat): Option<Node>
  {
    if v.Document? && i < |v.fields| then Some(Node(role, v.fields[i].value, cost)) else None
  }

  function ItemChild(v: Value, j: nat, role: Role, cost: nat): Option<Node>
  {
    if v.Array? && j < |v.items| then Some(Node(role, v.items[j], cost)) else None
  }

  function FilterChild(key: string, x: Value): Node
  {
    match FilterKeyOf(key)
    case Logical => Node(FilterListRole, x, 1)
    case ExprKey => Node(ExpressionRole, x, 1)
    case PathKey => Node(ConditionRole, x, 1)
  }

  function ConditionChild(key: string, x: Value, j: nat): Option<Node>
  {
    match ConditionKeyOf(key)
    case Negation => if x.Document? && j == 0 then Some(Node(ConditionRole, x, 1)) else None
    case ElementTest => if j == 0 then Some(Node(ElementRole, x, 1)) else None
    case AllTest =>
      if x.Array? && j < |x.items| && SingleField(x.items[j], "$elemMatch") then
        Some(Node(ElementRole, x.items[j].fields[0].value, 1))
      else None
    case _ => None
  }

  function OperatorChild(op: string, v: Value, i: nat, j: nat): Option<Node>
  {
    match RuleOf(op, v)
    case Named(_, _) =>
      if !v.Document? || i >= |v.fields| then None
      else
        var x := v.fields[i].value;
        (match SlotOf(op, v.fields[i].key)
         case VariableBindings => if j == 0 then Some(Node(BindingsRole, x, 1)) else None
         case SwitchBranches => ItemChild(x, j, ExpressionRole, 1)
         case Evaluated => if j == 0 then Some(Node(ExpressionRole, x, 1)) else None
         case _ => None)
    case EmptyDocument => None
    case _ => if i == 0 && j == 0 then Some(Node(ExpressionRole, v, 1)) else None
  }

  function ProjectionChild(find: bool, x: Value): Option<Node>
  {
    if find && SingleField(x, "$elemMatch") then Some(Node(ElementRole, x.fields[0].value, 1))
    else if find && SingleField(x, "$slice") then None
    else Some(Node(ExpressionRole, x, 1))
  }

  /** The evaluated parts of the argument of a stage. */
  function StageChild(key: string, x: Value, i: nat): Option<Node>
  {
    match StageOf(key)
    case MatchStage => if i == 0 then Some(Node(FilterRole, x, 1)) else None
    case ProjectStage => if i == 0 then Some(Node(ProjectionRole(false), x, 1)) else None
    case GroupStage => FieldChild(x, i, ExpressionRole, 1)
    case LookupStage =>
      if !x.Document? || i >= |x.fields| then None
      else if x.fields[i].key == "pipeline" then Some(Node(PipelineRole(false), x.fields[i].value, 1))
      else if x.fields[i].key == "let" then Some(Node(BindingsRole, x.fields[i].value, 1))
      else None
    case UnionStage =>
      if x.Document? && i < |x.fields| && x.fields[i].key == "pipeline" then
        Some(Node(PipelineRole(false), x.fields[i].value, 1))
      else None
    case FacetStage => FieldChild(x, i, PipelineRole(false), 1)
    case ReplaceRootStage => FieldChild(x, i, ExpressionRole, 1)
    case ExpressionStage => if i == 0 then Some(Node(ExpressionRole, x, 1)) else None
    case _ => None
  }

  function WriteChild(update: bool, key: string, x: Value): Option<Node>
  {
    if key == "q" then Some(Node(FilterRole, x, 0))
    else if update && key == "u" then Some(Node(UpdateRole, x, 0))
    else if update && key == "arrayFilters" then Some(Node(FilterListRole, x, 0))
    else None
  }

  function OptionRole(verb: Verb, kind: OptionKind): Role
  {
    if kind == FilterOption then
      if MetadataVerb(verb) then MetadataRole(verb == ListCollections) else FilterRole
    else if kind == ProjectionOption then ProjectionRole(true)
    else if kind == LetOption then BindingsRole
    else if kind == PipelineOption then PipelineRole(false)
    else if kind == UpdatesOption then WriteListRole(true)
    else if kind == DeletesOption then WriteListRole(false)
    else if kind == UpdateOption then UpdateRole
    else FilterListRole
  }

  function OptionChild(verb: Verb, key: string, x: Value): Option<Node>
  {
    if NestedOption(OptionKindOf(key)) then Some(Node(OptionRole(verb, OptionKindOf(key)), x, 0)) else None
  }

  /** The evaluated value at index i (and j inside it), when there is one. */
  function Child(role: Role, v: Value, i: nat, j: nat): (r: Option<Node>)
  {
    match role
    case FilterRole =>
      if v.Document? && i < |v.fields| && j == 0 then Some(FilterChild(v.fields[i].key, v.fields[i].value)) else None
    case FilterListRole => if j == 0 then ItemChild(v, i, FilterRole, 1) else None
    case ConditionRole =>
      if v.Document? && HasOperators(v.fields) && i < |v.fields| then
        ConditionChild(v.fields[i].key, v.fields[i].value, j)
      else None
    case ElementRole =>
      if v.Document? && i == 0 && j == 0 then
        Some(Node(if ElementCondition(v.fields) then ConditionRole else FilterRole, v, 1))
      else None
    case ExpressionRole =>
      if j != 0 then None
      else if v.Array? then ItemChild(v, i, ExpressionRole, 1)
      else if v.Document? && |v.fields| == 1 && Dollar(v.fields[0].key) then
        if v.fields[0].key == "$literal" then None
        else FieldChild(v, i, OperatorRole(v.fields[0].key), 1)
      else FieldChild(v, i, ExpressionRole, 1)
    case OperatorRole(op) => OperatorChild(op, v, i, j)
    case BindingsRole => if j == 0 then FieldChild(v, i, ExpressionRole, 1) else None
    case ProjectionRole(find) =>
      if v.Document? && i < |v.fields| && j == 0 then ProjectionChild(find, v.fields[i].value) else None
    case PipelineRole(update) => if j == 0 then ItemChild(v, i, StageRole(update), 0) else None
    case StageRole(_) =>
      if v.Document? && |v.fields| == 1 && j == 0 then StageChild(v.fields[0].key, v.fields[0].value, i) else None
    case UpdateRole =>
      if v.Array? then if i == 0 && j == 0 then Some(Node(PipelineRole(true), v, 1)) else None
      else if v.Document? && HasOperators(v.fields) && i < |v.fields|
        && ModifierOf(v.fields[i].key) == PullModifier && v.fields[i].value.Document?
        && j < |v.fields[i].value.fields| && v.fields[i].value.fields[j].value.Document? then
        Some(Node(ElementRole, v.fields[i].value.fields[j].value, 1))
      else None
    case WriteListRole(update) => if j == 0 then ItemChild(v, i, WriteRole(update), 0) else None
    case WriteRole(update) =>
      if v.Document? && i < |v.fields| && j == 0 then WriteChild(update, v.fields[i].key, v.fields[i].value)
      else None
    case MetadataRole(collections) =>
      if v.Document? && i < |v.fields| && MetadataLogical(v.fields[i].key) then
        ItemChild(v.fields[i].value, j, MetadataRole(collections), 1)
      else None
    case CommandRole =>
      if v.Document? && 0 < i < |v.fields| && j == 0 then
        OptionChild(VerbOf(v.fields[0].key), v.fields[i].key, v.fields[i].value)
      else None
  }

  /** Evaluation descends: a child is a part of its parent, or the same value in a lower role. */
  lemma ChildIsSmaller(role: Role, v: Value, i: nat, j: nat)
    requires Child(role, v, i, j).Some?
    ensures var n := Child(role, v, i, j).value;
            n.value < v || (n.value == v && Rank(n.role) < Rank(role))
  {
    hide FormOf, FilterKeyOf, ConditionKeyOf, StageOf, SlotOf, OptionKindOf, VerbOf, ModifierOf;
  }

  // --------------------------------------------------------- the rules, one by one

  predicate FilterKeysOK(v: Value)
  {
    v.Document? && UniqueKeys(v.fields) &&
    forall i :: 0 <= i < |v.fields| ==> FilterKeyOf(v.fields[i].key) == PathKey ==> PlainName(v.fields[i].key)
  }

  /** A `$`-test is known, and its operand has the declared type. */
  predicate TestShape(d: Doc, i: nat)
    requires i < |d|
  {
    var x := d[i].value;
    match ConditionKeyOf(d[i].key)
    case Negation => x.Regex? || (x.Document? && |x.fields| > 0 && Dollar(x.fields[0].key))
    case ElementTest => true
    case AllTest =>
      && x.Array?
      && forall k :: 0 <= k < |x.items| ==>
        x.items[k].Document? && HasOperators(x.items[k].fields) ==> SingleField(x.items[k], "$elemMatch")
    case _ => PlainTest(d, i)
  }

  /** The operator is whitelisted, with its declared arity and its required fields. */
  predicate OperatorShape(op: string, v: Value)
  {
    match RuleOf(op, v)
    case AnyArgument => true
    case OneArgument => v.Array? ==> |v.items| == 1
    case Arguments(min, max) => v.Array? && min <= |v.items| <= max
    case Named(fields, required) =>
      && v.Document? && Fields(v.fields, fields)
      && (forall i :: 0 <= i < |required| ==> Present(v.fields, required[i]))
      && forall i :: 0 <= i < |v.fields| ==> SlotShape(op, v.fields[i].key, v.fields[i].value)
    case EmptyDocument => v == Document([])
    case _ => false
  }

  predicate SlotShape(op: string, key: string, x: Value)
  {
    match SlotOf(op, key)
    case VariableName => x.String? && VariableIdentifier(x.text)
    case SwitchBranches => x.Array? && |x.items| > 0 && forall j :: 0 <= j < |x.items| ==> Branch(x.items[j])
    case SortSlot => SortOrder(x)
    case FlagSlot => x.Bool?
    case MethodSlot => x == String("approximate")
    case _ => true
  }

  predicate ExpressionShape(v: Value)
  {
    match v
    case String(s) => ExpressionText(s)
    case Array(_) => true
    case Document(d) =>
      (|d| == 1 && Dollar(d[0].key)) || (UniqueKeys(d) && forall i :: 0 <= i < |d| ==> !Dollar(d[i].key))
    case _ => ExpressionScalar(v)
  }

  predicate ProjectionShape(find: bool, v: Value)
  {
    && FieldDoc(v)
    && forall i :: 0 <= i < |v.fields| ==>
      find && SingleField(v.fields[i].value, "$slice") && !SingleField(v.fields[i].value, "$elemMatch") ==>
        SliceBounds(v.fields[i].value.fields[0].value)
  }

  predicate StageShape(update: bool, v: Value)
  {
    && v.Document? && |v.fields| == 1
    && (update ==> UpdateStage(v.fields[0].key))
    && var x := v.fields[0].value;
    match StageOf(v.fields[0].key)
    case GroupStage => GroupFields(x)
    case SortStage => SortSpec(x)
    case SkipStage => InRange(x, 0, MAX_INT64)
    case LimitStage => InRange(x, 1, MAX_INT64)
    case CountStage => FieldName(x)
    case UnsetStage => UnsetSpec(x)
    case UnwindStage => UnwindSpec(x)
    case LookupStage => LookupFields(x)
    case UnionStage => if x.String? then CollectionName(x) else UnionFields(x)
    case FacetStage => FieldDoc(x)
    case ReplaceRootStage => SingleField(x, "newRoot")
    case SampleStage => SingleField(x, "size") && InRange(x.fields[0].value, 0, MAX_INT64)
    case NoStage => false
    case _ => true
  }

  predicate UpdateShape(v: Value)
  {
    match v
    case Array(_) => true
    case Document(d) =>
      HasOperators(d) ==>
        && UniqueKeys(d)
        && forall i :: 0 <= i < |d| ==>
          && ModifierOf(d[i].key) != NoModifier && FieldDoc(d[i].value)
          && forall j :: 0 <= j < |d[i].value.fields| ==>
            var x := d[i].value.fields[j].value;
            (ModifierOf(d[i].key) == PullModifier && x.Document?) || PlainModification(ModifierOf(d[i].key), x)
    case _ => false
  }

  predicate WriteShape(v: Value, update: bool)
  {
    && v.Document? && Fields(v.fields, WriteFields(update))
    && Present(v.fields, "q")
    && (if update then Present(v.fields, "u") else InRange(Get(v.fields, "limit"), 0, 1))
    && forall i :: 0 <= i < |v.fields| ==>
      && (v.fields[i].key in ["upsert", "multi"] ==> v.fields[i].value.Bool?)
      && (v.fields[i].key == "hint" ==> Hint(v.fields[i].value))
  }

  predicate MetadataShape(v: Value, collections: bool)
  {
    && v.Document? && Fields(v.fields, MetadataFields(collections))
    && forall i :: 0 <= i < |v.fields| ==>
      var x := v.fields[i].value;
      if MetadataLogical(v.fields[i].key) then x.Array? && |x.items| > 0
      else if x.Document? then NamePredicate(x.fields)
      else NameOperand(x)
  }

  predicate OptionShape(key: string, x: Value)
  {
    NestedOption(OptionKindOf(key)) || PlainOption(OptionKindOf(key), x)
  }

  /** What the whitelist asks of one position, whatever stands below it. */
  predicate Local(role: Role, v: Value)
  {
    match role
    case FilterRole => FilterKeysOK(v)
    case FilterListRole => v.Array? && |v.items| > 0
    case ConditionRole =>
      v.Document? && HasOperators(v.fields) ==>
        UniqueKeys(v.fields) && forall i :: 0 <= i < |v.fields| ==> TestShape(v.fields, i)
    case ElementRole => v.Document?
    case ExpressionRole => ExpressionShape(v)
    case OperatorRole(op) => OperatorShape(op, v)
    case BindingsRole =>
      FieldDoc(v) && forall i :: 0 <= i < |v.fields| ==> VariableIdentifier(v.fields[i].key)
    case ProjectionRole(find) => ProjectionShape(find, v)
    case PipelineRole(_) => v.Array?
    case StageRole(update) => StageShape(update, v)
    case UpdateRole => UpdateShape(v)
    case WriteListRole(_) => v.Array? && |v.items| > 0
    case WriteRole(update) => WriteShape(v, update)
    case MetadataRole(collections) => MetadataShape(v, collections)
    case CommandRole =>
      && v.Document? && CommandHead(v.fields)
      && forall i :: 1 <= i < |v.fields| ==> OptionShape(v.fields[i].key, v.fields[i].value)
  }

  /** The policy's own recursive check of a value in a role. */
  predicate Accepts(role: Role, v: Value, depth: nat)
  {
    match role
    case FilterRole => Match(v, depth)
    case FilterListRole => MatchArray(v, depth)
    case ConditionRole => Condition(v, depth)
    case ElementRole => ElementMatch(v, depth)
    case ExpressionRole => Expression(v, depth)
    case OperatorRole(op) => Operator(op, v, depth)
    case BindingsRole => Bindings(v, depth)
    case ProjectionRole(find) => Projection(v, depth, find)
    case PipelineRole(update) => Pipeline(v, depth, update)
    case StageRole(update) => Stage(v, depth, update)
    case UpdateRole => UpdateSpec(v, depth)
    case WriteListRole(update) => depth == 0 && Writes(v, update)
    case WriteRole(update) => depth == 0 && Write(v, update)
    case MetadataRole(collections) => MetadataFilter(v, collections, depth)
    case CommandRole => depth == 0 && v.Document? && CommandOK(v.fields)
  }
}
