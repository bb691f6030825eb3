/** The whitelist that every client command must pass before anything is forwarded. */
module Policy {
  import opened Values
  import opened PolicyTables

  const MAX_DEPTH := 64

  predicate Fields(d: Doc, allowed: seq<string>)
  {
    UniqueKeys(d) && forall i :: 0 <= i < |d| ==> d[i].key in allowed
  }

  /** The loop form of Fields: one pass with a set of the keys seen so far. */
  method CheckFields(d: Doc, allowed: seq<string>) returns (ok: bool)
    ensures ok == Fields(d, allowed)
  {
    var seen: set<string> := {};
    for i := 0 to |d|
      invariant seen == set k | 0 <= k < i :: d[k].key
      invariant Fields(d[..i], allowed)
    {
      if d[i].key in seen || d[i].key !in allowed {
        assert d[i].key in seen ==> exists k :: 0 <= k < i && d[k].key == d[i].key;
        return false;
      }
      seen := seen + {d[i].key};
    }
    assert d[..|d|] == d;
    return true;
  }

  // ---------------------------------------------------------- names and numbers

  predicate DatabaseName(v: Value, admin: bool)
  {
    && v.String? && v.text != "" && |v.text| <= 63
    && (forall i :: 0 <= i < |v.text| ==> v.text[i] !in "/\\. \"$*<>:|?\0")
    && Lower(v.text) != "local" && Lower(v.text) != "config"
    && (Lower(v.text) == "admin" ==> admin && v.text == "admin")
  }

  predicate HasPrefix(s: string, prefix: string)
  {
    |prefix| <= |s| && s[..|prefix|] == prefix
  }

  predicate CollectionName(v: Value)
  {
    && v.String? && v.text != "" && |v.text| <= 255
    && '$' !in v.text && '\0' !in v.text
    && !HasPrefix(Lower(v.text), "system.")
    && v.text[0] != '.' && v.text[|v.text| - 1] != '.'
    && forall i :: 0 <= i < |v.text| - 1 ==> !(v.text[i] == '.' && v.text[i + 1] == '.')
  }

  predicate PlainName(s: string) { s != "" && s[0] != '$' && '\0' !in s }

  predicate FieldName(v: Value) { v.String? && PlainName(v.text) }

  predicate SessionId(v: Value)
  {
    && v.Document? && |v.fields| == 1 && v.fields[0].key == "id"
    && v.fields[0].value.Binary? && v.fields[0].value.subtype == 4 && |v.fields[0].value.data| == 16
  }

  predicate PlusOrMinusOne(v: Value) { IntOf(v) == Some(1) || IntOf(v) == Some(-1) }

  predicate FieldDoc(v: Value)
  {
    v.Document? && UniqueKeys(v.fields) && forall i :: 0 <= i < |v.fields| ==> PlainName(v.fields[i].key)
  }

  predicate SortSpec(v: Value)
  {
    FieldDoc(v) && forall i :: 0 <= i < |v.fields| ==> PlusOrMinusOne(v.fields[i].value)
  }

  predicate Hint(v: Value) { if v.String? then FieldName(v) else SortSpec(v) }

  predicate SortOrder(v: Value) { PlusOrMinusOne(v) || SortSpec(v) }

  predicate Number(v: Value)
  {
    v.Int32? || v.Int64? || (v.Scalar? && v.kind == Decimal128) || (v.Double? && FiniteDouble(v.bits))
  }

  predicate BsonType(v: Value)
  {
    if v.String? then BsonTypeName(v.text)
    else IntOf(v).Some? && var n := IntOf(v).value; 1 <= n <= 19 || n == -1 || n == 127
  }

  /** Anything but a document is a literal operand. */
  predicate DataOperand(v: Value) { !v.Document? }

  predicate VariableIdentifier(name: string)
  {
    && name != "" && 'a' <= name[0] <= 'z'
    && forall i :: 0 <= i < |name| ==>
      name[i] == '_' || 'a' <= name[i] <= 'z' || 'A' <= name[i] <= 'Z' || '0' <= name[i] <= '9'
  }

  /** The text before the first dot. */
  function Head(s: string): string
  {
    if s == "" || s[0] == '.' then "" else [s[0]] + Head(s[1..])
  }

  /** A string in an expression: data, a field path, or a reference to a permitted variable. */
  predicate ExpressionText(s: string)
  {
    |s| >= 2 && s[0] == '$' && s[1] == '$' ==>
      SystemVariable(Head(s[2..])) || VariableIdentifier(Head(s[2..]))
  }

  predicate ExpressionScalar(v: Value)
  {
    match v
    case Null | Bool(_) | Int32(_) | Int64(_) | Double(_) | Binary(_, _) | Timestamp(_) | Regex(_, _) => true
    case Scalar(kind, _) => kind in {Decimal128, ObjectId, DateTime, Undefined, MinKey, MaxKey}
    case _ => false
  }

  // ---------------------------------------------------------------- expressions

  predicate Expression(v: Value, depth: nat)
    decreases v, 0
  {
    depth <= MAX_DEPTH &&
    match v
    case String(s) => ExpressionText(s)
    case Array(items) => forall i :: 0 <= i < |items| ==> Expression(items[i], depth + 1)
    case Document(fields) =>
      if |fields| == 1 && Dollar(fields[0].key) then
        fields[0].key == "$literal" || Operator(fields[0].key, fields[0].value, depth + 1)
      else
        UniqueKeys(fields) &&
        forall i :: 0 <= i < |fields| ==> !Dollar(fields[i].key) && Expression(fields[i].value, depth + 1)
    case _ => ExpressionScalar(v)
  }

  predicate Operator(op: string, v: Value, depth: nat)
    decreases v, 1
  {
    depth <= MAX_DEPTH &&
    match RuleOf(op, v)
    case AnyArgument => Expression(v, depth + 1)
    case OneArgument => (v.Array? ==> |v.items| == 1) && Expression(v, depth + 1)
    case Arguments(min, max) => v.Array? && min <= |v.items| <= max && Expression(v, depth + 1)
    case Named(fields, required) =>
      && v.Document? && Fields(v.fields, fields)
      && (forall i :: 0 <= i < |required| ==> Present(v.fields, required[i]))
      && forall i :: 0 <= i < |v.fields| ==> NamedArgument(op, v.fields[i].key, v.fields[i].value, depth)
    case EmptyDocument => v == Document([])
    case _ => false
  }

  predicate NamedArgument(op: string, key: string, v: Value, depth: nat)
    decreases v, 2
  {
    match SlotOf(op, key)
    case VariableName => v.String? && VariableIdentifier(v.text)
    case VariableBindings => Bindings(v, depth + 1)
    case SwitchBranches =>
      && v.Array? && |v.items| > 0
      && forall j :: 0 <= j < |v.items| ==> Branch(v.items[j]) && Expression(v.items[j], depth + 1)
    case SortSlot => SortOrder(v)
    case FlagSlot => v.Bool?
    case MethodSlot => v == String("approximate")
    case Evaluated => Expression(v, depth + 1)
  }

  predicate Branch(v: Value) { v.Document? && |v.fields| == 2 && Fields(v.fields, ["case", "then"]) }

  predicate Bindings(v: Value, depth: nat)
    decreases v, 1
  {
    FieldDoc(v) &&
    forall i :: 0 <= i < |v.fields| ==>
      VariableIdentifier(v.fields[i].key) && Expression(v.fields[i].value, depth + 1)
  }

  // -------------------------------------------------------------------- filters

  predicate MatchArray(v: Value, depth: nat)
    decreases v, 1
  {
    v.Array? && |v.items| > 0 && forall i :: 0 <= i < |v.items| ==> Match(v.items[i], depth + 1)
  }

  predicate Match(v: Value, depth: nat)
    decreases v, 0
  {
    && depth <= MAX_DEPTH && v.Document? && UniqueKeys(v.fields)
    && forall i :: 0 <= i < |v.fields| ==> FilterField(v.fields[i].key, v.fields[i].value, depth)
  }

  predicate FilterField(key: string, v: Value, depth: nat)
    decreases v, 2
  {
    match FilterKeyOf(key)
    case Logical => MatchArray(v, depth + 1)
    case ExprKey => Expression(v, depth + 1)
    case PathKey => PlainName(key) && Condition(v, depth + 1)
  }

  /** The loops behind Match and MatchArray, with the set of the keys seen so far. */
  method CheckMatch(v: Value, depth: nat) returns (ok: bool)
    ensures ok == Match(v, depth)
    decreases v, 0
  {
    hide FilterKeyOf, Expression, Condition, MatchArray, PlainName;
    if depth > MAX_DEPTH || !v.Document? {
      return false;
    }
    var d := v.fields;
    var seen: set<string> := {};
    for i := 0 to |d|
      invariant seen == set k | 0 <= k < i :: d[k].key
      invariant UniqueKeys(d[..i])
      invariant forall k :: 0 <= k < i ==> FilterField(d[k].key, d[k].value, depth)
    {
      if d[i].key in seen {
        assert exists k :: 0 <= k < i && d[k].key == d[i].key;
        return false;
      }
      seen := seen + {d[i].key};
      var kind := FilterKeyOf(d[i].key);
      if kind == Logical {
        var all := CheckMatchArray(d[i].value, depth + 1);
        if !all {
          assert !FilterField(d[i].key, d[i].value, depth);
          return false;
        }
      } else if kind == ExprKey {
        if !Expression(d[i].value, depth + 1) {
          assert !FilterField(d[i].key, d[i].value, depth);
          return false;
        }
      } else if !PlainName(d[i].key) || !Condition(d[i].value, depth + 1) {
        assert !FilterField(d[i].key, d[i].value, depth);
        return false;
      }
    }
    assert d[..|d|] == d;
    return true;
  }

  method CheckMatchArray(v: Value, depth: nat) returns (ok: bool)
    ensures ok == MatchArray(v, depth)
    decreases v, 1
  {
    hide Match;
    if !v.Array? || |v.items| == 0 {
      return false;
    }
    for i := 0 to |v.items|
      invariant forall k :: 0 <= k < i ==> Match(v.items[k], depth + 1)
    {
      var fine := CheckMatch(v.items[i], depth + 1);
      if !fine {
        return false;
      }
    }
    return true;
  }

  predicate HasOperators(d: Doc) { exists i :: 0 <= i < |d| && Dollar(d[i].key) }

  predicate Condition(v: Value, depth: nat)
    decreases v, 0
  {
    && depth <= MAX_DEPTH
    && (v.Document? && HasOperators(v.fields) ==>
          && UniqueKeys(v.fields)
          && forall i :: 0 <= i < |v.fields| ==> ConditionTest(v.fields, i, depth))
  }

  /** One `$`-test of a condition document. */
  predicate ConditionTest(d: Doc, i: nat, depth: nat)
    requires i < |d|
    decreases d[i].value, 2
  {
    var v := d[i].value;
    match ConditionKeyOf(d[i].key)
    case Negation =>
      v.Regex? || (v.Document? && |v.fields| > 0 && Dollar(v.fields[0].key) && Condition(v, depth + 1))
    case ElementTest => ElementMatch(v, depth + 1)
    case AllTest => v.Array? && forall j :: 0 <= j < |v.items| ==> AllItem(v.items[j], depth)
    case _ => PlainTest(d, i)
  }

  /** An item of `$all`: data, or a lone `$elemMatch`. */
  predicate AllItem(v: Value, depth: nat)
    decreases v, 2
  {
    v.Document? && HasOperators(v.fields) ==>
      SingleField(v, "$elemMatch") && ElementMatch(v.fields[0].value, depth + 1)
  }

  /** The tests whose operand is data. */
  predicate PlainTest(d: Doc, i: nat)
    requires i < |d|
  {
    var v := d[i].value;
    match ConditionKeyOf(d[i].key)
    case Comparison => true
    case Membership => v.Array?
    case Existence => v.Bool?
    case SizeTest => InRange(v, 0, MAX_INT32)
    case TypeTest =>
      if v.Array? then forall j :: 0 <= j < |v.items| ==> BsonType(v.items[j]) else BsonType(v)
    case RegexTest => v.String? || v.Regex?
    case RegexOptions => v.String? && Get(d, "$regex") != Null && OnlyFrom(v.text, "imsxu")
    case ModTest => v.Array? && |v.items| == 2 && Number(v.items[0]) && Number(v.items[1])
    case BitTest =>
      if v.Array? then forall j :: 0 <= j < |v.items| ==> InRange(v.items[j], 0, MAX_INT32)
      else v.Binary? || InRange(v, 0, MAX_INT64)
    case _ => false
  }

  predicate ElementCondition(d: Doc)
  {
    |d| > 0 && Dollar(d[0].key) && FilterKeyOf(d[0].key) == PathKey
  }

  predicate ElementMatch(v: Value, depth: nat)
    decreases v, 1
  {
    && v.Document?
    && if ElementCondition(v.fields) then Condition(v, depth + 1) else Match(v, depth + 1)
  }

  // ------------------------------------------------- projections and pipelines

  predicate SliceBounds(v: Value)
  {
    if v.Array? then |v.items| == 2 && IntOf(v.items[0]).Some? && InRange(v.items[1], 1, MAX_INT32)
    else IntOf(v).Some?
  }

  predicate SingleField(v: Value, key: string)
  {
    v.Document? && |v.fields| == 1 && v.fields[0].key == key
  }

  predicate Projection(v: Value, depth: nat, find: bool)
    decreases v, 1
  {
    FieldDoc(v) &&
    forall i :: 0 <= i < |v.fields| ==>
      var x := v.fields[i].value;
      if find && SingleField(x, "$elemMatch") then ElementMatch(x.fields[0].value, depth + 1)
      else if find && SingleField(x, "$slice") then SliceBounds(x.fields[0].value)
      else Expression(x, depth + 1)
  }

  predicate Pipeline(v: Value, depth: nat, update: bool)
    decreases v, 0
  {
    && depth <= MAX_DEPTH && v.Array?
    && forall i :: 0 <= i < |v.items| ==> Stage(v.items[i], depth, update)
  }

  predicate FieldPath(v: Value) { v.String? && Dollar(v.text) && PlainName(v.text[1..]) }

  predicate UnwindSpec(v: Value)
  {
    if v.String? then FieldPath(v)
    else
      && v.Document? && Fields(v.fields, ["path", "includeArrayIndex", "preserveNullAndEmptyArrays"])
      && FieldPath(Get(v.fields, "path"))
      && forall i :: 0 <= i < |v.fields| ==>
        && (v.fields[i].key == "includeArrayIndex" ==> FieldName(v.fields[i].value))
        && (v.fields[i].key == "preserveNullAndEmptyArrays" ==> v.fields[i].value.Bool?)
  }

  predicate UnsetSpec(v: Value)
  {
    if v.Array? then forall i :: 0 <= i < |v.items| ==> FieldName(v.items[i]) else FieldName(v)
  }

  predicate GroupFields(v: Value)
  {
    && FieldDoc(v) && Present(v.fields, "_id")
    && forall i :: 0 <= i < |v.fields| && v.fields[i].key != "_id" ==>
      && v.fields[i].value.Document? && |v.fields[i].value.fields| == 1
      && Accumulator(v.fields[i].value.fields[0].key)
  }

  predicate LookupFields(v: Value)
  {
    && v.Document? && Fields(v.fields, ["from", "as", "localField", "foreignField", "let", "pipeline"])
    && CollectionName(Get(v.fields, "from")) && FieldName(Get(v.fields, "as"))
    && var local, foreign := Get(v.fields, "localField"), Get(v.fields, "foreignField");
       && (local != Null || foreign != Null ==> FieldName(local) && FieldName(foreign))
       && (Get(v.fields, "pipeline") != Null || local != Null)
  }

  predicate UnionFields(v: Value)
  {
    v.Document? && Fields(v.fields, ["coll", "pipeline"]) && CollectionName(Get(v.fields, "coll"))
  }

  /** One stage of a pipeline: a document with a single field. */
  predicate Stage(v: Value, depth: nat, update: bool)
    decreases v, 1
  {
    && v.Document? && |v.fields| == 1
    && (update ==> UpdateStage(v.fields[0].key))
    && var x := v.fields[0].value;
    match StageOf(v.fields[0].key)
    case MatchStage => Match(x, depth + 1)
    case ProjectStage => Projection(x, depth + 1, false)
    case GroupStage =>
      GroupFields(x) && forall i :: 0 <= i < |x.fields| ==> Expression(x.fields[i].value, depth + 1)
    case SortStage => SortSpec(x)
    case SkipStage => InRange(x, 0, MAX_INT64)
    case LimitStage => InRange(x, 1, MAX_INT64)
    case CountStage => FieldName(x)
    case UnsetStage => UnsetSpec(x)
    case UnwindStage => UnwindSpec(x)
    case LookupStage =>
      LookupFields(x) &&
      forall i :: 0 <= i < |x.fields| ==>
        && (x.fields[i].key == "pipeline" ==> Pipeline(x.fields[i].value, depth + 1, false))
        && (x.fields[i].key == "let" ==> Bindings(x.fields[i].value, depth + 1))
    case UnionStage =>
      if x.String? then CollectionName(x)
      else
        UnionFields(x) &&
        forall i :: 0 <= i < |x.fields| ==>
          x.fields[i].key == "pipeline" ==> Pipeline(x.fields[i].value, depth + 1, false)
    case FacetStage =>
      FieldDoc(x) && forall i :: 0 <= i < |x.fields| ==> Pipeline(x.fields[i].value, depth + 1, false)
    case ReplaceRootStage => SingleField(x, "newRoot") && Expression(x.fields[0].value, depth + 1)
    case ExpressionStage => Expression(x, depth + 1)
    case SampleStage => SingleField(x, "size") && InRange(x.fields[0].value, 0, MAX_INT64)
    case NoStage => false
  }

  // -------------------------------------------------------------------- updates

  predicate UpdateSpec(v: Value, depth: nat)
    decreases v, 1
  {
    match v
    case Array(_) => Pipeline(v, depth + 1, true)
    case Document(fields) =>
      HasOperators(fields) ==>
        && UniqueKeys(fields)
        && forall i :: 0 <= i < |fields| ==>
          && ModifierOf(fields[i].key) != NoModifier && FieldDoc(fields[i].value)
          && forall j :: 0 <= j < |fields[i].value.fields| ==>
            Modification(ModifierOf(fields[i].key), fields[i].value.fields[j].value, depth)
    case _ => false
  }

  predicate Modification(kind: ModifierKind, v: Value, depth: nat)
    decreases v, 2
  {
    if kind == PullModifier && v.Document? then ElementMatch(v, depth + 1) else PlainModification(kind, v)
  }

  predicate PlainModification(kind: ModifierKind, v: Value)
  {
    match kind
    case AssignModifier => true
    case NumberModifier => Number(v)
    case RenameModifier => FieldName(v)
    case PopModifier => PlusOrMinusOne(v)
    case PullAllModifier => v.Array?
    case PullModifier => DataOperand(v)
    case DateModifier =>
      v == Bool(true) ||
      (SingleField(v, "$type") && v.fields[0].value.String? && v.fields[0].value.text in ["date", "timestamp"])
    case BitModifier =>
      && v.Document? && Fields(v.fields, ["and", "or", "xor"])
      && forall i :: 0 <= i < |v.fields| ==> IntOf(v.fields[i].value).Some?
    case PushModifier => !v.Document? || PushControls(v.fields, ["$each", "$slice", "$position", "$sort"])
    case AddToSetModifier => !v.Document? || PushControls(v.fields, ["$each"])
    case NoModifier => false
  }

  predicate PushControls(d: Doc, allowed: seq<string>)
  {
    HasOperators(d) ==>
      && Fields(d, allowed) && Get(d, "$each").Array?
      && forall i :: 0 <= i < |d| ==>
        && (d[i].key in ["$slice", "$position"] ==> IntOf(d[i].value).Some?)
        && (d[i].key == "$sort" ==> SortOrder(d[i].value))
  }

  function WriteFields(update: bool): seq<string>
  {
    if update then ["q", "u", "upsert", "multi", "arrayFilters", "hint"] else ["q", "limit", "hint"]
  }

  /** One entry of the `updates` or `deletes` array. */
  predicate Write(v: Value, update: bool)
  {
    && v.Document? && Fields(v.fields, WriteFields(update))
    && Match(Get(v.fields, "q"), 0)
    && (if update then UpdateSpec(Get(v.fields, "u"), 0) else InRange(Get(v.fields, "limit"), 0, 1))
    && forall i :: 0 <= i < |v.fields| ==>
      && (v.fields[i].key in ["upsert", "multi"] ==> v.fields[i].value.Bool?)
      && (v.fields[i].key == "hint" ==> Hint(v.fields[i].value))
      && (v.fields[i].key == "arrayFilters" ==> MatchArray(v.fields[i].value, 0))
  }

  predicate Writes(v: Value, update: bool)
  {
    v.Array? && |v.items| > 0 && forall i :: 0 <= i < |v.items| ==> Write(v.items[i], update)
  }

  // ------------------------------------------------------------ metadata filters

  function MetadataFields(collections: bool): seq<string>
  {
    if collections then ["name", "type", "$and", "$or"] else ["name", "$and", "$or"]
  }

  predicate NameOperand(v: Value)
  {
    v.String? || (v.Regex? && OnlyFrom(v.options, "imsxu"))
  }

  predicate NamePredicate(d: Doc)
  {
    && |d| > 0 && Fields(d, ["$eq", "$regex", "$options", "$in"])
    && forall i :: 0 <= i < |d| ==>
      && (d[i].key == "$eq" ==> d[i].value.String?)
      && (d[i].key == "$regex" ==> NameOperand(d[i].value))
      && (d[i].key == "$options" ==>
            d[i].value.String? && OnlyFrom(d[i].value.text, "imsxu") && Present(d, "$regex"))
      && (d[i].key == "$in" ==>
            d[i].value.Array? &&
            forall j :: 0 <= j < |d[i].value.items| ==> NameOperand(d[i].value.items[j]))
  }

  predicate MetadataLogical(key: string) { key in ["$and", "$or"] }

  predicate MetadataFilter(v: Value, collections: bool, depth: nat)
    decreases v
  {
    && depth <= MAX_DEPTH && v.Document? && Fields(v.fields, MetadataFields(collections))
    && forall i :: 0 <= i < |v.fields| ==>
      var x := v.fields[i].value;
      if MetadataLogical(v.fields[i].key) then
        && x.Array? && |x.items| > 0
        && forall j :: 0 <= j < |x.items| ==> MetadataFilter(x.items[j], collections, depth + 1)
      else if x.Document? then NamePredicate(x.fields)
      else NameOperand(x)
  }

  // ------------------------------------------------------------------- commands

  predicate ReadConcern(v: Value)
  {
    && v.Document? && Fields(v.fields, ["level", "afterClusterTime"])
    && forall i :: 0 <= i < |v.fields| ==>
      if v.fields[i].key == "level" then
        v.fields[i].value.String? &&
        v.fields[i].value.text in ["local", "majority", "available", "linearizable"]
      else v.fields[i].value.Timestamp?
  }

  predicate WriteConcern(v: Value)
  {
    && v.Document? && Fields(v.fields, ["w", "j", "wtimeout"])
    && forall i :: 0 <= i < |v.fields| ==>
      var x := v.fields[i].value;
      && (v.fields[i].key == "w" ==> x == String("majority") || InRange(x, 1, MAX_INT32))
      && (v.fields[i].key == "j" ==> x.Bool?)
      && (v.fields[i].key == "wtimeout" ==> InRange(x, 0, MAX_INT32))
  }

  predicate CursorSpec(v: Value)
  {
    && v.Document? && Fields(v.fields, ["batchSize"])
    && (|v.fields| > 0 ==> InRange(v.fields[0].value, 0, MAX_INT32))
  }

  predicate CommandArgument(verb: Verb, doc: Doc)
    requires |doc| > 0
  {
    var v := doc[0].value;
    match verb
    case Ping | BuildInfo | ListDatabases | ListCollections => InRange(v, 1, 1)
    case EndSessions => v.Array? && |v.items| > 0 && forall i :: 0 <= i < |v.items| ==> SessionId(v.items[i])
    case GetMore => IntOf(v).Some? && CollectionName(Get(doc, "collection"))
    case _ => CollectionName(v)
  }

  predicate MetadataVerb(verb: Verb) { verb == ListCollections || verb == ListDatabases }

  /** The check of one option whose value holds no filter, expression, update or pipeline. */
  predicate PlainOption(kind: OptionKind, v: Value)
  {
    match kind
    case DatabaseOption => true
    case SessionOption => SessionId(v)
    case ReadPreferenceOption =>
      SingleField(v, "mode") && v.fields[0].value.String? && ReadMode(v.fields[0].value.text)
    case MillisOption => InRange(v, 0, MAX_INT32)
    case CountOption => InRange(v, 0, MAX_INT64)
    case FlagOption => v.Bool?
    case SortOption => SortSpec(v)
    case HintOption => Hint(v)
    case BoundOption => FieldDoc(v)
    case ReadConcernOption => ReadConcern(v)
    case WriteConcernOption => WriteConcern(v)
    case CursorOption => CursorSpec(v)
    case DocumentsOption => v.Array? && |v.items| > 0 && forall j :: 0 <= j < |v.items| ==> v.items[j].Document?
    case KeyOption => FieldName(v)
    case CollectionOption => CollectionName(v)
    case CursorsOption => v.Array? && forall j :: 0 <= j < |v.items| ==> IntOf(v.items[j]).Some?
    case _ => false
  }

  /** The options whose value holds a filter, an expression, an update or a pipeline. */
  predicate NestedOption(kind: OptionKind)
  {
    kind in {FilterOption, ProjectionOption, LetOption, PipelineOption, UpdatesOption, DeletesOption, UpdateOption,
             ArrayFiltersOption}
  }

  predicate NestedCheck(verb: Verb, kind: OptionKind, v: Value)
  {
    if kind == FilterOption then
      if MetadataVerb(verb) then MetadataFilter(v, verb == ListCollections, 0) else Match(v, 0)
    else if kind == ProjectionOption then Projection(v, 0, true)
    else if kind == LetOption then Bindings(v, 0)
    else if kind == PipelineOption then Pipeline(v, 0, false)
    else if kind == UpdatesOption then Writes(v, true)
    else if kind == DeletesOption then Writes(v, false)
    else if kind == UpdateOption then UpdateSpec(v, 0)
    else MatchArray(v, 0)
  }

  predicate CommandOption(verb: Verb, key: string, v: Value)
  {
    if NestedOption(OptionKindOf(key)) then NestedCheck(verb, OptionKindOf(key), v)
    else PlainOption(OptionKindOf(key), v)
  }

  /** A findAndModify either removes or carries an update. */
  predicate OneEffect(doc: Doc)
  {
    (Get(doc, "remove") == Bool(true)) != (Get(doc, "update") != Null)
  }

  predicate AdminVerb(verb: Verb) { verb in {Ping, BuildInfo, ListDatabases, EndSessions} }

  /** mongoPolicyCommandOK without the checks of the individual options. */
  predicate CommandHead(doc: Doc)
  {
    && |doc| >= 2
    && var verb := VerbOf(doc[0].key);
    && verb != OtherCommand
    && Fields(doc, [doc[0].key] + OptionsOf(verb))
    && DatabaseName(Get(doc, "$db"), AdminVerb(verb))
    && (forall i :: 0 <= i < |RequiredOf(verb)| ==> Get(doc, RequiredOf(verb)[i]) != Null)
    && CommandArgument(verb, doc)
    && (verb == FindAndModify ==> OneEffect(doc))
  }

  /** mongoPolicyCommandOK: the command may be forwarded. */
  predicate CommandOK(doc: Doc)
  {
    && CommandHead(doc)
    && forall i :: 1 <= i < |doc| ==> CommandOption(VerbOf(doc[0].key), doc[i].key, doc[i].value)
  }
}
