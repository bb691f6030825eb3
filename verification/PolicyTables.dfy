/** The fixed vocabularies of the policy: each keyword is classified once, here. */
module PolicyTables {
  import opened Values

  predicate Dollar(s: string) { |s| > 0 && s[0] == '$' }

  function LowerChar(c: char): char
  {
    if 'A' <= c <= 'Z' then (c as int + 32) as char else c
  }

  function Lower(s: string): (r: string)
    ensures |r| == |s| && forall i :: 0 <= i < |s| ==> r[i] == LowerChar(s[i])
  {
    seq(|s|, i requires 0 <= i < |s| => LowerChar(s[i]))
  }

  predicate OnlyFrom(s: string, allowed: string)
  {
    forall i :: 0 <= i < |s| ==> s[i] in allowed
  }

  // ------------------------------------------------------- match expressions

  datatype FilterKey = Logical | ExprKey | PathKey

  function FilterKeyOf(key: string): FilterKey
  {
    if key in ["$and", "$or", "$nor"] then Logical else if key == "$expr" then ExprKey else PathKey
  }

  datatype ConditionKey =
    | Comparison | Membership | Existence | SizeTest | TypeTest | RegexTest | RegexOptions
    | Negation | ElementTest | AllTest | ModTest | BitTest | NoCondition

  function ConditionKeyOf(key: string): ConditionKey
  {
    if key in ["$eq", "$ne", "$gt", "$gte", "$lt", "$lte"] then Comparison
    else if key in ["$in", "$nin"] then Membership
    else if key == "$exists" then Existence
    else if key == "$type" then TypeTest
    else if key == "$regex" then RegexTest
    else if key == "$options" then RegexOptions
    else if key == "$size" then SizeTest
    else if key == "$all" then AllTest
    else if key == "$elemMatch" then ElementTest
    else if key == "$not" then Negation
    else if key == "$mod" then ModTest
    else if key in ["$bitsAllClear", "$bitsAllSet", "$bitsAnyClear", "$bitsAnySet"] then BitTest
    else NoCondition
  }

  predicate BsonTypeName(s: string)
  {
    s in ["double", "string", "object", "array", "binData", "undefined", "objectId", "bool", "date", "null",
          "regex", "dbPointer", "javascript", "symbol", "javascriptWithScope", "int", "timestamp", "long",
          "decimal", "minKey", "maxKey", "number"]
  }

  // ------------------------------------------------------------- expressions

  predicate SystemVariable(name: string)
  {
    name in ["ROOT", "CURRENT", "NOW", "CLUSTER_TIME", "REMOVE"]
  }

  /** What an aggregation operator requires of its argument. */
  datatype OperatorForm =
    | Forbidden
    | AnyArgument
    | OneArgument                   // an argument array has one element
    | Arguments(min: nat, max: nat) // an argument array, within these bounds
    | RoundForm                     // one or two arguments when given as an array
    | CondForm                      // three arguments, or if/then/else
    | DatePartForm                  // {date, timezone} when a document with a date
    | Named(fields: seq<string>, required: seq<string>)
    | EmptyDocument

  predicate UnaryOperator(op: string)
  {
    op in ["$abs", "$ceil", "$exp", "$floor", "$ln", "$log10", "$sqrt", "$isArray", "$arrayToObject",
           "$objectToArray", "$reverseArray", "$size", "$strLenBytes", "$strLenCP", "$toLower", "$toUpper",
           "$toBool", "$toDate", "$toDecimal", "$toDouble", "$toInt", "$toLong", "$toObjectId", "$toString",
           "$isNumber", "$type", "$first", "$last"]
  }

  predicate FoldOperator(op: string)
  {
    op in ["$sum", "$avg", "$min", "$max", "$push", "$addToSet", "$stdDevPop", "$stdDevSamp", "$mergeObjects"]
  }

  predicate BinaryOperator(op: string)
  {
    op in ["$divide", "$log", "$mod", "$pow", "$subtract", "$cmp", "$eq", "$gt", "$gte", "$lt", "$lte", "$ne",
           "$arrayElemAt", "$in", "$setDifference", "$setIsSubset", "$split", "$strcasecmp"]
  }

  predicate DatePartOperator(op: string)
  {
    op in ["$dayOfMonth", "$dayOfWeek", "$dayOfYear", "$hour", "$isoDayOfWeek", "$isoWeek", "$isoWeekYear",
           "$millisecond", "$minute", "$month", "$second", "$week", "$year"]
  }

  function ArrayForm(op: string): OperatorForm
  {
    if op in ["$add", "$multiply", "$concat", "$concatArrays"] then Arguments(1, MAX_INT32)
    else if op in ["$and", "$or"] then Arguments(0, MAX_INT32)
    else if op in ["$not", "$allElementsTrue", "$anyElementTrue"] then Arguments(1, 1)
    else if op in ["$round", "$trunc"] then RoundForm
    else if op in ["$ifNull", "$setEquals", "$setIntersection", "$setUnion"] then Arguments(2, MAX_INT32)
    else if op in ["$indexOfArray", "$indexOfBytes", "$indexOfCP"] then Arguments(2, 4)
    else if op in ["$slice", "$range"] then Arguments(2, 3)
    else if op in ["$substr", "$substrBytes", "$substrCP"] then Arguments(3, 3)
    else if op == "$cond" then CondForm
    else Forbidden
  }

  function NamedForm(op: string): OperatorForm
  {
    if op == "$filter" then Named(["input", "as", "cond", "limit"], ["input", "cond"])
    else if op == "$map" then Named(["input", "as", "in"], ["input", "in"])
    else if op == "$reduce" then Named(["input", "initialValue", "in"], ["input", "initialValue", "in"])
    else if op == "$let" then Named(["vars", "in"], ["vars", "in"])
    else if op == "$switch" then Named(["branches", "default"], ["branches"])
    else if op == "$sortArray" then Named(["input", "sortBy"], ["input", "sortBy"])
    else if op == "$zip" then Named(["inputs", "useLongestLength", "defaults"], ["inputs"])
    else if op in ["$trim", "$ltrim", "$rtrim"] then Named(["input", "chars"], ["input"])
    else if op in ["$replaceOne", "$replaceAll"] then
      Named(["input", "find", "replacement"], ["input", "find", "replacement"])
    else if op in ["$regexFind", "$regexFindAll", "$regexMatch"] then
      Named(["input", "regex", "options"], ["input", "regex"])
    else if op == "$convert" then Named(["input", "to", "onError", "onNull"], ["input", "to"])
    else if op in ["$firstN", "$lastN", "$minN", "$maxN"] then Named(["input", "n"], ["input", "n"])
    else if op == "$median" then Named(["input", "method"], ["input", "method"])
    else if op == "$percentile" then Named(["input", "p", "method"], ["input", "p", "method"])
    else if op == "$count" then EmptyDocument
    else DateForm(op)
  }

  function DateForm(op: string): OperatorForm
  {
    if op in ["$dateAdd", "$dateSubtract"] then
      Named(["startDate", "unit", "amount", "timezone"], ["startDate", "unit", "amount"])
    else if op == "$dateDiff" then
      Named(["startDate", "endDate", "unit", "timezone", "startOfWeek"], ["startDate", "endDate", "unit"])
    else if op == "$dateTrunc" then Named(["date", "unit", "binSize", "timezone", "startOfWeek"], ["date", "unit"])
    else if op == "$dateFromParts" then
      Named(["year", "month", "day", "hour", "minute", "second", "millisecond", "timezone", "isoWeekYear",
             "isoWeek", "isoDayOfWeek"], [])
    else if op == "$dateFromString" then
      Named(["dateString", "format", "timezone", "onError", "onNull"], ["dateString"])
    else if op == "$dateToParts" then Named(["date", "timezone", "iso8601"], ["date"])
    else if op == "$dateToString" then Named(["date", "format", "timezone", "onNull"], ["date"])
    else Forbidden
  }

  /** The whitelist of operators. */
  function FormOf(op: string): OperatorForm
  {
    if UnaryOperator(op) then OneArgument
    else if FoldOperator(op) then AnyArgument
    else if BinaryOperator(op) then Arguments(2, 2)
    else if DatePartOperator(op) then DatePartForm
    else if ArrayForm(op) != Forbidden then ArrayForm(op)
    else NamedForm(op)
  }

  /** Operators that run code or reach other fields by a computed name. */
  predicate UnsafeOperator(op: string) { op in ["$function", "$accumulator", "$getField"] }

  lemma UnsafeOperatorsAreForbidden(op: string)
    requires UnsafeOperator(op)
    ensures FormOf(op) == Forbidden
  {
    hide UnsafeOperator, UnaryOperator, FoldOperator, BinaryOperator, DatePartOperator, ArrayForm, NamedForm;
    UnsafeIsNotPlain(op);
    UnsafeIsNotBinary(op);
    UnsafeIsNotArray(op);
    UnsafeIsNotNamed(op);
  }

  lemma UnsafeIsNotPlain(op: string)
    requires UnsafeOperator(op)
    ensures !UnaryOperator(op) && !FoldOperator(op)
  {
  }

  lemma UnsafeIsNotBinary(op: string)
    requires UnsafeOperator(op)
    ensures !BinaryOperator(op) && !DatePartOperator(op)
  {
  }

  lemma UnsafeIsNotArray(op: string)
    requires UnsafeOperator(op)
    ensures ArrayForm(op) == Forbidden
  {
  }

  lemma UnsafeIsNotNamed(op: string)
    requires UnsafeOperator(op)
    ensures NamedForm(op) == Forbidden
  {
    assert DateForm(op) == Forbidden;
  }

  predicate UnsafeStage(key: string)
  {
    key in ["$currentOp", "$collStats", "$out", "$merge", "$changeStream", "$search"]
  }

  lemma UnsafeStagesAreUnknown(key: string)
    requires UnsafeStage(key)
    ensures StageOf(key) == NoStage
  {
  }

  /** The form once the argument's shape is known: only the first four kinds, Named and EmptyDocument remain. */
  function RuleOf(op: string, argument: Value): OperatorForm
  {
    match FormOf(op)
    case RoundForm => if argument.Array? then Arguments(1, 2) else AnyArgument
    case CondForm =>
      if argument.Array? then Arguments(3, 3)
      else Named(["if", "then", "else"], ["if", "then", "else"])
    case DatePartForm =>
      if argument.Document? && Present(argument.fields, "date") then Named(["date", "timezone"], ["date"])
      else AnyArgument
    case form => form
  }

  /** The named arguments that are not plain expressions. */
  datatype Slot = VariableName | VariableBindings | SwitchBranches | SortSlot | FlagSlot | MethodSlot | Evaluated

  function SlotOf(op: string, key: string): Slot
  {
    if key == "as" then VariableName
    else if op == "$let" && key == "vars" then VariableBindings
    else if op == "$switch" && key == "branches" then SwitchBranches
    else if op == "$sortArray" && key == "sortBy" then SortSlot
    else if op == "$zip" && key == "useLongestLength" then FlagSlot
    else if key == "method" then MethodSlot
    else Evaluated
  }

  // ---------------------------------------------------------------- pipelines

  datatype StageKind =
    | MatchStage | ProjectStage | GroupStage | SortStage | SkipStage | LimitStage | CountStage | UnsetStage
    | UnwindStage | LookupStage | UnionStage | FacetStage | ReplaceRootStage | ExpressionStage | SampleStage
    | NoStage

  function StageOf(key: string): StageKind
  {
    if key == "$match" then MatchStage
    else if key in ["$project", "$set", "$addFields"] then ProjectStage
    else if key == "$group" then GroupStage
    else if key == "$sort" then SortStage
    else if key == "$skip" then SkipStage
    else if key == "$limit" then LimitStage
    else if key == "$count" then CountStage
    else if key == "$unset" then UnsetStage
    else if key == "$unwind" then UnwindStage
    else if key == "$lookup" then LookupStage
    else if key == "$unionWith" then UnionStage
    else if key == "$facet" then FacetStage
    else if key == "$replaceRoot" then ReplaceRootStage
    else if key in ["$replaceWith", "$sortByCount"] then ExpressionStage
    else if key == "$sample" then SampleStage
    else NoStage
  }

  predicate UpdateStage(key: string)
  {
    key in ["$set", "$addFields", "$project", "$unset", "$replaceRoot", "$replaceWith"]
  }

  /** Stages of an update pipeline read no other collection and start no sub-pipeline. */
  lemma UpdateStageKinds(key: string)
    requires UpdateStage(key)
    ensures StageOf(key) in {ProjectStage, UnsetStage, ReplaceRootStage, ExpressionStage}
  {
  }

  predicate Accumulator(key: string)
  {
    key in ["$sum", "$avg", "$min", "$max", "$first", "$last", "$push", "$addToSet", "$stdDevPop", "$stdDevSamp",
            "$firstN", "$lastN", "$maxN", "$minN", "$count", "$median", "$percentile", "$mergeObjects"]
  }

  // ------------------------------------------------------------------ updates

  datatype ModifierKind =
    | AssignModifier | NumberModifier | RenameModifier | PopModifier | PullAllModifier | PullModifier
    | DateModifier | BitModifier | PushModifier | AddToSetModifier | NoModifier

  function ModifierOf(key: string): ModifierKind
  {
    if key in ["$set", "$unset", "$min", "$max", "$setOnInsert"] then AssignModifier
    else if key in ["$inc", "$mul"] then NumberModifier
    else if key == "$rename" then RenameModifier
    else if key == "$pop" then PopModifier
    else if key == "$pullAll" then PullAllModifier
    else if key == "$pull" then PullModifier
    else if key == "$currentDate" then DateModifier
    else if key == "$bit" then BitModifier
    else if key == "$push" then PushModifier
    else if key == "$addToSet" then AddToSetModifier
    else NoModifier
  }

  // ----------------------------------------------------------------- commands

  datatype Verb =
    | Ping | BuildInfo | Find | Aggregate | Count | Distinct | GetMore | KillCursors | Insert | Update | Delete
    | FindAndModify | ListDatabases | ListCollections | ListIndexes | EndSessions | OtherCommand

  function VerbOf(name: string): Verb
  {
    if name == "ping" then Ping
    else if name == "buildInfo" || name == "buildinfo" then BuildInfo
    else if name == "find" then Find
    else if name == "aggregate" then Aggregate
    else if name == "count" then Count
    else if name == "distinct" then Distinct
    else if name == "getMore" then GetMore
    else if name == "killCursors" then KillCursors
    else if name == "insert" then Insert
    else if name == "update" then Update
    else if name == "delete" then Delete
    else if name == "findAndModify" then FindAndModify
    else if name == "listDatabases" then ListDatabases
    else if name == "listCollections" then ListCollections
    else if name == "listIndexes" then ListIndexes
    else if name == "endSessions" then EndSessions
    else OtherCommand
  }

  /** The options every command has, then its own. */
  function OptionsOf(verb: Verb): seq<string>
  {
    ["$db", "lsid", "maxTimeMS", "$readPreference"] + OwnOptions(verb)
  }

  function OwnOptions(verb: Verb): seq<string>
  {
    match verb
    case Find =>
      ["filter", "projection", "sort", "skip", "limit", "batchSize", "singleBatch", "hint", "min", "max",
       "returnKey", "showRecordId", "tailable", "awaitData", "noCursorTimeout", "allowPartialResults",
       "allowDiskUse", "let", "readConcern"]
    case Aggregate => ["pipeline", "cursor", "allowDiskUse", "hint", "let", "readConcern"]
    case Count => ["query", "limit", "skip", "hint", "readConcern"]
    case Distinct => ["key", "query", "readConcern"]
    case GetMore => ["collection", "batchSize"]
    case KillCursors => ["cursors"]
    case Insert => ["documents", "ordered", "writeConcern", "bypassDocumentValidation"]
    case Update => ["updates", "ordered", "writeConcern", "bypassDocumentValidation", "let"]
    case Delete => ["deletes", "ordered", "writeConcern", "let"]
    case FindAndModify =>
      ["query", "sort", "remove", "update", "new", "upsert", "fields", "arrayFilters",
       "bypassDocumentValidation", "writeConcern", "let", "hint"]
    case ListDatabases => ["filter", "nameOnly", "authorizedDatabases"]
    case ListCollections => ["filter", "nameOnly", "authorizedCollections", "cursor"]
    case ListIndexes => ["cursor"]
    case _ => []
  }

  function RequiredOf(verb: Verb): seq<string>
  {
    match verb
    case Aggregate => ["pipeline", "cursor"]
    case Distinct => ["key"]
    case GetMore => ["collection"]
    case KillCursors => ["cursors"]
    case Insert => ["documents"]
    case Update => ["updates"]
    case Delete => ["deletes"]
    case _ => []
  }

  datatype OptionKind =
    | DatabaseOption | SessionOption | ReadPreferenceOption | MillisOption | CountOption | FlagOption
    | FilterOption | ProjectionOption | SortOption | HintOption | BoundOption | LetOption | ReadConcernOption
    | WriteConcernOption | CursorOption | PipelineOption | DocumentsOption | UpdatesOption | DeletesOption
    | UpdateOption | ArrayFiltersOption | KeyOption | CollectionOption | CursorsOption | NoOption

  function OptionKindOf(key: string): OptionKind
  {
    if key == "$db" then DatabaseOption
    else if key == "lsid" then SessionOption
    else if key == "$readPreference" then ReadPreferenceOption
    else if key == "maxTimeMS" then MillisOption
    else if key in ["batchSize", "skip", "limit"] then CountOption
    else if key in ["singleBatch", "returnKey", "showRecordId", "tailable", "awaitData", "noCursorTimeout",
                    "allowPartialResults", "allowDiskUse", "ordered", "bypassDocumentValidation", "new", "upsert",
                    "remove", "nameOnly", "authorizedDatabases", "authorizedCollections"] then FlagOption
    else FurtherKindOf(key)
  }

  function FurtherKindOf(key: string): OptionKind
  {
    if key in ["filter", "query"] then FilterOption
    else if key in ["projection", "fields"] then ProjectionOption
    else if key == "sort" then SortOption
    else if key == "hint" then HintOption
    else if key in ["min", "max"] then BoundOption
    else if key == "let" then LetOption
    else if key == "readConcern" then ReadConcernOption
    else if key == "writeConcern" then WriteConcernOption
    else if key == "cursor" then CursorOption
    else LastKindOf(key)
  }

  function LastKindOf(key: string): OptionKind
  {
    if key == "pipeline" then PipelineOption
    else if key == "documents" then DocumentsOption
    else if key == "updates" then UpdatesOption
    else if key == "deletes" then DeletesOption
    else if key == "update" then UpdateOption
    else if key == "arrayFilters" then ArrayFiltersOption
    else if key == "key" then KeyOption
    else if key == "collection" then CollectionOption
    else if key == "cursors" then CursorsOption
    else NoOption
  }

  predicate ReadMode(s: string)
  {
    s in ["primary", "primaryPreferred", "secondary", "secondaryPreferred", "nearest"]
  }

  lemma PipelineKey(key: string)
    requires OptionKindOf(key) == PipelineOption
    ensures key == "pipeline"
  {
  }

  lemma PipelineVerb(verb: Verb)
    requires "pipeline" in OwnOptions(verb)
    ensures verb == Aggregate
  {
  }

  /** A pipeline is an option of aggregate alone. */
  lemma PipelineOnlyInAggregate(verb: Verb, key: string)
    requires OptionKindOf(key) == PipelineOption
    requires key in OptionsOf(verb)
    ensures verb == Aggregate && key == "pipeline"
  {
    PipelineKey(key);
    hide OptionKindOf, OwnOptions;
    assert key in OwnOptions(verb);
    PipelineVerb(verb);
  }
}
