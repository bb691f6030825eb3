/**
 * The whitelist written out: every keyword, number and list of the policy, literally, with no use of the modules that
 * check it. `Part` says which values inside a value are evaluated and as what, `Rule` what may stand at one position.
 */
module Whitelist {
  import opened Values
  import opened Positions

  // -------------------------------------------------------------------------- shapes

  predicate Between(v: Value, lo: int, hi: int) { IntOf(v).Some? && lo <= IntOf(v).value <= hi }

  predicate Whole(v: Value) { IntOf(v).Some? }

  predicate Sign(v: Value) { IntOf(v) in {Some(1), Some(-1)} }

  predicate Starts(s: string) { s != "" && s[0] == '$' }

  predicate Key(s: string) { s != "" && s[0] != '$' && '\0' !in s }

  predicate OnlyKeys(d: Doc, allowed: seq<string>) { UniqueKeys(d) && forall i :: 0 <= i < |d| ==> d[i].key in allowed }

  predicate Object(v: Value, allowed: seq<string>) { v.Document? && OnlyKeys(v.fields, allowed) }

  predicate Lone(v: Value, key: string) { v.Document? && |v.fields| == 1 && v.fields[0].key == key }

  predicate Plain(v: Value)
  {
    v.Document? && UniqueKeys(v.fields) && forall i :: 0 <= i < |v.fields| ==> Key(v.fields[i].key)
  }

  predicate Order(v: Value) { Plain(v) && forall i :: 0 <= i < |v.fields| ==> Sign(v.fields[i].value) }

  predicate Tests(d: Doc) { exists i :: 0 <= i < |d| && Starts(d[i].key) }

  predicate Items(v: Value, least: nat, most: nat) { v.Array? && least <= |v.items| <= most }

  predicate Letters(s: string, allowed: string) { forall i :: 0 <= i < |s| ==> s[i] in allowed }

  /** The lower-case form of a letter, and any other octet as it is. */
  function Small(c: char): char { if 'A' <= c <= 'Z' then c - 'A' + 'a' else c }

  /** The same text but for the case of its letters; `small` is written in lower case. */
  predicate AnyCase(s: string, small: string) { |s| == |small| && forall i :: 0 <= i < |s| ==> Small(s[i]) == small[i] }

  predicate BeginsInAnyCase(s: string, small: string) { |small| <= |s| && AnyCase(s[..|small|], small) }

  /** A database: no separator or wildcard, never local or config, and admin only where it is allowed. */
  predicate Database(v: Value, admin: bool)
  {
    && v.String? && 1 <= |v.text| <= 63
    && (forall i :: 0 <= i < |v.text| ==>
          v.text[i] !in ['/', '\\', '.', ' ', '"', '$', '*', '<', '>', ':', '|', '?', '\0'])
    && !AnyCase(v.text, "local") && !AnyCase(v.text, "config")
    && (AnyCase(v.text, "admin") ==> admin && v.text == "admin")
  }

  /** A collection: no dollar sign, no zero, no empty part between dots, and outside the system namespace. */
  predicate Collection(v: Value)
  {
    && v.String? && 1 <= |v.text| <= 255 && '$' !in v.text && '\0' !in v.text
    && !BeginsInAnyCase(v.text, "system.")
    && v.text[0] != '.' && v.text[|v.text| - 1] != '.'
    && forall i :: 0 < i < |v.text| ==> v.text[i - 1] != '.' || v.text[i] != '.'
  }

  /** A logical session: one uuid of sixteen octets. */
  predicate Lsid(v: Value)
  {
    Lone(v, "id") && v.fields[0].value.Binary? && v.fields[0].value.subtype == 4 && |v.fields[0].value.data| == 16
  }

  // ------------------------------------------------------------------------- filters

  predicate Amount(v: Value)
  {
    v.Int32? || v.Int64? || (v.Double? && (v.bits / 0x10_0000_0000_0000) % 2048 != 2047) ||
    (v.Scalar? && v.kind == Decimal128)
  }

  predicate TypeName(v: Value)
  {
    if v.String? then
      v.text in ["double", "string", "object", "array", "binData", "undefined", "objectId", "bool", "date", "null",
                 "regex", "dbPointer", "javascript", "symbol", "javascriptWithScope", "int", "timestamp", "long",
                 "decimal", "minKey", "maxKey", "number"]
    else Between(v, 1, 19) || Between(v, -1, -1) || Between(v, 127, 127)
  }

  /** One test of a condition, and the type of its operand. */
  predicate TestRule(d: Doc, i: nat)
    requires i < |d|
  {
    var key, x := d[i].key, d[i].value;
    || key in ["$eq", "$ne", "$gt", "$gte", "$lt", "$lte", "$elemMatch"]
    || (key in ["$in", "$nin"] && x.Array?)
    || (key == "$exists" && x.Bool?)
    || (key == "$size" && Between(x, 0, 2147483647))
    || (key == "$type" && if x.Array? then forall j :: 0 <= j < |x.items| ==> TypeName(x.items[j]) else TypeName(x))
    || (key == "$regex" && (x.String? || x.Regex?))
    || (key == "$options" && x.String? && Get(d, "$regex") != Null && Letters(x.text, "imsxu"))
    || (key == "$mod" && Items(x, 2, 2) && Amount(x.items[0]) && Amount(x.items[1]))
    || (key in ["$bitsAllClear", "$bitsAllSet", "$bitsAnyClear", "$bitsAnySet"] &&
        if x.Array? then forall j :: 0 <= j < |x.items| ==> Between(x.items[j], 0, 2147483647)
        else x.Binary? || Between(x, 0, 9223372036854775807))
    || (key == "$not" && (x.Regex? || (x.Document? && x.fields != [] && Starts(x.fields[0].key))))
    || (key == "$all" && x.Array? &&
        forall k :: 0 <= k < |x.items| ==>
          x.items[k].Document? && Tests(x.items[k].fields) ==> Lone(x.items[k], "$elemMatch"))
  }

  predicate FilterRule(v: Value)
  {
    && v.Document? && UniqueKeys(v.fields)
    && forall i :: 0 <= i < |v.fields| ==>
         v.fields[i].key in ["$and", "$or", "$nor", "$expr"] || Key(v.fields[i].key)
  }

  predicate Logic(key: string) { key in ["$and", "$or", "$nor"] }

  /** A document that starts with a test, and not with a logical operator, is a condition on the element itself. */
  predicate OnElement(d: Doc) { d != [] && Starts(d[0].key) && !Logic(d[0].key) && d[0].key != "$expr" }

  // --------------------------------------------------------------------- expressions

  predicate Variable(s: string)
  {
    && s != "" && 'a' <= s[0] <= 'z'
    && forall i :: 0 <= i < |s| ==>
         'a' <= s[i] <= 'z' || 'A' <= s[i] <= 'Z' || '0' <= s[i] <= '9' || s[i] == '_'
  }

  function UpToDot(s: string): string { if s == "" || s[0] == '.' then "" else [s[0]] + UpToDot(s[1..]) }

  /** A text that begins with two dollar signs refers to a variable, up to its first dot. */
  predicate Reference(s: string)
  {
    |s| >= 2 && s[0] == '$' && s[1] == '$' ==>
      UpToDot(s[2..]) in ["ROOT", "CURRENT", "NOW", "CLUSTER_TIME", "REMOVE"] || Variable(UpToDot(s[2..]))
  }

  predicate ExpressionRule(v: Value)
  {
    match v
    case String(s) => Reference(s)
    case Array(_) => true
    case Document(d) =>
      || (|d| == 1 && Starts(d[0].key))
      || (UniqueKeys(d) && forall i :: 0 <= i < |d| ==> !Starts(d[i].key))
    case Scalar(kind, _) => kind !in {DbPointer, JavaScript, Symbol}
    case CodeWithScope(_, _) => false
    case _ => true
  }

  predicate Unary(op: string)
  {
    op in ["$abs", "$ceil", "$exp", "$floor", "$ln", "$log10", "$sqrt", "$isArray", "$arrayToObject",
           "$objectToArray", "$reverseArray", "$size", "$strLenBytes", "$strLenCP", "$toLower", "$toUpper",
           "$toBool", "$toDate", "$toDecimal", "$toDouble", "$toInt", "$toLong", "$toObjectId", "$toString",
           "$isNumber", "$type", "$first", "$last"]
  }

  predicate Folding(op: string)
  {
    op in ["$sum", "$avg", "$min", "$max", "$push", "$addToSet", "$stdDevPop", "$stdDevSamp", "$mergeObjects"]
  }

  predicate Binary2(op: string)
  {
    op in ["$divide", "$log", "$mod", "$pow", "$subtract", "$cmp", "$eq", "$gt", "$gte", "$lt", "$lte", "$ne",
           "$arrayElemAt", "$in", "$setDifference", "$setIsSubset", "$split", "$strcasecmp"]
  }

  predicate DatePart(op: string)
  {
    op in ["$dayOfMonth", "$dayOfWeek", "$dayOfYear", "$hour", "$isoDayOfWeek", "$isoWeek", "$isoWeekYear",
           "$millisecond", "$minute", "$month", "$second", "$week", "$year"]
  }

  /** How many operands an operator takes that wants a list of them. */
  function Arity(op: string): Option<(nat, nat)>
  {
    if op in ["$add", "$multiply", "$concat", "$concatArrays"] then Some((1, 2147483647))
    else if op in ["$and", "$or"] then Some((0, 2147483647))
    else if op in ["$not", "$allElementsTrue", "$anyElementTrue"] then Some((1, 1))
    else if op in ["$ifNull", "$setEquals", "$setIntersection", "$setUnion"] then Some((2, 2147483647))
    else if op in ["$indexOfArray", "$indexOfBytes", "$indexOfCP"] then Some((2, 4))
    else if op in ["$slice", "$range"] then Some((2, 3))
    else if op in ["$substr", "$substrBytes", "$substrCP"] then Some((3, 3))
    else None
  }

  /** The named arguments of an operator: those it may have, and those it must have. */
  function Arguments(op: string): Option<(seq<string>, seq<string>)>
  {
    if op == "$filter" then Some((["input", "as", "cond", "limit"], ["input", "cond"]))
    else if op == "$map" then Some((["input", "as", "in"], ["input", "in"]))
    else if op == "$reduce" then Some((["input", "initialValue", "in"], ["input", "initialValue", "in"]))
    else if op == "$let" then Some((["vars", "in"], ["vars", "in"]))
    else if op == "$switch" then Some((["branches", "default"], ["branches"]))
    else if op == "$sortArray" then Some((["input", "sortBy"], ["input", "sortBy"]))
    else if op == "$zip" then Some((["inputs", "useLongestLength", "defaults"], ["inputs"]))
    else if op in ["$trim", "$ltrim", "$rtrim"] then Some((["input", "chars"], ["input"]))
    else if op in ["$replaceOne", "$replaceAll"] then
      Some((["input", "find", "replacement"], ["input", "find", "replacement"]))
    else if op in ["$regexFind", "$regexFindAll", "$regexMatch"] then
      Some((["input", "regex", "options"], ["input", "regex"]))
    else if op == "$convert" then Some((["input", "to", "onError", "onNull"], ["input", "to"]))
    else if op in ["$firstN", "$lastN", "$minN", "$maxN"] then Some((["input", "n"], ["input", "n"]))
    else if op == "$median" then Some((["input", "method"], ["input", "method"]))
    else if op == "$percentile" then Some((["input", "p", "method"], ["input", "p", "method"]))
    else DateArguments(op)
  }

  function DateArguments(op: string): Option<(seq<string>, seq<string>)>
  {
    if op in ["$dateAdd", "$dateSubtract"] then
      Some((["startDate", "unit", "amount", "timezone"], ["startDate", "unit", "amount"]))
    else if op == "$dateDiff" then
      Some((["startDate", "endDate", "unit", "timezone", "startOfWeek"], ["startDate", "endDate", "unit"]))
    else if op == "$dateTrunc" then Some((["date", "unit", "binSize", "timezone", "startOfWeek"], ["date", "unit"]))
    else if op == "$dateFromParts" then
      Some((["year", "month", "day", "hour", "minute", "second", "millisecond", "timezone", "isoWeekYear",
             "isoWeek", "isoDayOfWeek"], []))
    else if op == "$dateFromString" then
      Some((["dateString", "format", "timezone", "onError", "onNull"], ["dateString"]))
    else if op == "$dateToParts" then Some((["date", "timezone", "iso8601"], ["date"]))
    else if op == "$dateToString" then Some((["date", "format", "timezone", "onNull"], ["date"]))
    else None
  }

  predicate Rounding(op: string) { op in ["$round", "$trunc"] }

  predicate Dated(x: Value) { x.Document? && Present(x.fields, "date") }

  /** The named arguments with which an operator is used on this operand, when it is used with names. */
  function Naming(op: string, x: Value): Option<(seq<string>, seq<string>)>
  {
    if Unary(op) || Folding(op) || Binary2(op) then None
    else if DatePart(op) then if Dated(x) then Some((["date", "timezone"], ["date"])) else None
    else if Arity(op).Some? || Rounding(op) then None
    else if op == "$cond" then if x.Array? then None else Some((["if", "then", "else"], ["if", "then", "else"]))
    else Arguments(op)
  }

  predicate ArgumentRule(op: string, key: string, x: Value)
  {
    && (key == "as" ==> x.String? && Variable(x.text))
    && (key == "method" ==> x == String("approximate"))
    && (op == "$switch" && key == "branches" ==>
          x.Array? && x.items != [] &&
          forall j :: 0 <= j < |x.items| ==> |Fields(x.items[j])| == 2 && Object(x.items[j], ["case", "then"]))
    && (op == "$sortArray" && key == "sortBy" ==> Sign(x) || Order(x))
    && (op == "$zip" && key == "useLongestLength" ==> x.Bool?)
  }

  function Fields(v: Value): Doc { if v.Document? then v.fields else [] }

  predicate NamedRule(op: string, x: Value, allowed: seq<string>, required: seq<string>)
  {
    && Object(x, allowed)
    && (forall i :: 0 <= i < |required| ==> Present(x.fields, required[i]))
    && forall i :: 0 <= i < |x.fields| ==> ArgumentRule(op, x.fields[i].key, x.fields[i].value)
  }

  /** An operator with its operand: the number of operands, or their names. */
  predicate OperatorRule(op: string, x: Value)
  {
    if Naming(op, x).Some? then NamedRule(op, x, Naming(op, x).value.0, Naming(op, x).value.1)
    else if Unary(op) then x.Array? ==> |x.items| == 1
    else if Folding(op) then true
    else if Binary2(op) then Items(x, 2, 2)
    else if DatePart(op) then true
    else if Arity(op).Some? then Items(x, Arity(op).value.0, Arity(op).value.1)
    else if Rounding(op) then x.Array? ==> 1 <= |x.items| <= 2
    else if op == "$cond" then Items(x, 3, 3)
    else op == "$count" && x == Document([])
  }

  // ------------------------------------------------------- stages, updates and writes

  predicate Unwind(x: Value)
  {
    if x.String? then Path(x)
    else
      && Object(x, ["path", "includeArrayIndex", "preserveNullAndEmptyArrays"]) && Path(Get(x.fields, "path"))
      && forall i :: 0 <= i < |x.fields| ==>
        && (x.fields[i].key == "includeArrayIndex" ==> Named(x.fields[i].value))
        && (x.fields[i].key == "preserveNullAndEmptyArrays" ==> x.fields[i].value.Bool?)
  }

  predicate Named(v: Value) { v.String? && Key(v.text) }

  predicate Path(v: Value) { v.String? && Starts(v.text) && Key(v.text[1..]) }

  predicate Group(x: Value)
  {
    && Plain(x) && Present(x.fields, "_id")
    && forall i :: 0 <= i < |x.fields| && x.fields[i].key != "_id" ==>
      && |Fields(x.fields[i].value)| == 1
      && Fields(x.fields[i].value)[0].key in
           ["$sum", "$avg", "$min", "$max", "$first", "$last", "$push", "$addToSet", "$stdDevPop", "$stdDevSamp",
            "$firstN", "$lastN", "$maxN", "$minN", "$count", "$median", "$percentile", "$mergeObjects"]
  }

  predicate Lookup(x: Value)
  {
    && Object(x, ["from", "as", "localField", "foreignField", "let", "pipeline"])
    && Collection(Get(x.fields, "from")) && Named(Get(x.fields, "as"))
    && var local, foreign := Get(x.fields, "localField"), Get(x.fields, "foreignField");
       if local == Null && foreign == Null then Get(x.fields, "pipeline") != Null
       else Named(local) && Named(foreign)
  }

  predicate StageArgument(key: string, x: Value)
  {
    || key in ["$match", "$project", "$set", "$addFields", "$replaceWith", "$sortByCount"]
    || (key == "$group" && Group(x))
    || (key == "$sort" && Order(x))
    || (key == "$skip" && Between(x, 0, 9223372036854775807))
    || (key == "$limit" && Between(x, 1, 9223372036854775807))
    || (key == "$count" && Named(x))
    || (key == "$unset" && if x.Array? then forall i :: 0 <= i < |x.items| ==> Named(x.items[i]) else Named(x))
    || (key == "$unwind" && Unwind(x))
    || (key == "$lookup" && Lookup(x))
    || (key == "$unionWith" &&
        (Collection(x) || (Object(x, ["coll", "pipeline"]) && Collection(Get(x.fields, "coll")))))
    || (key == "$facet" && Plain(x))
    || (key == "$replaceRoot" && Lone(x, "newRoot"))
    || (key == "$sample" && Lone(x, "size") && Between(x.fields[0].value, 0, 9223372036854775807))
  }

  predicate StageRule(update: bool, v: Value)
  {
    && v.Document? && |v.fields| == 1
    && var key, x := v.fields[0].key, v.fields[0].value;
    && (update ==> key in ["$set", "$addFields", "$project", "$unset", "$replaceRoot", "$replaceWith"])
    && StageArgument(key, x)
  }

  predicate Pushed(x: Value, allowed: seq<string>)
  {
    x.Document? && Tests(x.fields) ==>
      && OnlyKeys(x.fields, allowed) && Get(x.fields, "$each").Array?
      && forall i :: 0 <= i < |x.fields| ==>
        && (x.fields[i].key in ["$slice", "$position"] ==> Whole(x.fields[i].value))
        && (x.fields[i].key == "$sort" ==> Sign(x.fields[i].value) || Order(x.fields[i].value))
  }

  /** A modifier, and the value it gives to one field. */
  predicate ModifierRule(key: string, x: Value)
  {
    || key in ["$set", "$unset", "$min", "$max", "$setOnInsert", "$pull"]
    || (key in ["$inc", "$mul"] && Amount(x))
    || (key == "$rename" && Named(x))
    || (key == "$pop" && Sign(x))
    || (key == "$pullAll" && x.Array?)
    || (key == "$currentDate" &&
        (x == Bool(true) || (Lone(x, "$type") && x.fields[0].value in {String("date"), String("timestamp")})))
    || (key == "$bit" && Object(x, ["and", "or", "xor"]) &&
        forall i :: 0 <= i < |x.fields| ==> Whole(x.fields[i].value))
    || (key == "$push" && Pushed(x, ["$each", "$slice", "$position", "$sort"]))
    || (key == "$addToSet" && Pushed(x, ["$each"]))
  }

  predicate Modifier(key: string)
  {
    key in ["$set", "$unset", "$min", "$max", "$setOnInsert", "$inc", "$mul", "$rename", "$pop", "$pullAll", "$pull",
            "$currentDate", "$bit", "$push", "$addToSet"]
  }

  predicate UpdateRule(v: Value)
  {
    v.Array? ||
    (v.Document? &&
     (Tests(v.fields) ==>
        && UniqueKeys(v.fields)
        && forall i :: 0 <= i < |v.fields| ==>
          && Modifier(v.fields[i].key) && Plain(v.fields[i].value)
          && forall j :: 0 <= j < |v.fields[i].value.fields| ==>
               ModifierRule(v.fields[i].key, v.fields[i].value.fields[j].value)))
  }

  predicate HintRule(v: Value) { Named(v) || Order(v) }

  predicate WriteRule(v: Value, update: bool)
  {
    && Object(v, if update then ["q", "u", "upsert", "multi", "arrayFilters", "hint"] else ["q", "limit", "hint"])
    && Present(v.fields, "q")
    && (if update then Present(v.fields, "u") else Between(Get(v.fields, "limit"), 0, 1))
    && forall i :: 0 <= i < |v.fields| ==>
      && (v.fields[i].key in ["upsert", "multi"] ==> v.fields[i].value.Bool?)
      && (v.fields[i].key == "hint" ==> HintRule(v.fields[i].value))
  }

  // ------------------------------------------------------------------ listing filters

  predicate NamePattern(v: Value) { v.String? || (v.Regex? && Letters(v.options, "imsxu")) }

  predicate NameTests(d: Doc)
  {
    && d != [] && OnlyKeys(d, ["$eq", "$regex", "$options", "$in"])
    && forall i :: 0 <= i < |d| ==>
      var key, x := d[i].key, d[i].value;
      && (key == "$eq" ==> x.String?)
      && (key == "$regex" ==> NamePattern(x))
      && (key == "$options" ==> x.String? && Letters(x.text, "imsxu") && Present(d, "$regex"))
      && (key == "$in" ==> x.Array? && forall j :: 0 <= j < |x.items| ==> NamePattern(x.items[j]))
  }

  predicate ListingRule(v: Value, collections: bool)
  {
    && Object(v, if collections then ["name", "type", "$and", "$or"] else ["name", "$and", "$or"])
    && forall i :: 0 <= i < |v.fields| ==>
      var key, x := v.fields[i].key, v.fields[i].value;
      if key in ["$and", "$or"] then x.Array? && x.items != []
      else if x.Document? then NameTests(x.fields)
      else NamePattern(x)
  }

  // ------------------------------------------------------------------------- commands

  /** The options of a command beyond those that all have. */
  function Options(name: string): seq<string>
  {
    if name == "find" then
      ["filter", "projection", "sort", "skip", "limit", "batchSize", "singleBatch", "hint", "min", "max",
       "returnKey", "showRecordId", "tailable", "awaitData", "noCursorTimeout", "allowPartialResults",
       "allowDiskUse", "let", "readConcern"]
    else if name == "aggregate" then ["pipeline", "cursor", "allowDiskUse", "hint", "let", "readConcern"]
    else if name == "count" then ["query", "limit", "skip", "hint", "readConcern"]
    else if name == "distinct" then ["key", "query", "readConcern"]
    else if name == "getMore" then ["collection", "batchSize"]
    else if name == "killCursors" then ["cursors"]
    else if name == "insert" then ["documents", "ordered", "writeConcern", "bypassDocumentValidation"]
    else if name == "update" then ["updates", "ordered", "writeConcern", "bypassDocumentValidation", "let"]
    else if name == "delete" then ["deletes", "ordered", "writeConcern", "let"]
    else if name == "findAndModify" then
      ["query", "sort", "remove", "update", "new", "upsert", "fields", "arrayFilters",
       "bypassDocumentValidation", "writeConcern", "let", "hint"]
    else if name == "listDatabases" then ["filter", "nameOnly", "authorizedDatabases"]
    else if name == "listCollections" then ["filter", "nameOnly", "authorizedCollections", "cursor"]
    else if name == "listIndexes" then ["cursor"]
    else []
  }

  function Required(name: string): seq<string>
  {
    if name == "aggregate" then ["pipeline", "cursor"]
    else if name == "distinct" then ["key"]
    else if name == "getMore" then ["collection"]
    else if name == "killCursors" then ["cursors"]
    else if name == "insert" then ["documents"]
    else if name == "update" then ["updates"]
    else if name == "delete" then ["deletes"]
    else []
  }

  predicate ServerCommand(name: string) { name in ["ping", "buildInfo", "buildinfo", "listDatabases"] }

  predicate CollectionCommand(name: string)
  {
    name in ["find", "aggregate", "count", "distinct", "killCursors", "insert", "update", "delete", "findAndModify",
             "listIndexes"]
  }

  /** The command's own value. */
  predicate SubjectRule(doc: Doc)
    requires doc != []
  {
    var name, v := doc[0].key, doc[0].value;
    || ((ServerCommand(name) || name == "listCollections") && Between(v, 1, 1))
    || (name == "endSessions" && v.Array? && v.items != [] && forall i :: 0 <= i < |v.items| ==> Lsid(v.items[i]))
    || (name == "getMore" && Whole(v) && Collection(Get(doc, "collection")))
    || (CollectionCommand(name) && Collection(v))
  }

  predicate CommandRule(doc: Doc)
  {
    && |doc| >= 2
    && var name := doc[0].key;
    && SubjectRule(doc)
    && OnlyKeys(doc, [name] + ["$db", "lsid", "maxTimeMS", "$readPreference"] + Options(name))
    && Database(Get(doc, "$db"), ServerCommand(name) || name == "endSessions")
    && (forall i :: 0 <= i < |Required(name)| ==> Get(doc, Required(name)[i]) != Null)
    && (name == "findAndModify" ==> (Get(doc, "remove") == Bool(true)) != (Get(doc, "update") != Null))
    && forall i :: 1 <= i < |doc| ==> OptionRule(doc[i].key, doc[i].value)
  }

  predicate Flag(key: string)
  {
    key in ["singleBatch", "returnKey", "showRecordId", "tailable", "awaitData", "noCursorTimeout",
            "allowPartialResults", "allowDiskUse", "ordered", "bypassDocumentValidation", "new", "upsert",
            "remove", "nameOnly", "authorizedDatabases", "authorizedCollections"]
  }

  /** The value of an option; filters, expressions, pipelines and updates are looked into as parts. */
  predicate OptionRule(key: string, x: Value)
  {
    if key == "$db" then true
    else if key == "lsid" then Lsid(x)
    else if key == "$readPreference" then ReadPreferenceRule(x)
    else if key == "maxTimeMS" then Between(x, 0, 2147483647)
    else if key in ["batchSize", "skip", "limit"] then Between(x, 0, 9223372036854775807)
    else if Flag(key) then x.Bool?
    else FurtherOption(key, x)
  }

  predicate ReadPreferenceRule(x: Value)
  {
    Lone(x, "mode") && x.fields[0].value.String? &&
    x.fields[0].value.text in ["primary", "primaryPreferred", "secondary", "secondaryPreferred", "nearest"]
  }

  predicate Common(key: string)
  {
    key in ["$db", "lsid", "$readPreference", "maxTimeMS", "batchSize", "skip", "limit"] || Flag(key)
  }

  predicate FurtherOption(key: string, x: Value)
  {
    if key in ["filter", "query"] || key in ["projection", "fields"] then true
    else if key == "sort" then Order(x)
    else if key == "hint" then HintRule(x)
    else if key in ["min", "max"] then Plain(x)
    else if key == "let" then true
    else if key == "readConcern" then ReadConcernRule(x)
    else if key == "writeConcern" then WriteConcernRule(x)
    else if key == "cursor" then CursorRule(x)
    else LastOption(key, x)
  }

  predicate LastOption(key: string, x: Value)
  {
    if key == "pipeline" then true
    else if key == "documents" then DocumentsRule(x)
    else if key == "updates" || key == "deletes" || key == "update" || key == "arrayFilters" then true
    else if key == "key" then Named(x)
    else if key == "collection" then Collection(x)
    else key == "cursors" && CursorsRule(x)
  }

  predicate CursorRule(x: Value)
  {
    Object(x, ["batchSize"]) && forall i :: 0 <= i < |x.fields| ==> Between(x.fields[i].value, 0, 2147483647)
  }

  predicate DocumentsRule(x: Value)
  {
    x.Array? && x.items != [] && forall j :: 0 <= j < |x.items| ==> x.items[j].Document?
  }

  predicate CursorsRule(x: Value) { x.Array? && forall j :: 0 <= j < |x.items| ==> Whole(x.items[j]) }

  predicate ReadConcernRule(x: Value)
  {
    && Object(x, ["level", "afterClusterTime"])
    && forall i :: 0 <= i < |x.fields| ==>
      && (x.fields[i].key == "level" ==>
            x.fields[i].value in {String("local"), String("majority"), String("available"), String("linearizable")})
      && (x.fields[i].key == "afterClusterTime" ==> x.fields[i].value.Timestamp?)
  }

  predicate WriteConcernRule(x: Value)
  {
    && Object(x, ["w", "j", "wtimeout"])
    && forall i :: 0 <= i < |x.fields| ==>
      var key, y := x.fields[i].key, x.fields[i].value;
      && (key == "w" ==> y == String("majority") || Between(y, 1, 2147483647))
      && (key == "j" ==> y.Bool?)
      && (key == "wtimeout" ==> Between(y, 0, 2147483647))
  }

  // ----------------------------------------------------------- the rule of a position

  predicate ConditionRule(v: Value)
  {
    v.Document? && Tests(v.fields) ==>
      UniqueKeys(v.fields) && forall i :: 0 <= i < |v.fields| ==> TestRule(v.fields, i)
  }

  predicate BindingRule(v: Value) { Plain(v) && forall i :: 0 <= i < |v.fields| ==> Variable(v.fields[i].key) }

  /** A projection; that of a find may also cut lists. */
  predicate SliceRule(find: bool, v: Value)
  {
    Plain(v) &&
    forall i :: 0 <= i < |v.fields| && find && Lone(v.fields[i].value, "$slice") ==>
      var x := v.fields[i].value.fields[0].value;
      if x.Array? then |x.items| == 2 && Whole(x.items[0]) && Between(x.items[1], 1, 2147483647) else Whole(x)
  }

  /** What may stand at a position, whatever stands below it. */
  predicate Rule(role: Role, v: Value)
  {
    match role
    case FilterRole => FilterRule(v)
    case FilterListRole => v.Array? && v.items != []
    case ConditionRole => ConditionRule(v)
    case ElementRole => v.Document?
    case ExpressionRole => ExpressionRule(v)
    case OperatorRole(op) => OperatorRule(op, v)
    case BindingsRole => BindingRule(v)
    case ProjectionRole(find) => SliceRule(find, v)
    case PipelineRole(_) => v.Array?
    case StageRole(update) => StageRule(update, v)
    case UpdateRole => UpdateRule(v)
    case WriteListRole(_) => v.Array? && v.items != []
    case WriteRole(update) => WriteRule(v, update)
    case MetadataRole(collections) => ListingRule(v, collections)
    case CommandRole => v.Document? && CommandRule(v.fields)
  }

  // ------------------------------------------------------------- the evaluated parts

  function ItemPart(v: Value, j: nat, role: Role, cost: nat): Option<Node>
  {
    if v.Array? && j < |v.items| then Some(Node(role, v.items[j], cost)) else None
  }

  function FieldPart(v: Value, i: nat, role: Role): Option<Node>
  {
    if v.Document? && i < |v.fields| then Some(Node(role, v.fields[i].value, 1)) else None
  }

  function TestPart(key: string, x: Value, j: nat): Option<Node>
  {
    if key == "$not" && x.Document? && j == 0 then Some(Node(ConditionRole, x, 1))
    else if key == "$elemMatch" && j == 0 then Some(Node(ElementRole, x, 1))
    else if key == "$all" && x.Array? && j < |x.items| && Lone(x.items[j], "$elemMatch") then
      Some(Node(ElementRole, x.items[j].fields[0].value, 1))
    else None
  }

  function ArgumentPart(op: string, key: string, x: Value, j: nat): Option<Node>
  {
    if op == "$switch" && key == "branches" then ItemPart(x, j, ExpressionRole, 1)
    else if j != 0 || key in ["as", "method"] || (op == "$sortArray" && key == "sortBy")
      || (op == "$zip" && key == "useLongestLength") then None
    else if op == "$let" && key == "vars" then Some(Node(BindingsRole, x, 1))
    else Some(Node(ExpressionRole, x, 1))
  }

  function StagePart(key: string, x: Value, i: nat): Option<Node>
  {
    if key == "$match" && i == 0 then Some(Node(FilterRole, x, 1))
    else if key in ["$project", "$set", "$addFields"] && i == 0 then Some(Node(ProjectionRole(false), x, 1))
    else if key in ["$replaceWith", "$sortByCount"] && i == 0 then Some(Node(ExpressionRole, x, 1))
    else if key in ["$group", "$replaceRoot"] then FieldPart(x, i, ExpressionRole)
    else if key == "$facet" then FieldPart(x, i, PipelineRole(false))
    else if key in ["$lookup", "$unionWith"] && i < |Fields(x)| && Fields(x)[i].key == "pipeline" then
      FieldPart(x, i, PipelineRole(false))
    else if key == "$lookup" && i < |Fields(x)| && Fields(x)[i].key == "let" then FieldPart(x, i, BindingsRole)
    else None
  }

  function OptionPart(name: string, key: string, x: Value): Option<Node>
  {
    if Common(key) then None else FurtherPart(name, key, x)
  }

  function FurtherPart(name: string, key: string, x: Value): Option<Node>
  {
    if key in ["filter", "query"] then
      Some(Node(if name in ["listCollections", "listDatabases"] then MetadataRole(name == "listCollections")
                else FilterRole, x, 0))
    else if key in ["projection", "fields"] then Some(Node(ProjectionRole(true), x, 0))
    else if key in ["sort", "hint", "min", "max"] then None
    else if key == "let" then Some(Node(BindingsRole, x, 0))
    else if key in ["readConcern", "writeConcern", "cursor"] then None
    else LastPart(key, x)
  }

  function LastPart(key: string, x: Value): Option<Node>
  {
    if key == "pipeline" then Some(Node(PipelineRole(false), x, 0))
    else if key == "documents" then None
    else if key == "updates" then Some(Node(WriteListRole(true), x, 0))
    else if key == "deletes" then Some(Node(WriteListRole(false), x, 0))
    else if key == "update" then Some(Node(UpdateRole, x, 0))
    else if key == "arrayFilters" then Some(Node(FilterListRole, x, 0))
    else None
  }

  /** The evaluated value at index i (and j inside it), when there is one. */
  function Part(role: Role, v: Value, i: nat, j: nat): Option<Node>
  {
    match role
    case FilterRole =>
      if j != 0 || i >= |Fields(v)| then None
      else if Logic(v.fields[i].key) then FieldPart(v, i, FilterListRole)
      else FieldPart(v, i, if v.fields[i].key == "$expr" then ExpressionRole else ConditionRole)
    case FilterListRole => if j == 0 then ItemPart(v, i, FilterRole, 1) else None
    case ConditionRole =>
      if i < |Fields(v)| && Tests(v.fields) then TestPart(v.fields[i].key, v.fields[i].value, j) else None
    case ElementRole =>
      if !v.Document? || i != 0 || j != 0 then None
      else Some(Node(if OnElement(v.fields) then ConditionRole else FilterRole, v, 1))
    case ExpressionRole =>
      if j != 0 || Lone(v, "$literal") then None
      else if v.Array? then ItemPart(v, i, ExpressionRole, 1)
      else if |Fields(v)| == 1 && Starts(v.fields[0].key) then FieldPart(v, i, OperatorRole(v.fields[0].key))
      else FieldPart(v, i, ExpressionRole)
    case OperatorRole(op) =>
      if Naming(op, v).Some? then
        if i < |Fields(v)| then ArgumentPart(op, v.fields[i].key, v.fields[i].value, j) else None
      else if op == "$count" || i != 0 || j != 0 then None
      else Some(Node(ExpressionRole, v, 1))
    case BindingsRole => if j == 0 then FieldPart(v, i, ExpressionRole) else None
    case ProjectionRole(find) =>
      if j != 0 || i >= |Fields(v)| || (find && Lone(v.fields[i].value, "$slice")) then None
      else if find && Lone(v.fields[i].value, "$elemMatch") then
        Some(Node(ElementRole, v.fields[i].value.fields[0].value, 1))
      else FieldPart(v, i, ExpressionRole)
    case PipelineRole(update) => if j == 0 then ItemPart(v, i, StageRole(update), 0) else None
    case StageRole(_) =>
      if j == 0 && |Fields(v)| == 1 then StagePart(v.fields[0].key, v.fields[0].value, i) else None
    case UpdateRole =>
      if v.Array? then if i == 0 && j == 0 then Some(Node(PipelineRole(true), v, 1)) else None
      else if i < |Fields(v)| && v.fields[i].key == "$pull" && j < |Fields(v.fields[i].value)|
        && v.fields[i].value.fields[j].value.Document? then
        Some(Node(ElementRole, v.fields[i].value.fields[j].value, 1))
      else None
    case WriteListRole(update) => if j == 0 then ItemPart(v, i, WriteRole(update), 0) else None
    case WriteRole(update) =>
      if j != 0 || i >= |Fields(v)| then None
      else if v.fields[i].key == "q" then Some(Node(FilterRole, v.fields[i].value, 0))
      else if update && v.fields[i].key == "u" then Some(Node(UpdateRole, v.fields[i].value, 0))
      else if update && v.fields[i].key == "arrayFilters" then Some(Node(FilterListRole, v.fields[i].value, 0))
      else None
    case MetadataRole(collections) =>
      if i < |Fields(v)| && v.fields[i].key in ["$and", "$or"] then
        ItemPart(v.fields[i].value, j, MetadataRole(collections), 1)
      else None
    case CommandRole =>
      if 0 < i < |Fields(v)| && j == 0 then OptionPart(v.fields[0].key, v.fields[i].key, v.fields[i].value) else None
  }
}
