/** Which collections a command can touch, and the walk that collects them. */
module Namespaces {
  import opened Values
  import opened PolicyTables
  import opened Policy
  import opened Positions
  import opened PolicyUnfold
  import opened PolicyTheorems

  datatype Namespace = Namespace(database: string, collection: string)

  // ----------------------------------------------- the reference: evaluated positions

  function NameIn(v: Value): Option<string>
  {
    if v.String? then Some(v.text) else None
  }

  /** The other collection that a pipeline stage reads, when it reads one. */
  function Names(role: Role, v: Value): Option<string>
  {
    if !role.StageRole? || !v.Document? || |v.fields| != 1 then None
    else
      var x := v.fields[0].value;
      match StageOf(v.fields[0].key)
      case LookupStage => if x.Document? then NameIn(Get(x.fields, "from")) else None
      case UnionStage =>
        if x.String? then Some(x.text)
        else if x.Document? then NameIn(Get(x.fields, "coll"))
        else None
      case _ => None
  }

  /** The collection the command itself works on. */
  function MainCollection(doc: Doc): Option<string>
  {
    if doc == [] then None
    else
      match VerbOf(doc[0].key)
      case Find | Aggregate | Count | Distinct | KillCursors | Insert | Update | Delete | FindAndModify
         | ListIndexes => NameIn(doc[0].value)
      case GetMore => NameIn(Get(doc, "collection"))
      case _ => None
  }

  ghost predicate NamedBelow(role: Role, v: Value, c: string)
  {
    exists path: Path :: At(role, v, path).Some? &&
      Names(At(role, v, path).value.role, At(role, v, path).value.value) == Some(c)
  }

  /** The collection is the command's own, or some evaluated position at some nesting names it. */
  ghost predicate Touches(doc: Doc, c: string)
  {
    MainCollection(doc) == Some(c) || NamedBelow(CommandRole, Document(doc), c)
  }

  // --------------------------------------------------- the uses, in the walk's order

  function OptionSeq(o: Option<string>): seq<string>
  {
    if o.Some? then [o.value] else []
  }

  function ItemUses(items: seq<Value>): seq<string>
    decreases items
  {
    if items == [] then [] else StageUses(items[0]) + ItemUses(items[1..])
  }

  function PipelineUses(v: Value): seq<string>
    decreases v, 1
  {
    if v.Array? then ItemUses(v.items) else []
  }

  /** The uses in the sub-pipelines held by `fields`: all of them for a facet, else that of `pipeline`. */
  function FieldUses(d: Doc, facet: bool): seq<string>
    decreases d
  {
    if d == [] then []
    else (if facet || d[0].key == "pipeline" then PipelineUses(d[0].value) else []) + FieldUses(d[1..], facet)
  }

  function StageUses(v: Value): seq<string>
    decreases v, 2
  {
    if !v.Document? || |v.fields| != 1 then []
    else
      var x := v.fields[0].value;
      OptionSeq(Names(StageRole(false), v)) +
      match StageOf(v.fields[0].key)
      case LookupStage => if x.Document? then FieldUses(x.fields, false) else []
      case UnionStage => if x.Document? then FieldUses(x.fields, false) else []
      case FacetStage => if x.Document? then FieldUses(x.fields, true) else []
      case _ => []
  }

  /** Every use of a collection by the command, repeated uses included, in the order of the walk. */
  function Uses(doc: Doc): seq<string>
  {
    OptionSeq(MainCollection(doc)) +
    (if doc != [] && VerbOf(doc[0].key) == Aggregate then PipelineUses(Get(doc, "pipeline")) else [])
  }

  // ------------------------------------------ uses are the named positions, and only they

  lemma {:induction false} ItemUsesAt(items: seq<Value>, i: nat)
    requires i < |items|
    ensures forall c :: c in StageUses(items[i]) ==> c in ItemUses(items)
  {
    hide StageUses;
    if i > 0 {
      ItemUsesAt(items[1..], i - 1);
    }
  }

  lemma {:induction false} ItemUsesFrom(items: seq<Value>, c: string) returns (i: nat)
    requires c in ItemUses(items)
    ensures i < |items| && c in StageUses(items[i])
  {
    hide StageUses;
    if c in StageUses(items[0]) {
      i := 0;
    } else {
      var j := ItemUsesFrom(items[1..], c);
      i := j + 1;
    }
  }

  predicate Carries(key: string, facet: bool) { facet || key == "pipeline" }

  lemma {:induction false} FieldUsesAt(d: Doc, facet: bool, i: nat)
    requires i < |d| && Carries(d[i].key, facet)
    ensures forall c :: c in PipelineUses(d[i].value) ==> c in FieldUses(d, facet)
  {
    hide PipelineUses;
    if i > 0 {
      FieldUsesAt(d[1..], facet, i - 1);
    }
  }

  lemma {:induction false} FieldUsesFrom(d: Doc, facet: bool, c: string) returns (i: nat)
    requires c in FieldUses(d, facet)
    ensures i < |d| && Carries(d[i].key, facet) && c in PipelineUses(d[i].value)
  {
    hide PipelineUses;
    if Carries(d[0].key, facet) && c in PipelineUses(d[0].value) {
      i := 0;
    } else {
      var j := FieldUsesFrom(d[1..], facet, c);
      i := j + 1;
    }
  }

  /** A position below a child is a position below its parent. */
  lemma NamedBelowChild(role: Role, v: Value, i: nat, j: nat, c: string)
    requires Child(role, v, i, j).Some?
    requires var n := Child(role, v, i, j).value; NamedBelow(n.role, n.value, c)
    ensures NamedBelow(role, v, c)
  {
    hide Child, Names, At;
    var n := Child(role, v, i, j).value;
    var path: Path :| At(n.role, n.value, path).Some? &&
      Names(At(n.role, n.value, path).value.role, At(n.role, n.value, path).value.value) == Some(c);
    AtChild(role, v, i, j, path);
    assert At(role, v, [Step(i, j)] + path).Some?;
  }

  lemma NamedHere(role: Role, v: Value, c: string)
    requires Names(role, v) == Some(c)
    ensures NamedBelow(role, v, c)
  {
    hide Names, Child;
    assert At(role, v, []) == Some(Node(role, v, 0));
  }

  lemma {:induction false} PipelineUseIsNamed(v: Value, c: string)
    requires c in PipelineUses(v)
    ensures NamedBelow(PipelineRole(false), v, c)
    decreases v, 1
  {
    hide StageUses, NamedBelow, FormOf, FilterKeyOf, StageOf, OptionKindOf;
    var i := ItemUsesFrom(v.items, c);
    StageUseIsNamed(v.items[i], c);
    assert Child(PipelineRole(false), v, i, 0) == Some(Node(StageRole(false), v.items[i], 0));
    NamedBelowChild(PipelineRole(false), v, i, 0, c);
  }

  lemma {:induction false} StageUseIsNamed(v: Value, c: string)
    requires c in StageUses(v)
    ensures NamedBelow(StageRole(false), v, c)
    decreases v, 0
  {
    hide NamedBelow, FormOf, FilterKeyOf, StageOf, OptionKindOf, FieldUses, Names;
    if Names(StageRole(false), v) == Some(c) {
      NamedHere(StageRole(false), v, c);
    } else {
      var x := v.fields[0].value;
      var facet := StageOf(v.fields[0].key) == FacetStage;
      var i := FieldUsesFrom(x.fields, facet, c);
      PipelineUseIsNamed(x.fields[i].value, c);
      assert Child(StageRole(false), v, i, 0) == Some(Node(PipelineRole(false), x.fields[i].value, 1));
      NamedBelowChild(StageRole(false), v, i, 0, c);
    }
  }

  // ------------------------------------------------------- and no position escapes

  /** Roles below which no other collection can be read. */
  predicate Quiet(role: Role)
  {
    !role.CommandRole? && role != PipelineRole(false) && role != StageRole(false)
  }

  lemma QuietChild(role: Role, v: Value, i: nat, j: nat)
    requires Quiet(role) && Local(role, v) && Child(role, v, i, j).Some?
    ensures Quiet(Child(role, v, i, j).value.role)
  {
    hide FormOf, FilterKeyOf, StageOf, OptionKindOf, ConditionKeyOf, SlotOf, VerbOf, ModifierOf, UpdateStage,
         CommandHead;
    if role.StageRole? {
      UpdateStageKinds(v.fields[0].key);
    }
  }

  lemma QuietNames(role: Role, v: Value)
    requires Quiet(role) && Local(role, v)
    ensures Names(role, v) == None
  {
    hide FormOf, FilterKeyOf, StageOf, OptionKindOf, ConditionKeyOf, SlotOf, VerbOf, ModifierOf, UpdateStage,
         CommandHead;
    if role.StageRole? {
      UpdateStageKinds(v.fields[0].key);
    }
  }

  lemma {:induction false} NothingNamedBelowQuiet(role: Role, v: Value, depth: nat, path: Path)
    requires Quiet(role) && Accepts(role, v, depth) && At(role, v, path).Some?
    ensures var n := At(role, v, path).value; Names(n.role, n.value) == None
    decreases path
  {
    hide Accepts, Local, Child, Names;
    Unfold(role, v, depth);
    if path == [] {
      QuietNames(role, v);
    } else {
      QuietChild(role, v, path[0].i, path[0].j);
      var n := Child(role, v, path[0].i, path[0].j).value;
      NothingNamedBelowQuiet(n.role, n.value, depth + n.cost, path[1..]);
    }
  }

  /** What a name found below a pipeline or a stage means for the list of uses. */
  lemma {:induction false} NamedIsUsed(role: Role, v: Value, depth: nat, path: Path, c: string)
    requires role == PipelineRole(false) || role == StageRole(false)
    requires Accepts(role, v, depth) && At(role, v, path).Some?
    requires Names(At(role, v, path).value.role, At(role, v, path).value.value) == Some(c)
    ensures c in (if role.PipelineRole? then PipelineUses(v) else StageUses(v))
    decreases path
  {
    hide Accepts, Local, Child, Names, StageUses, PipelineUses, At;
    Unfold(role, v, depth);
    if path == [] {
      AtRoot(role, v);
      NamesOnlyStages(role, v);
      OwnNameIsUsed(v, c);
    } else {
      AtStep(role, v, path);
      var n := Child(role, v, path[0].i, path[0].j).value;
      if Quiet(n.role) {
        NothingNamedBelowQuiet(n.role, n.value, depth + n.cost, path[1..]);
      } else {
        LoudChild(role, v, path[0].i, path[0].j);
        NamedIsUsed(n.role, n.value, depth + n.cost, path[1..], c);
        ChildUsesAreUsed(role, v, path[0].i, path[0].j, c);
      }
    }
  }

  lemma AtRoot(role: Role, v: Value)
    ensures At(role, v, []) == Some(Node(role, v, 0))
  {
    hide Child;
  }

  lemma AtStep(role: Role, v: Value, path: Path)
    requires path != [] && At(role, v, path).Some?
    ensures Child(role, v, path[0].i, path[0].j).Some?
    ensures var n := Child(role, v, path[0].i, path[0].j).value;
            && At(n.role, n.value, path[1..]).Some?
            && At(n.role, n.value, path[1..]).value.role == At(role, v, path).value.role
            && At(n.role, n.value, path[1..]).value.value == At(role, v, path).value.value
  {
    hide Child;
  }

  lemma NamesOnlyStages(role: Role, v: Value)
    requires Names(role, v).Some?
    ensures role.StageRole?
  {
  }

  lemma OwnNameIsUsed(v: Value, c: string)
    requires Names(StageRole(false), v) == Some(c)
    ensures c in StageUses(v)
  {
    hide StageOf, FormOf, FilterKeyOf;
    assert v.Document? && |v.fields| == 1;
    assert StageUses(v)[0] == c;
  }

  lemma LoudChild(role: Role, v: Value, i: nat, j: nat)
    requires role == PipelineRole(false) || role == StageRole(false)
    requires Child(role, v, i, j).Some? && !Quiet(Child(role, v, i, j).value.role)
    ensures var n := Child(role, v, i, j).value;
            n.role == (if role.PipelineRole? then StageRole(false) else PipelineRole(false))
  {
    hide StageOf, FormOf, FilterKeyOf, OptionKindOf;
  }

  lemma ChildUsesAreUsed(role: Role, v: Value, i: nat, j: nat, c: string)
    requires role == PipelineRole(false) || role == StageRole(false)
    requires Child(role, v, i, j).Some?
    requires var n := Child(role, v, i, j).value;
             if role.PipelineRole? then c in StageUses(n.value)
             else n.role == PipelineRole(false) && c in PipelineUses(n.value)
    ensures c in (if role.PipelineRole? then PipelineUses(v) else StageUses(v))
  {
    hide StageOf, FormOf, FilterKeyOf, OptionKindOf, Names, ItemUses, FieldUses;
    if role.PipelineRole? {
      ItemUsesAt(v.items, i);
    } else {
      var x := v.fields[0].value;
      FieldUsesAt(x.fields, StageOf(v.fields[0].key) == FacetStage, i);
    }
  }

  lemma CommandChild(doc: Doc, i: nat, j: nat)
    requires CommandOK(doc) && Child(CommandRole, Document(doc), i, j).Some?
    ensures var n := Child(CommandRole, Document(doc), i, j).value;
            Quiet(n.role) ||
            (n.role == PipelineRole(false) && VerbOf(doc[0].key) == Aggregate && n.value == Get(doc, "pipeline"))
  {
    hide FormOf, FilterKeyOf, StageOf, OptionKindOf, VerbOf, OptionsOf, CommandOption, CommandArgument, OneEffect,
         DatabaseName, RequiredOf;
    if OptionKindOf(doc[i].key) == PipelineOption {
      assert doc[i].key != doc[0].key;
      assert doc[i].key in OptionsOf(VerbOf(doc[0].key));
      PipelineOnlyInAggregate(VerbOf(doc[0].key), doc[i].key);
      GetAt(doc, i);
    }
  }

  lemma PipelineRequired(doc: Doc)
    requires CommandHead(doc) && VerbOf(doc[0].key) == Aggregate
    ensures Present(doc, "pipeline")
  {
    hide FormOf, FilterKeyOf, StageOf, VerbOf, CommandArgument, OneEffect, DatabaseName, OptionsOf, Pipeline,
         OptionKindOf;
    assert RequiredOf(Aggregate)[0] == "pipeline";
    if !Present(doc, "pipeline") { GetAbsent(doc, "pipeline"); }
  }

  lemma PipelineOptionKind()
    ensures OptionKindOf("pipeline") == PipelineOption
  {
  }

  lemma PipelineChild(doc: Doc) returns (i: nat)
    requires CommandOK(doc) && VerbOf(doc[0].key) == Aggregate
    ensures 0 < i < |doc| && Get(doc, "pipeline") == doc[i].value
    ensures Child(CommandRole, Document(doc), i, 0) == Some(Node(PipelineRole(false), doc[i].value, 0))
    ensures Pipeline(doc[i].value, 0, false)
  {
    hide FormOf, FilterKeyOf, StageOf, VerbOf, CommandHead, Pipeline, OptionKindOf, Present;
    PipelineRequired(doc);
    i := GetFound(doc, "pipeline");
    AggregateIsNotPipeline(doc[0].key);
    PipelineOptionKind();
    assert CommandOption(Aggregate, doc[i].key, doc[i].value);
  }

  lemma AggregateIsNotPipeline(name: string)
    requires VerbOf(name) == Aggregate
    ensures name != "pipeline"
  {
  }

  /** The walk meets exactly the collections that the accepted command can touch. */
  lemma TouchesIffUsed(doc: Doc, c: string)
    requires CommandOK(doc)
    ensures Touches(doc, c) <==> c in Uses(doc)
  {
    hide FormOf, FilterKeyOf, StageOf, VerbOf, PipelineUses, CommandOK, MainCollection, NamedBelow, Pipeline,
         OptionKindOf;
    HeadIsNotEmptyDoc(doc);
    if c in Uses(doc) && MainCollection(doc) != Some(c) {
      var i := PipelineChild(doc);
      PipelineUseIsNamed(doc[i].value, c);
      NamedBelowChild(CommandRole, Document(doc), i, 0, c);
    }
    if NamedBelow(CommandRole, Document(doc), c) {
      NamedInCommand(doc, c);
    }
  }

  lemma HeadIsNotEmptyDoc(doc: Doc)
    requires CommandOK(doc)
    ensures |doc| >= 2
  {
  }

  lemma NamedInCommand(doc: Doc, c: string)
    requires CommandOK(doc) && NamedBelow(CommandRole, Document(doc), c)
    ensures |doc| > 0 && VerbOf(doc[0].key) == Aggregate && c in PipelineUses(Get(doc, "pipeline"))
  {
    hide FormOf, FilterKeyOf, StageOf, VerbOf, PipelineUses, CommandOK, Pipeline, OptionKindOf, At, Child, Names,
         OneStep;
    var v := Document(doc);
    var path: Path :| At(CommandRole, v, path).Some? &&
      Names(At(CommandRole, v, path).value.role, At(CommandRole, v, path).value.value) == Some(c);
    AtRoot(CommandRole, v);
    if path == [] {
      NamesOnlyStages(CommandRole, v);
    } else {
      AtStep(CommandRole, v, path);
      var n := Child(CommandRole, v, path[0].i, path[0].j).value;
      CommandChildAccepted(doc, path[0].i, path[0].j);
      CommandChild(doc, path[0].i, path[0].j);
      if Quiet(n.role) {
        NothingNamedBelowQuiet(n.role, n.value, 0, path[1..]);
      } else {
        NamedIsUsed(n.role, n.value, 0, path[1..], c);
        HeadIsNotEmptyDoc(doc);
      }
    }
  }

  lemma CommandChildAccepted(doc: Doc, i: nat, j: nat)
    requires CommandOK(doc) && Child(CommandRole, Document(doc), i, j).Some?
    ensures var n := Child(CommandRole, Document(doc), i, j).value; n.cost == 0 && Accepts(n.role, n.value, 0)
  {
    hide FormOf, FilterKeyOf, StageOf, VerbOf, CommandOK, Pipeline, OptionKindOf, Child, Local;
    CostsNothing(Document(doc));
    UnfoldCommand(Document(doc));
  }

  // ------------------------------------------------------------------- the walk itself

  function AddNew(result: seq<Namespace>, ns: Namespace): seq<Namespace>
  {
    if ns in result then result else result + [ns]
  }

  function AddAll(db: string, result: seq<Namespace>, uses: seq<string>): seq<Namespace>
    decreases |uses|
  {
    if uses == [] then result else AddAll(db, AddNew(result, Namespace(db, uses[0])), uses[1..])
  }

  lemma {:induction false} AddAllSplit(db: string, result: seq<Namespace>, a: seq<string>, b: seq<string>)
    ensures AddAll(db, result, a + b) == AddAll(db, AddAll(db, result, a), b)
    decreases |a|
  {
    if a == [] {
      assert a + b == b;
    } else {
      assert (a + b)[1..] == a[1..] + b;
      AddAllSplit(db, AddNew(result, Namespace(db, a[0])), a[1..], b);
    }
  }

  method Add(result: seq<Namespace>, ns: Namespace) returns (r: seq<Namespace>)
    ensures r == AddNew(result, ns)
  {
    for i := 0 to |result|
      invariant ns !in result[..i]
    {
      if result[i] == ns {
        return result;
      }
    }
    assert result[..|result|] == result;
    return result + [ns];
  }

  /** The recursive walk; every access below is one of its unchecked type assertions. */
  method Walk(db: string, pipeline: Value, ghost depth: nat, result: seq<Namespace>) returns (r: seq<Namespace>)
    requires Pipeline(pipeline, depth, false)
    ensures r == AddAll(db, result, PipelineUses(pipeline))
    decreases pipeline, 1
  {
    hide FormOf, FilterKeyOf, StageOf, VerbOf, OptionKindOf, StageUses, Stage, AddAll;
    r := result;
    var items := pipeline.items;
    for k := 0 to |items|
      invariant AddAll(db, result, ItemUses(items)) == AddAll(db, r, ItemUses(items[k..]))
    {
      var before := r;
      r := WalkStage(db, items[k], depth, before);
      assert ItemUses(items[k..]) == StageUses(items[k]) + ItemUses(items[k + 1..]);
      AddAllSplit(db, before, StageUses(items[k]), ItemUses(items[k + 1..]));
    }
    AddAllNothing(db, r);
    assert ItemUses(items[|items|..]) == [];
  }

  lemma AddAllNothing(db: string, result: seq<Namespace>)
    ensures AddAll(db, result, []) == result
  {
  }

  lemma AddAllOne(db: string, result: seq<Namespace>, c: string)
    ensures AddAll(db, result, [c]) == AddNew(result, Namespace(db, c))
  {
    assert [c][1..] == [];
  }

  method WalkStage(db: string, v: Value, ghost depth: nat, result: seq<Namespace>) returns (r: seq<Namespace>)
    requires Stage(v, depth, false)
    ensures r == AddAll(db, result, StageUses(v))
    decreases v, 2
  {
    hide FormOf, FilterKeyOf, StageOf, VerbOf, OptionKindOf, Pipeline, AddAll, FieldUses, AddNew, Match, Projection,
         Expression, Bindings;
    var x := v.fields[0].value;
    var kind := StageOf(v.fields[0].key);
    if kind == LookupStage {
      var from := Get(x.fields, "from").text;
      r := Add(result, Namespace(db, from));
      AddAllOne(db, result, from);
      assert StageUses(v) == [from] + FieldUses(x.fields, false);
      AddAllSplit(db, result, [from], FieldUses(x.fields, false));
      r := WalkFields(db, x.fields, false, depth + 1, r);
    } else if kind == UnionStage && x.String? {
      r := Add(result, Namespace(db, x.text));
      AddAllOne(db, result, x.text);
      assert StageUses(v) == [x.text];
    } else if kind == UnionStage {
      var coll := Get(x.fields, "coll").text;
      r := Add(result, Namespace(db, coll));
      AddAllOne(db, result, coll);
      assert StageUses(v) == [coll] + FieldUses(x.fields, false);
      AddAllSplit(db, result, [coll], FieldUses(x.fields, false));
      r := WalkFields(db, x.fields, false, depth + 1, r);
    } else if kind == FacetStage {
      assert StageUses(v) == FieldUses(x.fields, true);
      r := WalkFields(db, x.fields, true, depth + 1, result);
    } else {
      AddAllNothing(db, result);
      assert StageUses(v) == [];
      r := result;
    }
  }

  /** The sub-pipelines of a stage: each facet, or the one under `pipeline`. */
  method WalkFields(db: string, d: Doc, facet: bool, ghost depth: nat, result: seq<Namespace>)
    returns (r: seq<Namespace>)
    requires forall i :: 0 <= i < |d| && Carries(d[i].key, facet) ==> Pipeline(d[i].value, depth, false)
    ensures r == AddAll(db, result, FieldUses(d, facet))
    decreases d
  {
    hide FormOf, FilterKeyOf, StageOf, VerbOf, OptionKindOf, Pipeline, AddAll, PipelineUses;
    r := result;
    for k := 0 to |d|
      invariant AddAll(db, result, FieldUses(d, facet)) == AddAll(db, r, FieldUses(d[k..], facet))
    {
      ghost var before := r;
      ghost var own := if Carries(d[k].key, facet) then PipelineUses(d[k].value) else [];
      if Carries(d[k].key, facet) {
        r := Walk(db, d[k].value, depth, r);
      } else {
        AddAllNothing(db, r);
      }
      assert FieldUses(d[k..], facet) == own + FieldUses(d[k + 1..], facet);
      AddAllSplit(db, before, own, FieldUses(d[k + 1..], facet));
    }
    AddAllNothing(db, r);
    assert FieldUses(d[|d|..], facet) == [];
  }

  /** The first index at which `c` is used. */
  function FirstUse(uses: seq<string>, c: string): (k: nat)
    requires c in uses
    ensures k < |uses| && uses[k] == c && c !in uses[..k]
  {
    if uses[0] == c then 0 else 1 + FirstUse(uses[1..], c)
  }

  lemma {:induction false} FirstUsePrefix(uses: seq<string>, more: seq<string>, c: string)
    requires c in uses
    ensures FirstUse(uses + more, c) == FirstUse(uses, c)
  {
    if uses[0] != c {
      assert (uses + more)[1..] == uses[1..] + more;
      FirstUsePrefix(uses[1..], more, c);
    }
  }

  /** The list without repeats, in the order of first use. */
  ghost predicate FirstUseList(db: string, uses: seq<string>, r: seq<Namespace>)
  {
    && (forall i :: 0 <= i < |r| ==> r[i].database == db && r[i].collection in uses)
    && (forall c :: c in uses ==> Namespace(db, c) in r)
    && (forall i, j :: 0 <= i < j < |r| ==> FirstUseBefore(uses, r[i].collection, r[j].collection))
  }

  predicate FirstUseBefore(uses: seq<string>, a: string, b: string)
  {
    a in uses && b in uses && FirstUse(uses, a) < FirstUse(uses, b)
  }

  lemma {:induction false} AddAllIsFirstUseList(db: string, uses: seq<string>)
    ensures FirstUseList(db, uses, AddAll(db, [], uses))
    decreases |uses|
  {
    if uses != [] {
      var init, last := uses[..|uses| - 1], uses[|uses| - 1];
      assert uses == init + [last];
      AddAllIsFirstUseList(db, init);
      AddAllSplit(db, [], init, [last]);
      var r := AddAll(db, [], init);
      AddAllOne(db, r, last);
      FirstUseMore(db, init, last, r);
    }
  }

  lemma FirstUsesStay(uses: seq<string>, last: string)
    ensures forall a, b :: FirstUseBefore(uses, a, b) ==> FirstUseBefore(uses + [last], a, b)
    ensures last !in uses ==> forall a :: a in uses ==> FirstUseBefore(uses + [last], a, last)
  {
    var more := uses + [last];
    assert more[|uses|] == last;
    forall a, b | FirstUseBefore(uses, a, b) ensures FirstUseBefore(more, a, b) {
      FirstUsePrefix(uses, [last], a);
      FirstUsePrefix(uses, [last], b);
    }
    if last !in uses {
      forall a | a in uses ensures FirstUseBefore(more, a, last) {
        FirstUsePrefix(uses, [last], a);
      }
    }
  }

  /** One more use goes to the end of the list, unless it is there. */
  lemma FirstUseMore(db: string, uses: seq<string>, last: string, r: seq<Namespace>)
    requires FirstUseList(db, uses, r)
    ensures FirstUseList(db, uses + [last], AddNew(r, Namespace(db, last)))
  {
    hide FirstUseBefore;
    FirstUsesStay(uses, last);
    if Namespace(db, last) !in r {
      var t := r + [Namespace(db, last)];
      assert last !in uses;
      assert t[|r|] == Namespace(db, last);
      forall i, j | 0 <= i < j < |t| ensures FirstUseBefore(uses + [last], t[i].collection, t[j].collection) {
        assert t[i] == r[i];
        if j < |r| { assert t[j] == r[j]; }
      }
    }
  }

  /** The list itself, as a function of the command. */
  function NamespaceList(doc: Doc): seq<Namespace>
  {
    if CommandOK(doc) && Get(doc, "$db").String? then AddAll(Get(doc, "$db").text, [], Uses(doc)) else []
  }

  lemma DatabaseIsText(doc: Doc)
    requires CommandOK(doc)
    ensures Get(doc, "$db").String? && |doc| >= 2
    ensures DatabaseName(Get(doc, "$db"), AdminVerb(VerbOf(doc[0].key)))
  {
    hide FormOf, FilterKeyOf, StageOf, OptionKindOf, OptionsOf, CommandOption, RequiredOf, OneEffect, CommandArgument,
         VerbOf;
  }

  /** For an accepted command the list holds exactly the collections it can touch, each once, by first use. */
  lemma NamespaceListExact(doc: Doc)
    requires CommandOK(doc)
    ensures Get(doc, "$db").String?
    ensures FirstUseList(Get(doc, "$db").text, Uses(doc), NamespaceList(doc))
    ensures forall c :: Namespace(Get(doc, "$db").text, c) in NamespaceList(doc) <==> Touches(doc, c)
  {
    hide CommandOK, AddAll, Touches, FirstUseList, Uses, DatabaseName;
    DatabaseIsText(doc);
    var db, r := Get(doc, "$db").text, NamespaceList(doc);
    AddAllIsFirstUseList(db, Uses(doc));
    forall c ensures Namespace(db, c) in r <==> Touches(doc, c) {
      TouchesIffUsed(doc, c);
      FirstUseMembers(db, Uses(doc), r, c);
    }
  }

  /**
   * mongoCommandNamespaces: nothing for a rejected command; for an accepted one exactly the collections it can
   * touch at any nesting, in its database, without repeats and in the order of first use.
   */
  method CommandNamespaces(doc: Doc) returns (r: seq<Namespace>)
    ensures r == NamespaceList(doc)
    ensures !CommandOK(doc) ==> r == []
    ensures CommandOK(doc) ==>
              && Get(doc, "$db").String?
              && FirstUseList(Get(doc, "$db").text, Uses(doc), r)
              && forall c :: Namespace(Get(doc, "$db").text, c) in r <==> Touches(doc, c)
  {
    hide FormOf, FilterKeyOf, StageOf, OptionKindOf, Pipeline, AddAll, PipelineUses, Touches, OptionsOf,
         CommandOption, RequiredOf, OneEffect, CommandArgument, FirstUseList;
    r := [];
    if !CommandOK(doc) {
      return;
    }
    var db := Get(doc, "$db").text;
    AddAllNothing(db, r);
    match VerbOf(doc[0].key) {
      case Find | Aggregate | Count | Distinct | KillCursors | Insert | Update | Delete | FindAndModify | ListIndexes =>
        CollectionArgument(doc);
        r := Add(r, Namespace(db, doc[0].value.text));
        AddAllOne(db, [], doc[0].value.text);
      case GetMore =>
        CollectionArgument(doc);
        r := Add(r, Namespace(db, Get(doc, "collection").text));
        AddAllOne(db, [], Get(doc, "collection").text);
      case _ =>
    }
    if VerbOf(doc[0].key) == Aggregate {
      ghost var i := PipelineChild(doc);
      AddAllSplit(db, [], [doc[0].value.text], PipelineUses(Get(doc, "pipeline")));
      r := Walk(db, Get(doc, "pipeline"), 0, r);
    }
    assert VerbOf(doc[0].key) != Aggregate ==> Uses(doc) == OptionSeq(MainCollection(doc));
    assert r == AddAll(db, [], Uses(doc));
    NamespaceListExact(doc);
  }

  lemma CollectionArgument(doc: Doc)
    requires CommandOK(doc)
    ensures (VerbOf(doc[0].key) in {Find, Aggregate, Count, Distinct, KillCursors, Insert, Update, Delete,
                                    FindAndModify, ListIndexes}) ==> CollectionName(doc[0].value)
    ensures VerbOf(doc[0].key) == GetMore ==> CollectionName(Get(doc, "collection"))
  {
    hide FormOf, FilterKeyOf, StageOf, OptionKindOf, Pipeline, VerbOf, CommandOption;
  }

  lemma FirstUseMembers(db: string, uses: seq<string>, r: seq<Namespace>, c: string)
    requires FirstUseList(db, uses, r)
    ensures Namespace(db, c) in r <==> c in uses
  {
  }
}
