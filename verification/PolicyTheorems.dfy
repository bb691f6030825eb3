/** What acceptance by the policy means for every evaluated position, at any nesting. */
module PolicyTheorems {
  import opened Values
  import opened PolicyTables
  import opened Policy
  import opened Positions
  import opened PolicyUnfold

  datatype Step = Step(i: nat, j: nat)

  type Path = seq<Step>

  /** The position that a path reaches, with the depth of all steps; None when the path leaves the command. */
  function At(role: Role, v: Value, path: Path): Option<Node>
    decreases path
  {
    if path == [] then Some(Node(role, v, 0))
    else
      match Child(role, v, path[0].i, path[0].j)
      case None => None
      case Some(n) =>
        match At(n.role, n.value, path[1..])
        case None => None
        case Some(m) => Some(Node(m.role, m.value, n.cost + m.cost))
  }

  lemma AtChild(role: Role, v: Value, i: nat, j: nat, path: Path)
    requires Child(role, v, i, j).Some?
    ensures var n := Child(role, v, i, j).value;
            At(role, v, [Step(i, j)] + path) ==
            match At(n.role, n.value, path)
            case None => None
            case Some(m) => Some(Node(m.role, m.value, n.cost + m.cost))
  {
    hide Child;
    assert ([Step(i, j)] + path)[1..] == path;
  }

  predicate NodeOK(n: Node, depth: nat)
  {
    Local(n.role, n.value) && (Bounded(n.role) ==> depth + n.cost <= 64)
  }

  ghost predicate EverywhereOK(role: Role, v: Value, depth: nat)
  {
    forall path: Path :: At(role, v, path).Some? ==> NodeOK(At(role, v, path).value, depth)
  }

  /** Whole commands and their write lists are checked from depth zero only. */
  predicate Rooted(role: Role, depth: nat)
  {
    role.CommandRole? || role.WriteRole? || role.WriteListRole? ==> depth == 0
  }

  lemma ChildRooted(role: Role, v: Value, depth: nat, i: nat, j: nat)
    requires Rooted(role, depth) && Child(role, v, i, j).Some?
    ensures var n := Child(role, v, i, j).value; Rooted(n.role, depth + n.cost)
  {
    hide FormOf, StageOf, FilterKeyOf, VerbOf, SlotOf, ConditionKeyOf, OptionKindOf;
  }

  /** What is accepted is accepted at every position, in its role and at its depth. */
  lemma {:induction false} AcceptedAt(role: Role, v: Value, depth: nat, path: Path)
    requires Accepts(role, v, depth) && At(role, v, path).Some?
    ensures var n := At(role, v, path).value; Accepts(n.role, n.value, depth + n.cost)
    decreases |path|
  {
    hide Accepts, Local, Child;
    if path != [] {
      Unfold(role, v, depth);
      var n := Child(role, v, path[0].i, path[0].j).value;
      AcceptedAt(n.role, n.value, depth + n.cost, path[1..]);
    }
  }

  lemma AcceptedPosition(role: Role, v: Value, depth: nat, path: Path)
    requires Accepts(role, v, depth) && At(role, v, path).Some?
    ensures NodeOK(At(role, v, path).value, depth)
  {
    hide Accepts, Local, At;
    AcceptedAt(role, v, depth, path);
    var n := At(role, v, path).value;
    Unfold(n.role, n.value, depth + n.cost);
  }

  lemma {:induction false} AcceptedFromPositions(role: Role, v: Value, depth: nat)
    requires EverywhereOK(role, v, depth) && Rooted(role, depth)
    ensures Accepts(role, v, depth)
    decreases v, Rank(role)
  {
    hide Accepts, Local, Child;
    assert NodeOK(At(role, v, []).value, depth);
    forall i: nat, j: nat | Child(role, v, i, j).Some?
      ensures var n := Child(role, v, i, j).value; Accepts(n.role, n.value, depth + n.cost)
    {
      var n := Child(role, v, i, j).value;
      ChildIsSmaller(role, v, i, j);
      ChildRooted(role, v, depth, i, j);
      forall path: Path | At(n.role, n.value, path).Some?
        ensures NodeOK(At(n.role, n.value, path).value, depth + n.cost)
      {
        AtChild(role, v, i, j, path);
        assert NodeOK(At(role, v, [Step(i, j)] + path).value, depth);
      }
      AcceptedFromPositions(n.role, n.value, depth + n.cost);
    }
    Unfold(role, v, depth);
  }

  /**
   * The policy accepts a value exactly when every position the server evaluates inside it, at any nesting,
   * satisfies the whitelist by itself and lies within the depth limit.
   */
  lemma AcceptedIffEverywhere(role: Role, v: Value, depth: nat)
    requires Rooted(role, depth)
    ensures Accepts(role, v, depth) <==> EverywhereOK(role, v, depth)
  {
    hide Accepts, NodeOK, At;
    if Accepts(role, v, depth) {
      forall path: Path | At(role, v, path).Some? ensures NodeOK(At(role, v, path).value, depth) {
        AcceptedPosition(role, v, depth, path);
      }
    }
    if EverywhereOK(role, v, depth) {
      AcceptedFromPositions(role, v, depth);
    }
  }

  /** Acceptance is downward closed in the depth already used. */
  lemma AcceptedShallower(role: Role, v: Value, depth: nat, less: nat)
    requires less <= depth && Rooted(role, depth) && Accepts(role, v, depth)
    ensures Accepts(role, v, less)
  {
    hide Accepts, Local, At;
    AcceptedIffEverywhere(role, v, depth);
    forall path: Path | At(role, v, path).Some? ensures NodeOK(At(role, v, path).value, less) {
      assert NodeOK(At(role, v, path).value, depth);
    }
    AcceptedIffEverywhere(role, v, less);
  }

  /** A whole command: the same, read on mongoCheckCommand. */
  lemma CommandAcceptedIffEverywhere(doc: Doc)
    ensures CommandOK(doc) <==> EverywhereOK(CommandRole, Document(doc), 0)
  {
    hide CommandOK, EverywhereOK;
    AcceptedIffEverywhere(CommandRole, Document(doc), 0);
  }

  /**
   * In particular, every expression that an accepted command evaluates, at any nesting: a string refers to permitted
   * variables only, and an operator is one of the whitelist with its declared arity and its required fields.
   */
  lemma EvaluatedExpressions(doc: Doc, path: Path)
    requires CommandOK(doc) && At(CommandRole, Document(doc), path).Some?
    requires At(CommandRole, Document(doc), path).value.role == ExpressionRole
    ensures var v := At(CommandRole, Document(doc), path).value.value;
            && (v.String? ==> ExpressionText(v.text))
            && (v.Document? && |v.fields| == 1 && Dollar(v.fields[0].key) && v.fields[0].key != "$literal" ==>
                  FormOf(v.fields[0].key) != Forbidden && OperatorShape(v.fields[0].key, v.fields[0].value))
  {
    hide At, CommandOK, Accepts, FormOf, OperatorShape, Child, SlotOf;
    CommandRoleAccepts(doc);
    AcceptedAt(CommandRole, Document(doc), 0, path);
    var n := At(CommandRole, Document(doc), path).value;
    Unfold(ExpressionRole, n.value, n.cost);
    var v := n.value;
    if v.Document? && |v.fields| == 1 && Dollar(v.fields[0].key) && v.fields[0].key != "$literal" {
      var op, x := v.fields[0].key, v.fields[0].value;
      OperatorBelow(v);
      Unfold(OperatorRole(op), x, n.cost + 1);
      OperatorIsKnown(op, x);
    }
  }

  lemma CommandRoleAccepts(doc: Doc)
    requires CommandOK(doc)
    ensures Accepts(CommandRole, Document(doc), 0)
  {
    hide CommandOK;
  }

  lemma OperatorBelow(v: Value)
    requires v.Document? && |v.fields| == 1 && Dollar(v.fields[0].key) && v.fields[0].key != "$literal"
    ensures Child(ExpressionRole, v, 0, 0) == Some(Node(OperatorRole(v.fields[0].key), v.fields[0].value, 1))
  {
  }

  lemma OperatorIsKnown(op: string, x: Value)
    requires Local(OperatorRole(op), x)
    ensures FormOf(op) != Forbidden && OperatorShape(op, x)
  {
    hide FormOf, SlotOf;
  }

  // ------------------------------------------------------------- what never gets through

  predicate UnsafeFilterKey(key: string) { key in ["$where", "$text", "$jsonSchema"] }

  lemma UnsafeFilterKeys(key: string)
    requires UnsafeFilterKey(key)
    ensures FilterKeyOf(key) == PathKey && !PlainName(key)
  {
  }

  lemma UserRolesIsNoVariable()
    ensures !SystemVariable("USER_ROLES") && !VariableIdentifier("USER_ROLES")
  {
  }

  /** A reference to a variable, by itself or with a path behind it. */
  predicate RefersTo(v: Value, variable: string)
  {
    v.String? && |v.text| >= 2 && v.text[0] == '$' && v.text[1] == '$' && Head(v.text[2..]) == variable
  }

  /**
   * At no nesting of an accepted command is any of these evaluated: a stage that writes, watches or inspects the
   * server; an operator that runs code or reads a field by a computed name; a filter that runs code; the variable
   * that names the proxy's own roles, or any path into it.
   */
  lemma NeverEvaluated(doc: Doc, path: Path)
    requires CommandOK(doc) && At(CommandRole, Document(doc), path).Some?
    ensures var n := At(CommandRole, Document(doc), path).value;
            && (n.role.StageRole? && n.value.Document? && |n.value.fields| == 1 ==> !UnsafeStage(n.value.fields[0].key))
            && (n.role == ExpressionRole && n.value.Document? && |n.value.fields| == 1 ==>
                  !UnsafeOperator(n.value.fields[0].key))
            && (n.role == ExpressionRole ==> !RefersTo(n.value, "USER_ROLES"))
            && (n.role == FilterRole && n.value.Document? ==>
                  forall i :: 0 <= i < |n.value.fields| ==> !UnsafeFilterKey(n.value.fields[i].key))
  {
    hide At, CommandOK, Accepts, FormOf, OperatorShape, UnsafeStage, UnsafeOperator, UnsafeFilterKey, StageOf,
         FilterKeyOf, PlainName, Head, SystemVariable, VariableIdentifier;
    CommandRoleAccepts(doc);
    var n := At(CommandRole, Document(doc), path).value;
    AcceptedPosition(CommandRole, Document(doc), 0, path);
    if n.role.StageRole? {
      if UnsafeStage(n.value.fields[0].key) { UnsafeStagesAreUnknown(n.value.fields[0].key); }
    } else if n.role == ExpressionRole {
      EvaluatedExpressions(doc, path);
      UserRolesIsNoVariable();
      if n.value.Document? && |n.value.fields| == 1 && UnsafeOperator(n.value.fields[0].key) {
        UnsafeLooks(n.value.fields[0].key);
        UnsafeOperatorsAreForbidden(n.value.fields[0].key);
      }
    } else if n.role == FilterRole {
      forall i | 0 <= i < |n.value.fields| ensures !UnsafeFilterKey(n.value.fields[i].key) {
        if UnsafeFilterKey(n.value.fields[i].key) { UnsafeFilterKeys(n.value.fields[i].key); }
      }
    }
  }

  lemma UnsafeLooks(op: string)
    requires UnsafeOperator(op)
    ensures Dollar(op) && op != "$literal"
  {
  }
}
