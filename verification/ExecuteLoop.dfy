/** execute itself, statement by statement, run without interference: it takes exactly the steps of the machine. */
module ExecuteLoop {
  import opened Values
  import opened PolicyTables
  import opened Policy
  import opened Namespaces
  import opened Registry
  import opened Execute
  import opened Reply
  import opened Interleaving
  import opened Settlement
  import opened Backends

  /** A machine with this one call. */
  function Alone(cursors: Cursors, now: Time, scope: Scope, doc: Request): System
  {
    System(cursors, now, [Call(scope, doc, [], Looking)], [])
  }

  lemma OneMoreStep(s: System, run: seq<Choice>, a: Option<Doc>)
    ensures RunFrom(s, run + [Advance(0, a)]) == Next(RunFrom(s, run), Advance(0, a))
  {
    hide Next;
    assert (run + [Advance(0, a)])[..|run|] == run;
  }

  /** From the reply on, the steps of the machine perform exactly the updates, and end as they end. */
  lemma {:induction false} ActSteps(s: System, run: seq<Choice>, reply: Doc, k: nat) returns (all: seq<Choice>)
    requires |RunFrom(s, run).calls| == 1
    requires var call := RunFrom(s, run).calls[0];
             k <= |Actions(call.doc, call.owners, reply)| && call.phase == Acting(reply, k)
    ensures var t, u := RunFrom(s, run), RunFrom(s, all);
            var call := t.calls[0];
            var rest := Actions(call.doc, call.owners, reply)[k..];
            && u.cursors == AppliedAll(t.cursors, call.scope, rest, t.now)
            && u.calls == [call.(phase := Over(if AllFit(t.cursors, call.scope, rest, t.now)
                                               then Answer(reply, Shown(call, reply)) else Failure))]
    decreases |Actions(RunFrom(s, run).calls[0].doc, RunFrom(s, run).calls[0].owners, reply)| - k
  {
    hide RunFrom, Actions, Fits, Applied, PublicReply, PublicVerb;
    var t := RunFrom(s, run);
    var call := t.calls[0];
    var actions := Actions(call.doc, call.owners, reply);
    OneMoreStep(s, run, None);
    all := run + [Advance(0, None)];
    var u := RunFrom(s, all);
    assert u == Act(t, 0);
    if k == |actions| {
      assert actions[k..] == [];
    } else {
      assert actions[k..][0] == actions[k] && actions[k..][1..] == actions[k + 1..];
      if Fits(t.cursors, call.scope, actions[k], t.now) {
        all := ActSteps(s, all, reply, k + 1);
      }
    }
  }

  /** The machine after the run stands where the code stands. */
  ghost predicate At(s: System, run: seq<Choice>, cursors: Cursors, call: Call)
  {
    var t := RunFrom(s, run);
    t.cursors == cursors && t.now == s.now && t.calls == [call]
  }

  function Queries(list: seq<Namespace>): seq<Doc>
  {
    seq(|list|, i requires 0 <= i < |list| => AllowedQuery(list[i]))
  }

  /** Everything a call may send, in order: the questions, unless it continues metadata cursors, then the command. */
  function Plan(doc: Request, metadata: bool): seq<Doc>
  {
    (if metadata then [] else Queries(NamespaceList(doc))) + [ForwardDoc(doc)]
  }

  function Lone(cursors: Cursors, now: Time, call: Call): System { System(cursors, now, [call], []) }

  /** What one step makes of the call. */
  function Stepped(cursors: Cursors, now: Time, call: Call, answer: Option<Doc>): Call
  {
    var t := Step(Lone(cursors, now, call), 0, answer);
    if |t.calls| > 0 then t.calls[0] else call
  }

  lemma StepAt(s: System, run: seq<Choice>, cursors: Cursors, call: Call, answer: Option<Doc>)
    requires At(s, run, cursors, call) && !call.phase.Acting?
    ensures At(s, run + [Advance(0, answer)], cursors, Stepped(cursors, s.now, call, answer))
  {
    hide RunFrom, CommandOK, Targets, TargetIds, Lookup, Metadata, TargetNamespace, Session, Checked, NamespaceList,
         Judge, BadCursor, ForwardDoc, Actions;
    OneMoreStep(s, run, answer);
  }

  lemma AtStart(s: System, call: Call)
    requires s.calls == [call]
    ensures At(s, [], s.cursors, call)
  {
  }

  lemma DeniedAtOnce(s: System, call: Call) returns (run: seq<Choice>)
    requires s.calls == [call] && call.phase == Looking && Targets(call.doc).None?
    ensures At(s, run, s.cursors, call.(phase := Over(Denial)))
  {
    hide Targets, TargetIds, RunFrom, At, CommandOK;
    AtStart(s, call);
    StepAt(s, [], s.cursors, call, None);
    run := [] + [Advance(0, None)];
  }

  method LookAll(state: TunnelState, scope: Scope, doc: Request, ids: seq<int>, now: Time, ghost s: System)
    returns (owners: Option<seq<Cursor>>, ghost run: seq<Choice>)
    requires Targets(doc) == Some(ids) && s == Alone(state.cursors, now, scope, doc)
    ensures owners.Some? <==> forall i :: 0 <= i < |ids| ==>
              Lookup(state.cursors, scope, ids[i], TargetNamespace(doc), Session(doc), now).Some?
    ensures owners.Some? ==> |owners.value| == |ids| && forall i :: 0 <= i < |ids| ==>
              Lookup(state.cursors, scope, ids[i], TargetNamespace(doc), Session(doc), now) == Some(owners.value[i])
    ensures owners.Some? ==> At(s, run, s.cursors, Call(scope, doc, owners.value, Looking))
    ensures owners.None? ==> exists found :: At(s, run, s.cursors, Call(scope, doc, found, Over(Denial)))
  {
    hide Targets, TargetNamespace, Session, Lookup, RunFrom, At, CommandOK, Metadata;
    var found: seq<Cursor> := [];
    run := [];
    AtStart(s, s.calls[0]);
    assert TargetIds(doc) == ids;
    while |found| < |ids|
      invariant |found| <= |ids|
      invariant forall i :: 0 <= i < |found| ==>
                  Lookup(state.cursors, scope, ids[i], TargetNamespace(doc), Session(doc), now) == Some(found[i])
      invariant At(s, run, s.cursors, Call(scope, doc, found, Looking))
    {
      var owner := state.Find(scope, ids[|found|], TargetNamespace(doc), Session(doc), now);
      StepAt(s, run, s.cursors, Call(scope, doc, found, Looking), None);
      run := run + [Advance(0, None)];
      if owner.None? {
        assert At(s, run, s.cursors, Call(scope, doc, found, Over(Denial)));
        return None, run;
      }
      found := found + [owner.value];
    }
    return Some(found), run;
  }

  /** The questions about the namespaces, one by one; the first answer that is not a plain yes ends the call. */
  method AskAll(backend: Backend, call: Call, now: Time, ghost s: System, ghost before: seq<Choice>)
    returns (outcome: Option<Outcome>, ghost run: seq<Choice>, ghost asked: nat)
    requires call.phase == Asking(0) && At(s, before, s.cursors, call) && s.now == now
    modifies backend
    ensures At(s, run, s.cursors, call.(phase := if outcome.Some? then Over(outcome.value) else Sending))
    ensures outcome.Some? ==> !outcome.value.Answer?
    ensures asked <= |NamespaceList(call.doc)| && (outcome.None? ==> asked == |NamespaceList(call.doc)|)
    ensures backend.sent == old(backend.sent) + Queries(NamespaceList(call.doc)[..asked])
  {
    hide RunFrom, At, CommandOK, NamespaceList, Judge, FirstUseList, Uses, Touches, AddAll, AllowedQuery;
    run := before;
    asked := 0;
    var list := CommandNamespaces(call.doc);
    for i := 0 to |list|
      invariant At(s, run, s.cursors, call.(phase := Asking(i)))
      invariant asked == i && backend.sent == old(backend.sent) + Queries(list[..i])
    {
      var answer := backend.Command(AllowedQuery(list[i]));
      asked := asked + 1;
      assert Queries(list[..i + 1]) == Queries(list[..i]) + [AllowedQuery(list[i])];
      StepAt(s, run, s.cursors, call.(phase := Asking(i)), answer);
      run := run + [Advance(0, answer)];
      if answer.None? {
        return Some(Failure), run, asked;
      }
      var verdict := CollectionAllowed(answer.value, list[i]);
      if verdict == Malformed {
        return Some(Failure), run, asked;
      }
      if verdict == Refused {
        return Some(Denial), run, asked;
      }
    }
    StepAt(s, run, s.cursors, call.(phase := Asking(|list|)), None);
    return None, run + [Advance(0, None)], asked;
  }

  /** The checks between the lookups and the forwarding. */
  method Clear(backend: Backend, call: Call, now: Time, ghost s: System, ghost before: seq<Choice>)
    returns (outcome: Option<Outcome>, ghost run: seq<Choice>, ghost asked: nat)
    requires call.phase == Looking && At(s, before, s.cursors, call) && s.now == now
    requires Targets(call.doc).Some? && |call.owners| == |TargetIds(call.doc)|
    modifies backend
    ensures At(s, run, s.cursors, call.(phase := if outcome.Some? then Over(outcome.value) else Sending))
    ensures outcome.Some? ==> !outcome.value.Answer?
    ensures asked < |Plan(call.doc, Metadata(call.owners))|
    ensures outcome.None? ==> asked == |Plan(call.doc, Metadata(call.owners))| - 1
    ensures backend.sent == old(backend.sent) + Plan(call.doc, Metadata(call.owners))[..asked]
  {
    hide RunFrom, At, CommandOK, Targets, TargetIds, Masked, NamespaceList, ForwardDoc, AllowedQuery;
    var metadata := Metadata(call.owners);
    var check := call.doc;
    if metadata {
      check := Mask(call.doc);
    }
    hide Metadata;
    StepAt(s, before, s.cursors, call, None);
    run := before + [Advance(0, None)];
    if !CommandOK(check) {
      return Some(Denial), run, 0;
    }
    if metadata {
      return None, run, 0;
    }
    outcome, run, asked := AskAll(backend, call.(phase := Asking(0)), now, s, run);
    ghost var list := NamespaceList(call.doc);
    assert Queries(list[..asked]) == Plan(call.doc, false)[..asked];
  }

  /** The request's own cursor ids. */
  method ReadTargets(doc: Request) returns (ids: Option<seq<int>>)
    ensures ids == Targets(doc)
  {
    hide AuthNumber, Ids;
    if doc[0].key == "getMore" {
      var id := AuthNumber(doc[0].value);
      return if id.Some? then Some([id.value]) else None;
    } else if doc[0].key == "killCursors" {
      var cursors := Get(doc, "cursors");
      if !cursors.Array? || |cursors.items| == 0 {
        return None;
      }
      ids := ReadIds(cursors.items);
    } else {
      return Some([]);
    }
  }

  /** Forwarding, and what the answer leads to. */
  method Exchange(state: TunnelState, backend: Backend, call: Call, now: Time, ghost s: System,
                  ghost before: seq<Choice>)
    returns (outcome: Outcome, ghost run: seq<Choice>)
    requires WithinLimits(state.cursors) && Targets(call.doc).Some?
    requires s.cursors == state.cursors && s.now == now && call.phase == Sending && At(s, before, s.cursors, call)
    modifies state, backend
    ensures RunFrom(s, run).calls == [call.(phase := Over(outcome))] && RunFrom(s, run).cursors == state.cursors
    ensures backend.sent == old(backend.sent) + [ForwardDoc(call.doc)] && !outcome.Denial?
  {
    hide RunFrom, CommandOK, Targets, WithinLimits, AppliedAll, AllFit, Actions, PublicReply, PublicVerb, BadCursor,
         ForwardDoc;
    var forward := Forward(call.doc);
    StepAt(s, before, s.cursors, call, None);
    run := before + [Advance(0, None)];
    var answer := backend.Command(forward);
    StepAt(s, run, s.cursors, call.(phase := Waiting), answer);
    run := run + [Advance(0, answer)];
    if answer.None? || BadCursor(call.doc, answer.value) {
      return Failure, run;
    }
    var reply := answer.value;
    KnownTargets(call.doc);
    var ok := Settle(state, call.scope, call.doc, TargetIds(call.doc), call.owners, reply, now);
    run := ActSteps(s, run, reply, 0);
    assert Actions(call.doc, call.owners, reply)[0..] == Actions(call.doc, call.owners, reply);
    outcome := if ok then Answer(reply, Shown(call, reply)) else Failure;
  }

  /** execute: with nobody interfering, it ends as the machine ends, with the same registry. */
  method RunCall(state: TunnelState, backend: Backend, scope: Scope, doc: Request, now: Time)
    returns (outcome: Outcome, ghost run: seq<Choice>, ghost sent: nat)
    requires WithinLimits(state.cursors)
    modifies state, backend
    ensures var t := RunFrom(Alone(old(state.cursors), now, scope, doc), run);
            && |t.calls| == 1 && t.calls[0].phase == Over(outcome) && t.cursors == state.cursors
            && var plan := Plan(doc, Metadata(t.calls[0].owners));
            && sent <= |plan| && backend.sent == old(backend.sent) + plan[..sent]
            && (outcome.Answer? ==> sent == |plan|) && (outcome.Denial? ==> sent < |plan|)
  {
    hide RunFrom, CommandOK, Targets, WithinLimits, NamespaceList, ForwardDoc, AllowedQuery, Metadata, TargetIds;
    ghost var s := Alone(state.cursors, now, scope, doc);
    assert forall plan: seq<Doc> :: backend.sent + plan[..0] == backend.sent;
    var ids := ReadTargets(doc);
    if ids.None? {
      run := DeniedAtOnce(s, Call(scope, doc, [], Looking));
      return Denial, run, 0;
    }
    assert TargetIds(doc) == ids.value by { KnownTargets(doc); }
    var owners;
    owners, run := LookAll(state, scope, doc, ids.value, now, s);
    if owners.None? {
      ghost var found :| At(s, run, s.cursors, Call(scope, doc, found, Over(Denial)));
      return Denial, run, 0;
    }
    var call := Call(scope, doc, owners.value, Looking);
    var stopped;
    stopped, run, sent := Clear(backend, call, now, s, run);
    if stopped.Some? {
      return stopped.value, run, sent;
    }
    ghost var plan := Plan(doc, Metadata(owners.value));
    assert plan[..sent] + [ForwardDoc(doc)] == plan[..sent + 1] == plan;
    outcome, run := Exchange(state, backend, call.(phase := Sending), now, s, run);
    sent := sent + 1;
  }

  lemma KnownTargets(doc: Request)
    requires Targets(doc).Some?
    ensures TargetIds(doc) == Targets(doc).value
  {
    hide Targets;
  }
}
