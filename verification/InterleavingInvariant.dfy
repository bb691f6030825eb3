/** Every reachable state of the interleaved calls has a lawful history, and a registry that the history explains. */
module InterleavingInvariant {
  import opened Values
  import opened PolicyTables
  import opened Namespaces
  import opened Registry
  import opened Execute
  import opened Reply
  import opened Interleaving

  // ------------------------------------------------------------ histories only grow

  lemma LookedGrows(log: seq<Event>, e: Event, p: nat, scope: Scope, doc: Request, owners: seq<Cursor>)
    requires AllLooked(log, p, scope, doc, owners)
    ensures AllLooked(log + [e], p, scope, doc, owners)
  {
    hide TargetIds;
    forall i | 0 <= i < |owners| ensures WasLooked(log + [e], p, scope, doc, TargetIds(doc)[i], owners[i]) {
      assert WasLooked(log, p, scope, doc, TargetIds(doc)[i], owners[i]);
      var at :| Event(p, scope, doc, Looked(TargetIds(doc)[i], owners[i], at)) in log;
      assert Event(p, scope, doc, Looked(TargetIds(doc)[i], owners[i], at)) in log + [e];
    }
  }

  lemma AllowedGrows(log: seq<Event>, e: Event, p: nat, scope: Scope, doc: Request, list: seq<Namespace>)
    requires AllAllowed(log, p, scope, doc, list)
    ensures AllAllowed(log + [e], p, scope, doc, list)
  {
    hide Judge;
    forall i | 0 <= i < |list| ensures WasAllowed(log + [e], p, scope, doc, list[i]) {
      assert WasAllowed(log, p, scope, doc, list[i]);
      var reply :| Event(p, scope, doc, Asked(list[i], reply)) in log && Judge(reply, list[i]) == Allowed;
      assert Event(p, scope, doc, Asked(list[i], reply)) in log + [e];
    }
  }

  lemma EntitledGrows(log: seq<Event>, e: Event, p: nat, scope: Scope, doc: Request, owners: seq<Cursor>)
    requires Entitled(log, p, scope, doc, owners)
    ensures Entitled(log + [e], p, scope, doc, owners)
  {
    hide Targets, TargetIds, Cleared, NamespaceList, AllLooked, AllAllowed, Metadata;
    LookedGrows(log, e, p, scope, doc, owners);
    if !Metadata(owners) {
      AllowedGrows(log, e, p, scope, doc, NamespaceList(doc));
    }
  }

  lemma CallGrows(log: seq<Event>, e: Event, p: nat, call: Call)
    requires CallOk(log, p, call)
    ensures CallOk(log + [e], p, call)
  {
    hide Targets, TargetIds, Cleared, NamespaceList, AllLooked, AllAllowed, Metadata, Entitled, ForwardDoc;
    match call.phase
    case Looking => LookedGrows(log, e, p, call.scope, call.doc, call.owners);
    case Asking(asked) =>
      LookedGrows(log, e, p, call.scope, call.doc, call.owners);
      AllowedGrows(log, e, p, call.scope, call.doc, NamespaceList(call.doc)[..asked]);
    case Sending => EntitledGrows(log, e, p, call.scope, call.doc, call.owners);
    case Waiting =>
    case Acting(_, _) =>
    case Over(_) =>
  }

  lemma LawfulGrows(log: seq<Event>, e: Event)
    requires Lawful(log) && Justified(log, e)
    ensures Lawful(log + [e])
  {
    hide Justified;
    var l := log + [e];
    forall n | 0 <= n < |l| ensures Justified(l[..n], l[n]) {
      if n < |log| {
        assert l[..n] == log[..n] && l[n] == log[n];
        assert Justified(log[..n], log[n]);
      } else {
        assert l[..n] == log;
      }
    }
  }

  lemma EntryGrows(log: seq<Event>, e: Event, k: Key, c: Cursor, now: Time, later: Time)
    requires EntryOk(log, k, c, now) && !Stores(e, k) && now <= later
    ensures EntryOk(log + [e], k, c, later)
  {
    var m :| LastStored(log, m, k, c);
    assert LastStored(log + [e], m, k, c);
  }

  /** A step of one call that records at most one event, and touches the registry only as that event says. */
  lemma StepKeeps(s: System, t: System, p: nat, e: Event, recorded: bool)
    requires Inv(s) && p < |s.calls| && |t.calls| == |s.calls|
    requires t == System(t.cursors, s.now, s.calls[p := t.calls[p]], if recorded then s.log + [e] else s.log)
    requires recorded ==> Justified(s.log, e) && !e.deed.Kept?
    requires t.cursors == s.cursors
    requires CallOk(t.log, p, t.calls[p])
    ensures Inv(t)
  {
    hide Justified, CallOk, WithinLimits, EntryOk, Lawful;
    if recorded { LawfulGrows(s.log, e); }
    forall q | 0 <= q < |t.calls| ensures CallOk(t.log, q, t.calls[q]) {
      if q != p {
        assert t.calls[q] == s.calls[q];
        if recorded { CallGrows(s.log, e, q, s.calls[q]); }
      }
    }
    forall k | k in t.cursors ensures EntryOk(t.log, k, t.cursors[k], t.now) {
      assert EntryOk(s.log, k, s.cursors[k], s.now);
      if recorded { EntryGrows(s.log, e, k, s.cursors[k], s.now, s.now); }
    }
  }

  // ---------------------------------------------------------------------- the steps

  lemma LookupIsRecorded(s: System, p: nat, id: int)
    requires Inv(s) && p < |s.calls| && id in TargetIds(s.calls[p].doc)
    requires var call := s.calls[p];
             Lookup(s.cursors, call.scope, id, TargetNamespace(call.doc), Session(call.doc), s.now).Some?
    ensures var call := s.calls[p];
            var c := Lookup(s.cursors, call.scope, id, TargetNamespace(call.doc), Session(call.doc), s.now).value;
            Justified(s.log, Event(p, call.scope, call.doc, Looked(id, c, s.now)))
  {
    hide Lawful, CallsOk, WithinLimits, TargetIds, TargetNamespace, Session;
    var call := s.calls[p];
    var k := Key(call.scope, id);
    assert k in s.cursors;
    assert EntryOk(s.log, k, s.cursors[k], s.now);
  }

  lemma LookKeeps(s: System, p: nat)
    requires Inv(s) && p < |s.calls| && s.calls[p].phase.Looking?
    ensures Inv(Look(s, p))
  {
    hide Justified, Inv, Cleared, TargetIds, Targets, TargetNamespace, Session, Lookup, Metadata, AllLooked,
         NamespaceList;
    var call, t := s.calls[p], Look(s, p);
    var ids := TargetIds(call.doc);
    CallIsOk(s, p);
    var e := Event(p, call.scope, call.doc, Looked(0, Cursor("", OtherCommand, [], 0), 0));
    if Targets(call.doc).Some? && |call.owners| < |ids| {
      var id := ids[|call.owners|];
      var found := Lookup(s.cursors, call.scope, id, TargetNamespace(call.doc), Session(call.doc), s.now);
      if found.Some? {
        LookupIsRecorded(s, p, id);
        e := Event(p, call.scope, call.doc, Looked(id, found.value, s.now));
        OneMoreLooked(s.log, p, call, id, found.value, s.now);
        StepKeeps(s, t, p, e, true);
      } else {
        StepKeeps(s, t, p, e, false);
      }
    } else {
      OwnersFit(s.log, p, call);
      if Targets(call.doc).Some? && Cleared(call.doc, call.owners) {
        NothingAsked(s.log, p, call);
      }
      StepKeeps(s, t, p, e, false);
    }
  }

  lemma CallIsOk(s: System, p: nat)
    requires Inv(s) && p < |s.calls|
    ensures CallOk(s.log, p, s.calls[p])
  {
    hide CallOk, Lawful, RegistryOk, WithinLimits;
  }

  lemma OwnersFit(log: seq<Event>, p: nat, call: Call)
    requires AllLooked(log, p, call.scope, call.doc, call.owners)
    ensures |call.owners| <= |TargetIds(call.doc)|
  {
    hide TargetIds;
  }

  lemma NothingAsked(log: seq<Event>, p: nat, call: Call)
    requires AllLooked(log, p, call.scope, call.doc, call.owners)
    requires Targets(call.doc).Some? && |call.owners| == |TargetIds(call.doc)| && Cleared(call.doc, call.owners)
    ensures CallOk(log, p, call.(phase := if Metadata(call.owners) then Sending else Asking(0)))
  {
    hide TargetIds, Targets, Cleared, NamespaceList, AllLooked, Metadata;
  }

  lemma OneMoreLooked(log: seq<Event>, p: nat, call: Call, id: int, c: Cursor, at: Time)
    requires AllLooked(log, p, call.scope, call.doc, call.owners)
    requires |call.owners| < |TargetIds(call.doc)| && id == TargetIds(call.doc)[|call.owners|]
    ensures AllLooked(log + [Event(p, call.scope, call.doc, Looked(id, c, at))], p, call.scope, call.doc,
                      call.owners + [c])
  {
    hide TargetIds;
    var e := Event(p, call.scope, call.doc, Looked(id, c, at));
    LookedGrows(log, e, p, call.scope, call.doc, call.owners);
    assert e in log + [e];
    assert WasLooked(log + [e], p, call.scope, call.doc, id, c);
  }

  lemma AskKeeps(s: System, p: nat, answer: Option<Doc>)
    requires Inv(s) && p < |s.calls| && s.calls[p].phase.Asking?
    ensures Inv(Ask(s, p, answer))
  {
    hide Inv, Cleared, TargetIds, Targets, Metadata, AllLooked, NamespaceList, Judge, AllAllowed;
    var call, t := s.calls[p], Ask(s, p, answer);
    var asked, list := call.phase.asked, NamespaceList(call.doc);
    CallIsOk(s, p);
    var e := Event(p, call.scope, call.doc, Looked(0, Cursor("", OtherCommand, [], 0), 0));
    if asked < |list| && answer.Some? && Judge(answer.value, list[asked]) == Allowed {
      e := Event(p, call.scope, call.doc, Asked(list[asked], answer.value));
      LookedGrows(s.log, e, p, call.scope, call.doc, call.owners);
      OneMoreAllowed(s.log, p, call, list, asked, answer.value);
      StepKeeps(s, t, p, e, true);
    } else {
      assert list[..|list|] == list;
      StepKeeps(s, t, p, e, false);
    }
  }

  lemma OneMoreAllowed(log: seq<Event>, p: nat, call: Call, list: seq<Namespace>, asked: nat, reply: Doc)
    requires asked < |list| && AllAllowed(log, p, call.scope, call.doc, list[..asked])
    requires Judge(reply, list[asked]) == Allowed
    ensures AllAllowed(log + [Event(p, call.scope, call.doc, Asked(list[asked], reply))], p, call.scope, call.doc,
                       list[..asked + 1])
  {
    hide Judge;
    var e := Event(p, call.scope, call.doc, Asked(list[asked], reply));
    AllowedGrows(log, e, p, call.scope, call.doc, list[..asked]);
    assert e in log + [e];
    assert WasAllowed(log + [e], p, call.scope, call.doc, list[asked]);
    assert list[..asked + 1] == list[..asked] + [list[asked]];
  }

  lemma SendKeeps(s: System, p: nat)
    requires Inv(s) && p < |s.calls| && s.calls[p].phase.Sending?
    ensures Inv(Send(s, p))
  {
    hide Inv, Entitled, ForwardDoc;
    var call := s.calls[p];
    CallIsOk(s, p);
    var e := Event(p, call.scope, call.doc, Forwarded(call.owners, ForwardDoc(call.doc)));
    assert e in s.log + [e];
    StepKeeps(s, Send(s, p), p, e, true);
  }

  lemma ReceiveKeeps(s: System, p: nat, answer: Option<Doc>)
    requires Inv(s) && p < |s.calls| && s.calls[p].phase.Waiting?
    ensures Inv(Receive(s, p, answer))
  {
    hide Inv, ForwardDoc, BadCursor;
    var call := s.calls[p];
    CallIsOk(s, p);
    var e := Event(p, call.scope, call.doc, Looked(0, Cursor("", OtherCommand, [], 0), 0));
    if answer.Some? && !BadCursor(call.doc, answer.value) {
      e := Event(p, call.scope, call.doc, Received(call.owners, answer.value));
      assert e in s.log + [e];
      StepKeeps(s, Receive(s, p, answer), p, e, true);
    } else {
      StepKeeps(s, Receive(s, p, answer), p, e, false);
    }
  }

  // ------------------------------------------------------------- the registry updates

  lemma {:induction false} DropAllDrops(ids: seq<int>)
    ensures |DropAll(ids)| == |ids|
    ensures forall i :: 0 <= i < |ids| ==> DropAll(ids)[i] == Drop(ids[i])
  {
    if ids != [] { DropAllDrops(ids[1..]); }
  }

  /** At most one action remembers a cursor, it comes first, and it stores what a good reply offered. */
  lemma KeepComesFirst(doc: Request, owners: seq<Cursor>, reply: Doc, i: nat)
    requires i < |Actions(doc, owners, reply)| && Actions(doc, owners, reply)[i].Keep?
    ensures i == 0 && HasCursor(reply)
    ensures var a := Actions(doc, owners, reply)[0];
            && a.id != 0 && a.id == IdOrZero(Subfield(reply, "id"))
            && a.cursor == NewCursor(doc, owners, reply)
  {
    hide NewCursor, AuthNumber, Gone, TargetIds, Except, HasCursor, IdOrZero, SessionsOf;
    var unknown := !Succeeded(reply) && AuthNumber(Get(reply, "code")) == Some(43);
    var first := if unknown then DropAll(TargetIds(doc)) else [];
    DropAllDrops(TargetIds(doc));
    DropAllDrops(Gone(reply));
    var id := IdOrZero(Subfield(reply, "id"));
    DropAllDrops(Except(TargetIds(doc), id));
    CursorMeansSuccess(reply);
    var middle := CursorActions(doc, owners, reply);
    var third := if doc[0].key == "killCursors" && Succeeded(reply) then DropAll(Gone(reply)) else [];
    var last := if doc[0].key == "endSessions" && Succeeded(reply) then [End(SessionsOf(Items(doc[0].value)))] else [];
    assert Actions(doc, owners, reply) == first + middle + third + last;
    assert forall a :: a in first || a in third || a in last ==> !a.Keep?;
    assert HasCursor(reply) ==> first == [];
    assert HasCursor(reply) ==> forall j :: 0 < j < |middle| ==> !middle[j].Keep?;
  }

  lemma CursorMeansSuccess(reply: Doc)
    requires HasCursor(reply)
    ensures Succeeded(reply)
  {
  }

  lemma KeptIsJustified(log: seq<Event>, p: nat, call: Call, reply: Doc, i: nat, now: Time)
    requires Event(p, call.scope, call.doc, Received(call.owners, reply)) in log
    requires i < |Actions(call.doc, call.owners, reply)| && Actions(call.doc, call.owners, reply)[i].Keep?
    ensures var a := Actions(call.doc, call.owners, reply)[i];
            Justified(log, Event(p, call.scope, call.doc, Kept(call.owners, reply, a.id, a.cursor.(used := now))))
  {
    hide Actions, NewCursor, HasCursor;
    KeepComesFirst(call.doc, call.owners, reply, i);
  }

  /** What the registry still holds after an update was there before with the same value, or is the stored entry. */
  lemma AppliedEntries(cs: Cursors, scope: Scope, a: Action, now: Time, k: Key)
    requires k in Applied(cs, scope, a, now)
    ensures (k in cs && Applied(cs, scope, a, now)[k] == cs[k] &&
             (a.Keep? && Fits(cs, scope, a, now) ==> k != Key(scope, a.id))) ||
            (a.Keep? && Fits(cs, scope, a, now) && k == Key(scope, a.id) &&
             Applied(cs, scope, a, now)[k] == a.cursor.(used := now))
  {
    hide HasRoom;
  }

  lemma AppliedWithinLimits(cs: Cursors, scope: Scope, a: Action, now: Time)
    requires WithinLimits(cs)
    ensures WithinLimits(Applied(cs, scope, a, now))
  {
    hide WithinLimits;
    match a
    case Keep(id, c) => RememberedWithinLimits(cs, scope, id, c, now);
    case Drop(id) => SubsetWithinLimits(Forgotten(cs, scope, id), cs);
    case End(sessions) => SubsetWithinLimits(SessionsEnded(cs, scope, sessions), cs);
  }

  /** A registry update by one call, recorded when it stores an entry. */
  lemma UpdateKeeps(s: System, t: System, p: nat, a: Action, e: Event)
    requires Inv(s) && p < |s.calls|
    requires var call := s.calls[p];
             var recorded := a.Keep? && Fits(s.cursors, call.scope, a, s.now);
             && (recorded ==> Stores(e, Key(call.scope, a.id)) && a.id != 0 &&
                              e.deed.cursor == a.cursor.(used := s.now) && Justified(s.log, e))
             && |t.calls| == |s.calls|
             && t == System(Applied(s.cursors, call.scope, a, s.now), s.now, s.calls[p := t.calls[p]],
                            if recorded then s.log + [e] else s.log)
    requires CallOk(t.log, p, t.calls[p])
    ensures Inv(t)
  {
    hide Justified, CallOk, WithinLimits, EntryOk, Lawful, Fits, Applied;
    var scope := s.calls[p].scope;
    var recorded := a.Keep? && Fits(s.cursors, scope, a, s.now);
    if recorded { LawfulGrows(s.log, e); }
    forall q | 0 <= q < |t.calls| ensures CallOk(t.log, q, t.calls[q]) {
      if q != p {
        assert t.calls[q] == s.calls[q];
        if recorded { CallGrows(s.log, e, q, s.calls[q]); }
      }
    }
    AppliedWithinLimits(s.cursors, scope, a, s.now);
    forall k | k in t.cursors ensures EntryOk(t.log, k, t.cursors[k], t.now) {
      AppliedEntries(s.cursors, scope, a, s.now, k);
      if recorded && k == Key(scope, a.id) {
        StoredEntry(s.log, e, k, s.now);
      } else {
        assert EntryOk(s.log, k, s.cursors[k], s.now);
        if recorded { EntryGrows(s.log, e, k, s.cursors[k], s.now, s.now); }
      }
    }
  }

  lemma StoredEntry(log: seq<Event>, e: Event, k: Key, now: Time)
    requires Stores(e, k) && k.id != 0 && e.deed.cursor.used <= now
    ensures EntryOk(log + [e], k, e.deed.cursor, now)
  {
    assert LastStored(log + [e], |log|, k, e.deed.cursor);
  }

  lemma ActKeeps(s: System, p: nat)
    requires Inv(s) && p < |s.calls| && s.calls[p].phase.Acting?
    ensures Inv(Act(s, p))
  {
    hide Inv, Actions, Applied, Fits, PublicReply, PublicVerb, Justified;
    var call, t := s.calls[p], Act(s, p);
    var reply, done := call.phase.reply, call.phase.done;
    var actions := Actions(call.doc, call.owners, reply);
    CallIsOk(s, p);
    if done >= |actions| {
      var e := Event(p, call.scope, call.doc, Answered(call.owners, reply, Shown(call, reply)));
      AnswerIsJustified(s.log, e);
      StepKeeps(s, t, p, e, true);
    } else {
      var a := actions[done];
      var e := Event(p, call.scope, call.doc, Looked(0, Cursor("", OtherCommand, [], 0), 0));
      if a.Keep? {
        KeepComesFirst(call.doc, call.owners, reply, done);
        KeptIsJustified(s.log, p, call, reply, done, s.now);
        e := Event(p, call.scope, call.doc, Kept(call.owners, reply, a.id, a.cursor.(used := s.now)));
      } else {
        OnlyKeepNeedsRoom(s.cursors, call.scope, a, s.now);
      }
      UpdateKeeps(s, t, p, a, e);
    }
  }

  lemma OnlyKeepNeedsRoom(cs: Cursors, scope: Scope, a: Action, now: Time)
    requires !a.Keep?
    ensures Fits(cs, scope, a, now)
  {
  }

  lemma AnswerIsJustified(log: seq<Event>, e: Event)
    requires e.deed.Answered? && e.(deed := Received(e.deed.owners, e.deed.reply)) in log
    requires e.deed.shown == PublicReply(PublicVerb(e.doc, e.deed.owners), e.deed.reply)
    ensures Justified(log, e)
  {
    hide PublicReply, PublicVerb;
  }

  // ------------------------------------------------------------------- all the runs

  lemma TickKeeps(s: System, elapsed: nat)
    requires Inv(s)
    ensures Inv(s.(now := s.now + elapsed))
  {
    hide Lawful, CallOk, WithinLimits, EntryOk;
    forall k | k in s.cursors ensures EntryOk(s.log, k, s.cursors[k], s.now + elapsed) {
      assert EntryOk(s.log, k, s.cursors[k], s.now);
      EntryAges(s.log, k, s.cursors[k], s.now, s.now + elapsed);
    }
  }

  lemma EntryAges(log: seq<Event>, k: Key, c: Cursor, now: Time, later: Time)
    requires EntryOk(log, k, c, now) && now <= later
    ensures EntryOk(log, k, c, later)
  {
  }

  lemma BeginKeeps(s: System, scope: Scope, doc: Request)
    requires Inv(s)
    ensures Inv(s.(calls := s.calls + [Call(scope, doc, [], Looking)]))
  {
    hide Lawful, CallOk, WithinLimits, EntryOk;
    var t := s.(calls := s.calls + [Call(scope, doc, [], Looking)]);
    forall q | 0 <= q < |t.calls| ensures CallOk(t.log, q, t.calls[q]) {
      if q < |s.calls| {
        assert t.calls[q] == s.calls[q];
      } else {
        FreshCall(s.log, q, scope, doc);
      }
    }
  }

  lemma FreshCall(log: seq<Event>, p: nat, scope: Scope, doc: Request)
    ensures CallOk(log, p, Call(scope, doc, [], Looking))
  {
    hide TargetIds;
  }

  lemma NextKeeps(s: System, c: Choice)
    requires Inv(s)
    ensures Inv(Next(s, c))
  {
    hide Inv, Look, Ask, Send, Receive, Act;
    match c
    case Tick(elapsed) => TickKeeps(s, elapsed);
    case Begin(scope, doc) => BeginKeeps(s, scope, doc);
    case Advance(p, answer) =>
      if p < |s.calls| {
        match s.calls[p].phase
        case Looking => LookKeeps(s, p);
        case Asking(_) => AskKeeps(s, p, answer);
        case Sending => SendKeeps(s, p);
        case Waiting => ReceiveKeeps(s, p, answer);
        case Acting(_, _) => ActKeeps(s, p);
        case Over(_) =>
      }
  }

  lemma StartIsFine()
    ensures Inv(START)
  {
    var none: Cursors := map[];
    forall scope: Scope ensures |InScope(none, scope)| <= SCOPE_LIMIT {
      assert InScope(none, scope) == {};
    }
  }

  /** The invariant holds after every run, whatever the backends answer and however the calls interleave. */
  lemma {:induction false} InvariantHolds(run: seq<Choice>)
    ensures Inv(Run(run))
    decreases |run|
  {
    hide Inv, Next;
    if run == [] {
      StartIsFine();
    } else {
      InvariantHolds(run[..|run| - 1]);
      NextKeeps(Run(run[..|run| - 1]), run[|run| - 1]);
    }
  }
}
