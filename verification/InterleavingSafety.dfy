/** Provenance of metadata cursors, limits, isolation of scopes, and what unsuccessful calls leave alone. */
module InterleavingSafety {
  import opened Values
  import opened PolicyTables
  import opened Policy
  import opened Namespaces
  import opened Registry
  import opened Execute
  import opened Reply
  import opened Interleaving
  import opened InterleavingInvariant
  import opened InterleavingTheorems

  // ------------------------------------------------------------------- metadata cursors

  /** Backends hand out cursors in reply to cursor commands; to killCursors in particular they do not. */
  ghost predicate NoStrayCursors(log: seq<Event>)
  {
    forall n :: 0 <= n < |log| && log[n].deed.Received? && log[n].doc[0].key == "killCursors" ==>
      !HasCursor(log[n].deed.reply)
  }

  lemma OtherDollarKeys(doc: Request, owners: seq<Cursor>, ns: string)
    requires Cleared(doc, owners) && (owners != [] ==> UsesCursors(doc))
    requires '$' in ExpectedNamespace(doc, ns)
    ensures UsesCursors(doc) || doc[0].key == "listCollections" || doc[0].key == "listIndexes"
  {
    hide CommandOK, Masked, VerbOf;
    CheckedDatabase(doc, owners);
    if !UsesCursors(doc) {
      assert CommandOK(doc);
      ArgumentHasNoDollar(doc);
    }
  }

  lemma ArgumentHasNoDollar(doc: Request)
    requires CommandOK(doc) && !UsesCursors(doc)
    ensures '$' !in TextOf(doc[0].value)
  {
    hide CommandOption, Fields, OptionsOf, RequiredOf, OneEffect, DatabaseName;
    KeyOfGetMore(doc[0].key);
    hide VerbOf;
    assert CommandArgument(VerbOf(doc[0].key), doc);
  }

  lemma KeyOfGetMore(name: string)
    ensures VerbOf(name) == GetMore ==> name == "getMore"
  {
  }

  lemma RootOwners(log: seq<Event>, n: nat)
    requires n < |log| && log[n].deed.Kept? && |log[n].deed.owners| == |TargetIds(log[n].doc)|
    ensures log[n].deed.owners != [] ==> UsesCursors(log[n].doc)
  {
  }

  lemma MetadataKeys(name: string)
    ensures name == "listCollections" || name == "listIndexes" <==> MetadataCommand(VerbOf(name))
    ensures name == "killCursors" <==> VerbOf(name) == KillCursors
  {
  }

  /** The path leads from the command that opened the chain to the event that last stored the entry. */
  ghost predicate OpenedAlong(log: seq<Event>, path: seq<nat>, k: Key, c: Cursor)
  {
    Chain(log, path) && LastStored(log, path[|path| - 1], k, c)
  }

  /** A killCursors whose reply, a success, offered a cursor other than 0. */
  ghost predicate StrayOpening(log: seq<Event>, n: nat)
    requires n < |log| && log[n].deed.Kept?
  {
    var e := log[n];
    && e.doc[0].key == "killCursors"
    && e.(deed := Received(e.deed.owners, e.deed.reply)) in log[..n]
    && HasCursor(e.deed.reply) && e.deed.id != 0 && AuthNumber(Subfield(e.deed.reply, "id")) == Some(e.deed.id)
  }

  lemma KilledRootIsStray(log: seq<Event>, n: nat)
    requires Lawful(log) && n < |log| && log[n].deed.Kept?
    ensures StrayOpening(log, n) <==> log[n].doc[0].key == "killCursors"
    ensures NoStrayCursors(log) ==> log[n].doc[0].key != "killCursors"
  {
    hide Lawful, BadCursor, HasCursor, NewCursor, AuthNumber, Subfield, ForwardDoc, Entitled, PublicReply;
    EventIsJustified(log, n);
    var r := Earlier(log, n, log[n].(deed := Received(log[n].deed.owners, log[n].deed.reply)));
  }

  /** A chain whose namespace has a dollar sign starts with a metadata command or with killCursors. */
  lemma DollarRoot(log: seq<Event>, root: nat)
    requires Lawful(log) && root < |log| && log[root].deed.Kept? && '$' in log[root].deed.cursor.namespace
    requires log[root].doc[0].key != "getMore"
    ensures log[root].doc[0].key in {"listCollections", "listIndexes", "killCursors"}
  {
    hide Lawful, VerbOf, ExpectedNamespace, HasCursor, AuthNumber, Subfield, Session, Cleared, TargetIds;
    KeptCursor(log, root);
    RootOwners(log, root);
    OtherDollarKeys(log[root].doc, log[root].deed.owners, log[root].deed.cursor.namespace);
  }

  /**
   * An entry whose namespace contains a dollar sign carries listCollections, listIndexes or killCursors, the command
   * that opened its chain. It is not the entry of a metadata command exactly when the chain was opened by a
   * successful reply to killCursors that offered a cursor other than 0; so it always is one when backends do not
   * hand out cursors to killCursors.
   */
  lemma DollarMeansMetadata(run: seq<Choice>, k: Key)
    requires k in Run(run).cursors && '$' in Run(run).cursors[k].namespace
    ensures var c, log := Run(run).cursors[k], Run(run).log;
            && (MetadataCommand(c.command) || c.command == KillCursors)
            && (exists path :: OpenedAlong(log, path, k, c))
            && (forall path :: OpenedAlong(log, path, k, c) ==>
                  (!MetadataCommand(c.command) <==> StrayOpening(log, path[0])))
            && (NoStrayCursors(log) ==> MetadataCommand(c.command))
  {
    hide Run, Lawful, VerbOf, Continues, StrayOpening, NoStrayCursors;
    RunIsLawful(run);
    var log, c := Run(run).log, Run(run).cursors[k];
    var m := LastEvent(run, k);
    var first := ChainTo(log, m);
    assert OpenedAlong(log, first, k, c);
    forall path | OpenedAlong(log, path, k, c)
      ensures !MetadataCommand(c.command) <==> StrayOpening(log, path[0])
      ensures MetadataCommand(c.command) || c.command == KillCursors
      ensures NoStrayCursors(log) ==> MetadataCommand(c.command)
    {
      ChainKeeps(log, path, |path| - 1);
      DollarRoot(log, path[0]);
      KilledRootIsStray(log, path[0]);
      MetadataKeys(log[path[0]].doc[0].key);
    }
  }

  lemma LastEvent(run: seq<Choice>, k: Key) returns (m: nat)
    requires k in Run(run).cursors
    ensures LastStored(Run(run).log, m, k, Run(run).cursors[k])
  {
    hide Run, Lawful, CallsOk, WithinLimits;
    InvariantHolds(run);
    assert EntryOk(Run(run).log, k, Run(run).cursors[k], Run(run).now);
    m :| LastStored(Run(run).log, m, k, Run(run).cursors[k]);
  }

  // ---------------------------------------------------------------------------- limits

  /** In every reachable state: at most 1024 entries per scope and 16384 in all, and never a cursor 0. */
  lemma RegistryStaysWithinLimits(run: seq<Choice>, scope: Scope, k: Key)
    ensures |Run(run).cursors| <= 16384 && |InScope(Run(run).cursors, scope)| <= 1024
    ensures k in Run(run).cursors ==> k.id != 0
  {
    hide Run, Lawful, CallsOk, WithinLimits;
    InvariantHolds(run);
    LimitsHold(Run(run).cursors, scope);
    if k in Run(run).cursors {
      assert EntryOk(Run(run).log, k, Run(run).cursors[k], Run(run).now);
    }
  }

  // ------------------------------------------------------------------- separate scopes

  /** The choice is not a step of a call under the scope. */
  predicate Foreign(s: System, c: Choice, scope: Scope)
  {
    c.Advance? && c.call < |s.calls| ==> s.calls[c.call].scope != scope
  }

  ghost predicate AllForeign(s: System, run: seq<Choice>, scope: Scope)
  {
    forall i :: 0 <= i < |run| ==> Foreign(RunFrom(s, run[..i]), run[i], scope)
  }

  ghost predicate OnlyAged(before: Cursors, after: Cursors, scope: Scope, now: Time)
  {
    && (forall k :: k in after && k.scope == scope ==> k in before && after[k] == before[k])
    && (forall k :: k in before && k.scope == scope && k !in after ==> Idle(before[k], now))
  }

  lemma AppliedKeepsOthers(cs: Cursors, own: Scope, a: Action, now: Time, scope: Scope)
    requires own != scope
    ensures OnlyAged(cs, Applied(cs, own, a, now), scope, now)
  {
    hide HasRoom;
  }

  lemma NextKeepsOthers(s: System, c: Choice, scope: Scope)
    requires Foreign(s, c, scope)
    ensures s.now <= Next(s, c).now && OnlyAged(s.cursors, Next(s, c).cursors, scope, s.now)
  {
    hide CommandOK, Judge, Actions, Applied, Fits, Targets, TargetIds, Lookup, NamespaceList, Metadata, ForwardDoc,
         BadCursor, PublicReply, PublicVerb, TargetNamespace, Session, Checked;
    if c.Advance? && c.call < |s.calls| && s.calls[c.call].phase.Acting? {
      var call := s.calls[c.call];
      var actions := Actions(call.doc, call.owners, call.phase.reply);
      if call.phase.done < |actions| {
        AppliedKeepsOthers(s.cursors, call.scope, actions[call.phase.done], s.now, scope);
      }
    }
  }

  /**
   * However other scopes work, a scope's entries stay as they are; an entry is lost only when it is idle for more
   * than thirty minutes by the end.
   */
  lemma {:induction false} OtherScopesOnlyLoseIdle(s: System, run: seq<Choice>, scope: Scope)
    requires AllForeign(s, run, scope)
    ensures s.now <= RunFrom(s, run).now
    ensures OnlyAged(s.cursors, RunFrom(s, run).cursors, scope, RunFrom(s, run).now)
    decreases |run|
  {
    hide Next, Foreign;
    if run != [] {
      var init, last := run[..|run| - 1], run[|run| - 1];
      forall i | 0 <= i < |init| ensures Foreign(RunFrom(s, init[..i]), init[i], scope) {
        assert init[..i] == run[..i];
        assert Foreign(RunFrom(s, run[..i]), run[i], scope);
      }
      OtherScopesOnlyLoseIdle(s, init, scope);
      assert Foreign(RunFrom(s, run[..|run| - 1]), run[|run| - 1], scope);
      NextKeepsOthers(RunFrom(s, init), last, scope);
    }
  }

  // ---------------------------------------------------------------- unsuccessful calls

  ghost predicate KeptBy(log: seq<Event>, p: nat)
  {
    exists n :: 0 <= n < |log| && log[n].call == p && log[n].deed.Kept?
  }

  /** Phases in which a call may have stored an entry: after a successful reply with a cursor. */
  predicate MayHaveKept(phase: Phase)
  {
    (phase.Acting? && phase.done > 0 && HasCursor(phase.reply)) ||
    (phase.Over? && phase.outcome.Answer? && HasCursor(phase.outcome.reply))
  }

  ghost predicate KeepersSucceed(s: System)
  {
    forall p: nat :: KeptBy(s.log, p) ==> p < |s.calls| && MayHaveKept(s.calls[p].phase)
  }

  lemma KeptByGrows(log: seq<Event>, e: Event, p: nat)
    ensures KeptBy(log + [e], p) <==> KeptBy(log, p) || (e.deed.Kept? && e.call == p)
  {
    var l := log + [e];
    if KeptBy(l, p) {
      var n :| 0 <= n < |l| && l[n].call == p && l[n].deed.Kept?;
      assert n < |log| ==> log[n] == l[n];
    }
    if KeptBy(log, p) {
      var n :| 0 <= n < |log| && log[n].call == p && log[n].deed.Kept?;
      assert l[n] == log[n];
    }
    if e.deed.Kept? && e.call == p {
      assert l[|log|] == e;
    }
  }

  /** A step that stores nothing, by a call that may keep its status. */
  lemma QuietStep(s: System, t: System, p: nat)
    requires KeepersSucceed(s) && p < |s.calls| && |t.calls| == |s.calls|
    requires forall q :: 0 <= q < |s.calls| && q != p ==> t.calls[q] == s.calls[q]
    requires MayHaveKept(s.calls[p].phase) ==> MayHaveKept(t.calls[p].phase)
    requires t.log == s.log || (|t.log| == |s.log| + 1 && t.log[..|s.log|] == s.log && !t.log[|s.log|].deed.Kept?)
    ensures KeepersSucceed(t)
  {
    hide MayHaveKept;
    forall q: nat | KeptBy(t.log, q) ensures q < |t.calls| && MayHaveKept(t.calls[q].phase) {
      if t.log != s.log {
        assert t.log == s.log + [t.log[|s.log|]];
        KeptByGrows(s.log, t.log[|s.log|], q);
      }
      assert KeptBy(s.log, q);
    }
  }

  lemma ActKeepersSucceed(s: System, p: nat)
    requires KeepersSucceed(s) && p < |s.calls| && s.calls[p].phase.Acting?
    ensures KeepersSucceed(Act(s, p))
  {
    hide Actions, Applied, Fits, HasCursor, PublicReply, PublicVerb;
    var call, t := s.calls[p], Act(s, p);
    var reply, done := call.phase.reply, call.phase.done;
    var actions := Actions(call.doc, call.owners, reply);
    if done >= |actions| {
      QuietStep(s, t, p);
    } else if actions[done].Keep? {
      KeepComesFirst(call.doc, call.owners, reply, done);
      if Fits(s.cursors, call.scope, actions[done], s.now) {
        var a := actions[done];
        var e := Event(p, call.scope, call.doc, Kept(call.owners, reply, a.id, a.cursor.(used := s.now)));
        assert t.log == s.log + [e];
        forall q: nat | KeptBy(t.log, q) ensures q < |t.calls| && MayHaveKept(t.calls[q].phase) {
          KeptByGrows(s.log, e, q);
          if q != p { assert KeptBy(s.log, q); }
        }
      } else {
        QuietStep(s, t, p);
      }
    } else {
      OnlyKeepNeedsRoom(s.cursors, call.scope, actions[done], s.now);
      QuietStep(s, t, p);
    }
  }

  lemma NextKeepersSucceed(s: System, c: Choice)
    requires KeepersSucceed(s)
    ensures KeepersSucceed(Next(s, c))
  {
    hide CommandOK, Judge, Act, Targets, TargetIds, Lookup, NamespaceList, Metadata, ForwardDoc, HasCursor,
         BadCursor, TargetNamespace, Session, Checked;
    if c.Advance? && c.call < |s.calls| {
      if s.calls[c.call].phase.Acting? {
        ActKeepersSucceed(s, c.call);
      } else {
        QuietStep(s, Next(s, c), c.call);
      }
    }
  }

  lemma {:induction false} KeepersSucceedAlways(run: seq<Choice>)
    ensures KeepersSucceed(Run(run))
    decreases |run|
  {
    hide Next, MayHaveKept;
    if run != [] {
      KeepersSucceedAlways(run[..|run| - 1]);
      NextKeepersSucceed(Run(run[..|run| - 1]), run[|run| - 1]);
    }
  }

  /** A denied call, a failed call and a call answered with an upstream failure never store or renew an entry. */
  lemma UnsuccessfulCallsKeepNothing(run: seq<Choice>, p: nat, n: nat)
    requires p < |Run(run).calls| && n < |Run(run).log|
    requires var phase := Run(run).calls[p].phase;
             phase.Over? && (phase.outcome.Answer? ==> !Succeeded(phase.outcome.reply))
    ensures !(Run(run).log[n].call == p && Run(run).log[n].deed.Kept?)
  {
    hide Run, Succeeded;
    KeepersSucceedAlways(run);
    assert Run(run).log[n].call == p && Run(run).log[n].deed.Kept? ==> KeptBy(Run(run).log, p);
  }

  // --------------------------------------------------------------------- ended sessions

  lemma {:induction false} SessionsListed(items: seq<Value>, session: bytes)
    ensures session in SessionsOf(items) <==> exists i :: 0 <= i < |items| && SessionOf(items[i]) == session
  {
    hide SessionOf;
    if items != [] {
      SessionsListed(items[1..], session);
      if i :| 0 <= i < |items| && SessionOf(items[i]) == session {
        assert i > 0 ==> items[1..][i - 1] == items[i];
      }
      if i :| 0 <= i < |items[1..]| && SessionOf(items[1..][i]) == session {
        assert items[i + 1] == items[1..][i];
      }
    }
  }

  /** Exactly the entries of the scope whose session is listed are gone; the others are as before. */
  ghost predicate RemovesExactly(before: Cursors, after: Cursors, scope: Scope, items: seq<Value>)
  {
    && (forall k :: k in after ==> k in before && after[k] == before[k])
    && forall k :: k in before ==>
         (k !in after <==>
          k.scope == scope && exists i :: 0 <= i < |items| && SessionOf(items[i]) == before[k].session)
  }

  lemma SessionsEndedRemove(cs: Cursors, scope: Scope, items: seq<Value>)
    ensures RemovesExactly(cs, SessionsEnded(cs, scope, SessionsOf(items)), scope, items)
  {
    hide SessionOf, SessionsOf;
    var after := SessionsEnded(cs, scope, SessionsOf(items));
    forall k | k in cs
      ensures k !in after <==>
              k.scope == scope && exists i :: 0 <= i < |items| && SessionOf(items[i]) == cs[k].session
    {
      SessionsListed(items, cs[k].session);
    }
  }

  /**
   * The same in the words of the commands: what goes is what was opened by commands of the scope that gave one of the
   * listed documents as their `lsid`.
   */
  ghost predicate RemovesByLsid(log: seq<Event>, before: Cursors, after: Cursors, scope: Scope, items: seq<Value>)
  {
    && (forall k :: k in after ==> k in before && after[k] == before[k])
    && forall k :: k in before ==>
         (exists m: nat :: LastStored(log, m, k, before[k]))
         && forall m: nat :: LastStored(log, m, k, before[k]) ==>
              (k !in after <==> k.scope == scope && Get(log[m].doc, "lsid") in items)
  }

  /** An accepted endSessions lists uuids. */
  lemma EndedSessionsAreLsids(doc: Doc)
    requires CommandOK(doc) && doc[0].key == "endSessions"
    ensures forall i :: 0 <= i < |Items(doc[0].value)| ==> SessionId(Items(doc[0].value)[i])
  {
    hide CommandOption, DatabaseName, OptionsOf, RequiredOf, OneEffect;
    assert VerbOf("endSessions") == EndSessions;
    hide VerbOf;
  }

  lemma ListedLsid(items: seq<Value>, v: Value, session: bytes)
    requires forall i :: 0 <= i < |items| ==> SessionId(items[i])
    requires if v == Null then session == []
             else v == Document([Field("id", Binary(4, session))]) && |session| == 16
    ensures v in items <==> exists i :: 0 <= i < |items| && SessionOf(items[i]) == session
  {
    forall i | 0 <= i < |items| ensures SessionOf(items[i]) == session <==> items[i] == v {
      assert items[i].fields == [Field("id", items[i].fields[0].value)];
    }
  }

  lemma RemovedByLsid(log: seq<Event>, before: Cursors, after: Cursors, scope: Scope, items: seq<Value>, now: Time)
    requires Lawful(log) && RemovesExactly(before, after, scope, items)
    requires forall k :: k in before ==> EntryOk(log, k, before[k], now)
    requires forall i :: 0 <= i < |items| ==> SessionId(items[i])
    ensures RemovesByLsid(log, before, after, scope, items)
  {
    hide Lawful, SessionId, SessionOf, Session, Cleared, Get;
    forall k | k in before ensures exists m :: LastStored(log, m, k, before[k]) {
      assert EntryOk(log, k, before[k], now);
    }
    forall k, m: nat | k in before && LastStored(log, m, k, before[k])
      ensures k !in after <==> k.scope == scope && Get(log[m].doc, "lsid") in items
    {
      KeptSession(log, m);
      SessionIsLsid(log[m].doc, log[m].deed.owners);
      ListedLsid(items, Get(log[m].doc, "lsid"), before[k].session);
    }
  }

  predicate AcksEnd(call: Call, reply: Doc) { call.doc[0].key == "endSessions" && Succeeded(reply) }

  function LastAction(call: Call, reply: Doc): int { |Actions(call.doc, call.owners, reply)| - 1 }

  lemma EndIsLast(call: Call, reply: Doc)
    requires AcksEnd(call, reply)
    ensures LastAction(call, reply) >= 0
    ensures Actions(call.doc, call.owners, reply)[LastAction(call, reply)] ==
            End(SessionsOf(Items(call.doc[0].value)))
  {
    hide Succeeded, CursorActions, DropAll, TargetIds, Gone, AuthNumber, SessionsOf;
  }

  /** All updates after the acknowledgement are done. */
  predicate PastEnd(call: Call, reply: Doc)
  {
    && AcksEnd(call, reply)
    && ((call.phase.Acting? && call.phase.reply == reply && call.phase.done > LastAction(call, reply)) ||
        (call.phase.Over? && call.phase.outcome.Answer? && call.phase.outcome.reply == reply))
  }

  lemma EndStep(s: System, p: nat, reply: Doc)
    requires p < |s.calls| && AcksEnd(s.calls[p], reply)
    requires LastAction(s.calls[p], reply) >= 0
    requires s.calls[p].phase == Acting(reply, LastAction(s.calls[p], reply))
    ensures RemovesExactly(s.cursors, Act(s, p).cursors, s.calls[p].scope, Items(s.calls[p].doc[0].value))
  {
    hide AcksEnd, Actions, SessionsOf, RemovesExactly;
    var call := s.calls[p];
    EndIsLast(call, reply);
    SessionsEndedRemove(s.cursors, call.scope, Items(call.doc[0].value));
  }

  lemma EarlyPhase(s: System, p: nat, answer: Option<Doc>)
    requires p < |s.calls| && !s.calls[p].phase.Acting? && !s.calls[p].phase.Over?
    ensures var t := Next(s, Advance(p, answer));
            && p < |t.calls| && (t.calls[p].phase.Acting? ==> t.calls[p].phase.done == 0)
            && (t.calls[p].phase.Over? ==> !t.calls[p].phase.outcome.Answer?)
  {
    hide CommandOK, Judge, Actions, Targets, TargetIds, Lookup, NamespaceList, Metadata, ForwardDoc, BadCursor,
         TargetNamespace, Session, Checked, Succeeded;
  }

  lemma EarlyStep(s: System, p: nat, answer: Option<Doc>, reply: Doc)
    requires p < |s.calls| && !s.calls[p].phase.Acting? && !s.calls[p].phase.Over?
    ensures var t := Next(s, Advance(p, answer));
            && |t.calls| == |s.calls| && t.calls[p].doc == s.calls[p].doc && t.calls[p].scope == s.calls[p].scope
            && !PastEnd(t.calls[p], reply)
  {
    hide Next, Actions, AcksEnd;
    var t := Next(s, Advance(p, answer));
    EarlyPhase(s, p, answer);
    AcksEndIsKept(s, p, answer, reply);
    if AcksEnd(t.calls[p], reply) { EndIsLast(t.calls[p], reply); }
  }

  lemma AcksEndIsKept(s: System, p: nat, answer: Option<Doc>, reply: Doc)
    requires p < |s.calls|
    ensures var t := Next(s, Advance(p, answer));
            && |t.calls| == |s.calls| && t.calls[p].doc == s.calls[p].doc && t.calls[p].scope == s.calls[p].scope
            && AcksEnd(t.calls[p], reply) == AcksEnd(s.calls[p], reply)
  {
    hide CommandOK, Judge, Actions, Targets, TargetIds, Lookup, NamespaceList, Metadata, ForwardDoc, BadCursor,
         TargetNamespace, Session, Checked, Applied, Fits, Succeeded, PublicReply, PublicVerb;
  }

  lemma ActStep(s: System, p: nat, reply: Doc)
    requires p < |s.calls| && s.calls[p].phase.Acting? && PastEnd(Act(s, p).calls[p], reply)
    ensures AcksEnd(s.calls[p], reply)
    ensures PastEnd(s.calls[p], reply) ||
            (s.calls[p].phase.reply == reply && s.calls[p].phase.done == LastAction(s.calls[p], reply))
  {
    hide Actions, Applied, Fits, Succeeded, PublicReply, PublicVerb;
  }

  /** A call gets past the end either by that last update, or from where it already was past it. */
  lemma ReachesEnd(s: System, c: Choice, p: nat, reply: Doc)
    requires p < |Next(s, c).calls| && PastEnd(Next(s, c).calls[p], reply)
    ensures p < |s.calls|
    ensures s.calls[p].doc == Next(s, c).calls[p].doc && s.calls[p].scope == Next(s, c).calls[p].scope
    ensures PastEnd(s.calls[p], reply) ||
            (c.Advance? && c.call == p && AcksEnd(s.calls[p], reply) && s.calls[p].phase.Acting? &&
             s.calls[p].phase.reply == reply && s.calls[p].phase.done == LastAction(s.calls[p], reply) &&
             Next(s, c) == Act(s, p))
  {
    hide Look, Ask, Send, Receive, Act, AcksEnd, LastAction;
    if c.Advance? && c.call < |s.calls| {
      SameCallElsewhere(s, c.call, c.answer, p);
      if c.call == p {
        AcksEndIsKept(s, p, c.answer, reply);
        if s.calls[p].phase.Acting? {
          ActStep(s, p, reply);
        } else if !s.calls[p].phase.Over? {
          EarlyStep(s, p, c.answer, reply);
        }
      }
    }
  }

  lemma SameCallElsewhere(s: System, q: nat, answer: Option<Doc>, p: nat)
    requires q < |s.calls|
    ensures var t := Next(s, Advance(q, answer));
            |t.calls| == |s.calls| && (p < |s.calls| && p != q ==> t.calls[p] == s.calls[p])
  {
    hide CommandOK, Judge, Actions, Targets, TargetIds, Lookup, NamespaceList, Metadata, ForwardDoc, BadCursor,
         TargetNamespace, Session, Checked, Applied, Fits, PublicReply, PublicVerb;
  }

  /** Step i of the run is the last update of call p after the acknowledgement, and removes exactly those entries. */
  ghost predicate EndedAt(run: seq<Choice>, i: nat, p: nat, reply: Doc, call: Call)
  {
    && i < |run| && run[i].Advance? && run[i].call == p
    && var s := Run(run[..i]);
    && p < |s.calls| && s.calls[p].phase.Acting? && s.calls[p].phase.reply == reply
    && s.calls[p].phase.done == LastAction(s.calls[p], reply)
    && s.calls[p].doc == call.doc && s.calls[p].scope == call.scope
    && RemovesExactly(s.cursors, Run(run[..i + 1]).cursors, call.scope, Items(call.doc[0].value))
    && RemovesByLsid(s.log, s.cursors, Run(run[..i + 1]).cursors, call.scope, Items(call.doc[0].value))
  }

  lemma EndingCallIsAccepted(run: seq<Choice>, p: nat, reply: Doc)
    requires p < |Run(run).calls| && Run(run).calls[p].phase.Acting? && AcksEnd(Run(run).calls[p], reply)
    ensures forall i :: 0 <= i < |Items(Run(run).calls[p].doc[0].value)| ==>
              SessionId(Items(Run(run).calls[p].doc[0].value)[i])
  {
    hide Run, Lawful, RegistryOk, Cleared, Entitled, ForwardDoc, CommandOK, SessionId, Targets, AllLooked, AllAllowed;
    InvariantHolds(run);
    var s := Run(run);
    var call := s.calls[p];
    assert CallOk(s.log, p, call);
    var e := Event(p, call.scope, call.doc, Received(call.owners, call.phase.reply));
    assert s.log[..|s.log|] == s.log;
    var n := Earlier(s.log, |s.log|, e);
    var f := ForwardedFirst(s.log, n);
    EndIsPlain(s.log[..f], call.doc, call.owners, p, call.scope);
    EndedSessionsAreLsids(call.doc);
  }

  lemma EndIsPlain(log: seq<Event>, doc: Request, owners: seq<Cursor>, p: nat, scope: Scope)
    requires Entitled(log, p, scope, doc, owners) && doc[0].key == "endSessions"
    ensures CommandOK(doc)
  {
    hide CommandOK, Masked, AllLooked, AllAllowed;
    assert |"endSessions"| == 11 && |"getMore"| == 7 && "endSessions"[0] == 'e' && "killCursors"[0] == 'k';
    assert owners == [];
  }

  lemma RemovedInRun(run: seq<Choice>, p: nat, after: Cursors, items: seq<Value>)
    requires p < |Run(run).calls|
    requires RemovesExactly(Run(run).cursors, after, Run(run).calls[p].scope, items)
    requires forall i :: 0 <= i < |items| ==> SessionId(items[i])
    ensures RemovesByLsid(Run(run).log, Run(run).cursors, after, Run(run).calls[p].scope, items)
  {
    hide Run, Lawful, RemovesExactly, RemovesByLsid, CallsOk, SessionId;
    InvariantHolds(run);
    RemovedByLsid(Run(run).log, Run(run).cursors, after, Run(run).calls[p].scope, items, Run(run).now);
  }

  lemma {:induction false} EndWasDone(run: seq<Choice>, p: nat, reply: Doc)
    requires p < |Run(run).calls| && PastEnd(Run(run).calls[p], reply)
    ensures exists i :: EndedAt(run, i, p, reply, Run(run).calls[p])
    decreases |run|
  {
    hide Run, Next, PastEnd, LastAction, AcksEnd, RemovesExactly, RemovesByLsid, SessionId;
    if run == [] {
      NothingRuns();
    } else {
      var init, c := run[..|run| - 1], run[|run| - 1];
      var s := Run(init);
      assert run == init + [c];
      RunSnoc(init, c);
      ReachesEnd(s, c, p, reply);
      if PastEnd(s.calls[p], reply) {
        EndWasDone(init, p, reply);
        var i: nat :| EndedAt(init, i, p, reply, s.calls[p]);
        assert run[..i] == init[..i] && run[..i + 1] == init[..i + 1];
        assert EndedAt(run, i, p, reply, Run(run).calls[p]);
      } else {
        EndIsLastOf(s.calls[p], reply);
        EndStep(s, p, reply);
        EndingCallIsAccepted(init, p, reply);
        RemovedInRun(init, p, Run(run).cursors, Items(s.calls[p].doc[0].value));
        assert run[..|init| + 1] == run && run[..|init|] == init;
        assert EndedAt(run, |init|, p, reply, Run(run).calls[p]);
      }
    }
  }

  lemma NothingRuns()
    ensures Run([]).calls == []
  {
  }

  lemma EndIsLastOf(call: Call, reply: Doc)
    requires AcksEnd(call, reply)
    ensures LastAction(call, reply) >= 0
  {
    EndIsLast(call, reply);
  }

  /**
   * In every run, before an acknowledged endSessions is answered, and after its reply was received, one step of it
   * removed exactly the entries of its own scope whose session it lists.
   */
  lemma AcknowledgedEndRemovesExactly(run: seq<Choice>, p: nat, reply: Doc)
    requires p < |Run(run).calls| && Run(run).calls[p].doc[0].key == "endSessions" && Succeeded(reply)
    requires var phase := Run(run).calls[p].phase;
             phase.Over? && phase.outcome.Answer? && phase.outcome.reply == reply
    ensures exists i :: EndedAt(run, i, p, reply, Run(run).calls[p])
  {
    hide Run, Succeeded, EndedAt;
    EndWasDone(run, p, reply);
  }
}
