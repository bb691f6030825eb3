/** What execute does to the registry after a reply, as a whole. */
module Settlement {
  import opened Values
  import opened PolicyTables
  import opened Registry
  import opened Execute
  import opened Interleaving
  import opened InterleavingInvariant

  // ----------------------------------------------------------- updating the registry

  /** The registry after a list of updates; an update that does not fit is the last one. */
  function AppliedAll(cs: Cursors, scope: Scope, actions: seq<Action>, now: Time): Cursors
    decreases |actions|
  {
    if actions == [] then cs
    else if !Fits(cs, scope, actions[0], now) then Applied(cs, scope, actions[0], now)
    else AppliedAll(Applied(cs, scope, actions[0], now), scope, actions[1..], now)
  }

  predicate AllFit(cs: Cursors, scope: Scope, actions: seq<Action>, now: Time)
    decreases |actions|
  {
    actions == [] ||
    (Fits(cs, scope, actions[0], now) && AllFit(Applied(cs, scope, actions[0], now), scope, actions[1..], now))
  }

  lemma {:induction false} AppliedAllSplit(cs: Cursors, scope: Scope, a: seq<Action>, b: seq<Action>, now: Time)
    requires AllFit(cs, scope, a, now)
    ensures AppliedAll(cs, scope, a + b, now) == AppliedAll(AppliedAll(cs, scope, a, now), scope, b, now)
    ensures AllFit(cs, scope, a + b, now) <==> AllFit(AppliedAll(cs, scope, a, now), scope, b, now)
    decreases |a|
  {
    hide Fits, Applied;
    if a == [] {
      assert a + b == b;
    } else {
      assert (a + b)[1..] == a[1..] + b;
      AppliedAllSplit(Applied(cs, scope, a[0], now), scope, a[1..], b, now);
    }
  }

  lemma {:induction false} DropsFit(cs: Cursors, scope: Scope, ids: seq<int>, now: Time)
    ensures AllFit(cs, scope, DropAll(ids), now)
    decreases |ids|
  {
    hide HasRoom;
    if ids != [] { DropsFit(Forgotten(cs, scope, ids[0]), scope, ids[1..], now); }
  }

  lemma {:induction false} DropAllSplit(a: seq<int>, b: seq<int>)
    ensures DropAll(a + b) == DropAll(a) + DropAll(b)
  {
    if a == [] {
      assert a + b == b;
    } else {
      assert (a + b)[1..] == a[1..] + b;
      DropAllSplit(a[1..], b);
    }
  }

  /** One more cursor forgotten. */
  lemma OneMoreDropped(cs: Cursors, scope: Scope, ids: seq<int>, id: int, now: Time)
    ensures AppliedAll(cs, scope, DropAll(ids + [id]), now) ==
            Forgotten(AppliedAll(cs, scope, DropAll(ids), now), scope, id)
  {
    hide HasRoom;
    DropAllSplit(ids, [id]);
    assert [id][1..] == [];
    DropsFit(cs, scope, ids, now);
    AppliedAllSplit(cs, scope, DropAll(ids), DropAll([id]), now);
    var mid := AppliedAll(cs, scope, DropAll(ids), now);
    assert DropAll([id]) == [Drop(id)];
    assert [Drop(id)][1..] == [];
    assert AppliedAll(mid, scope, [Drop(id)], now) == Applied(mid, scope, Drop(id), now);
  }

  lemma {:induction false} ExceptStep(ids: seq<int>, k: nat, id: int)
    requires k < |ids|
    ensures Except(ids[..k + 1], id) == Except(ids[..k], id) + (if ids[k] == id then [] else [ids[k]])
  {
    if k > 0 {
      assert ids[..k + 1][1..] == ids[1..][..k] && ids[..k][1..] == ids[1..][..k - 1];
      ExceptStep(ids[1..], k - 1, id);
    } else {
      assert ids[..1][1..] == [];
    }
  }

  lemma {:induction false} AckedStep(items: seq<Value>, k: nat)
    requires k < |items|
    ensures AckedIds(items[..k + 1]) == AckedIds(items[..k]) + [IdOrZero(items[k])]
  {
    hide IdOrZero;
    if k > 0 {
      assert items[..k + 1][1..] == items[1..][..k] && items[..k][1..] == items[1..][..k - 1];
      AckedStep(items[1..], k - 1);
    } else {
      assert items[..1][1..] == [];
    }
  }

  /** Forget the ids in turn, except one. */
  method ForgetAll(state: TunnelState, scope: Scope, ids: seq<int>, keep: int, ghost now: Time)
    modifies state
    ensures state.cursors == AppliedAll(old(state.cursors), scope, DropAll(Except(ids, keep)), now)
  {
    hide AppliedAll;
    NothingApplied(state.cursors, scope, now);
    for k := 0 to |ids|
      invariant state.cursors == AppliedAll(old(state.cursors), scope, DropAll(Except(ids[..k], keep)), now)
    {
      ExceptStep(ids, k, keep);
      if ids[k] != keep {
        OneMoreDropped(old(state.cursors), scope, Except(ids[..k], keep), ids[k], now);
        state.Forget(scope, ids[k]);
      } else {
        assert Except(ids[..k], keep) + [] == Except(ids[..k], keep);
      }
    }
    assert ids[..|ids|] == ids;
  }

  lemma NothingApplied(cs: Cursors, scope: Scope, now: Time)
    ensures AppliedAll(cs, scope, [], now) == cs && AllFit(cs, scope, [], now)
  {
  }

  lemma OneApplied(cs: Cursors, scope: Scope, a: Action, now: Time)
    ensures AppliedAll(cs, scope, [a], now) == Applied(cs, scope, a, now)
    ensures AllFit(cs, scope, [a], now) <==> Fits(cs, scope, a, now)
  {
    hide Fits, Applied;
    assert [a][1..] == [];
  }

  method ForgetListed(state: TunnelState, scope: Scope, v: Value, ghost now: Time)
    modifies state
    ensures state.cursors ==
            AppliedAll(old(state.cursors), scope, DropAll(if v.Array? then AckedIds(v.items) else []), now)
  {
    hide AppliedAll, IdOrZero;
    NothingApplied(state.cursors, scope, now);
    if !v.Array? {
      return;
    }
    for k := 0 to |v.items|
      invariant state.cursors == AppliedAll(old(state.cursors), scope, DropAll(AckedIds(v.items[..k])), now)
    {
      AckedStep(v.items, k);
      OneMoreDropped(old(state.cursors), scope, AckedIds(v.items[..k]), IdOrZero(v.items[k]), now);
      state.Forget(scope, IdOrZero(v.items[k]));
    }
    assert v.items[..|v.items|] == v.items;
  }

  lemma DropsApplied(cs: Cursors, scope: Scope, a: seq<int>, b: seq<int>, now: Time)
    ensures AppliedAll(cs, scope, DropAll(a + b), now) ==
            AppliedAll(AppliedAll(cs, scope, DropAll(a), now), scope, DropAll(b), now)
  {
    hide AppliedAll, AllFit, DropAll;
    DropAllSplit(a, b);
    DropsFit(cs, scope, a, now);
    AppliedAllSplit(cs, scope, DropAll(a), DropAll(b), now);
  }

  /** The ids of the request, all forgotten when the backend no longer knows the cursor. */
  method ForgetUnknown(state: TunnelState, scope: Scope, ids: seq<int>, ghost now: Time)
    modifies state
    ensures state.cursors == AppliedAll(old(state.cursors), scope, DropAll(ids), now)
  {
    hide AppliedAll;
    NothingApplied(state.cursors, scope, now);
    for k := 0 to |ids|
      invariant state.cursors == AppliedAll(old(state.cursors), scope, DropAll(ids[..k]), now)
    {
      assert ids[..k + 1] == ids[..k] + [ids[k]];
      OneMoreDropped(old(state.cursors), scope, ids[..k], ids[k], now);
      state.Forget(scope, ids[k]);
    }
    assert ids[..|ids|] == ids;
  }

  method RememberCursor(state: TunnelState, scope: Scope, doc: Request, ids: seq<int>, owners: seq<Cursor>, reply: Doc,
                        now: Time)
    returns (ok: bool)
    requires Targets(doc) == Some(ids) && HasCursor(reply) && WithinLimits(state.cursors)
    modifies state
    ensures WithinLimits(state.cursors)
    ensures state.cursors == AppliedAll(old(state.cursors), scope, CursorActions(doc, owners, reply), now)
    ensures ok == AllFit(old(state.cursors), scope, CursorActions(doc, owners, reply), now)
  {
    hide AppliedAll, AllFit, HasCursor, NewCursor, Targets, DropAll, WithinLimits, IdOrZero, HasRoom, Remembered;
    ghost var cs := state.cursors;
    var id := IdOrZero(Subfield(reply, "id"));
    ghost var drops := DropAll(Except(ids, id));
    assert TargetIds(doc) == ids;
    if id != 0 {
      var cursor := NewCursor(doc, owners, reply);
      OneApplied(cs, scope, Keep(id, cursor), now);
      assert CursorActions(doc, owners, reply) == [Keep(id, cursor)] + drops;
      ok := state.Remember(scope, id, cursor, now);
      if !ok {
        StopsAtFirst(cs, scope, Keep(id, cursor), drops, now);
        return;
      }
      AppliedAllSplit(cs, scope, [Keep(id, cursor)], drops, now);
    } else {
      assert CursorActions(doc, owners, reply) == drops;
    }
    ghost var mid := state.cursors;
    DropsFit(mid, scope, Except(ids, id), now);
    ForgetAll(state, scope, ids, id, now);
    DropsStayWithin(mid, scope, Except(ids, id), now);
    return true;
  }

  lemma StopsAtFirst(cs: Cursors, scope: Scope, a: Action, rest: seq<Action>, now: Time)
    requires !Fits(cs, scope, a, now)
    ensures AppliedAll(cs, scope, [a] + rest, now) == Applied(cs, scope, a, now)
    ensures !AllFit(cs, scope, [a] + rest, now)
  {
    hide Fits, Applied;
  }

  lemma {:induction false} DropsStayWithin(cs: Cursors, scope: Scope, ids: seq<int>, now: Time)
    requires WithinLimits(cs)
    ensures WithinLimits(AppliedAll(cs, scope, DropAll(ids), now))
    decreases |ids|
  {
    hide WithinLimits, HasRoom;
    if ids != [] {
      SubsetWithinLimits(Forgotten(cs, scope, ids[0]), cs);
      DropsStayWithin(Forgotten(cs, scope, ids[0]), scope, ids[1..], now);
    }
  }

  /** Everything execute does to the registry after a reply, in its own order. */
  method Settle(state: TunnelState, scope: Scope, doc: Request, ids: seq<int>, owners: seq<Cursor>, reply: Doc,
                now: Time)
    returns (ok: bool)
    requires Targets(doc) == Some(ids) && WithinLimits(state.cursors)
    modifies state
    ensures state.cursors == AppliedAll(old(state.cursors), scope, Actions(doc, owners, reply), now)
    ensures ok == AllFit(old(state.cursors), scope, Actions(doc, owners, reply), now)
  {
    hide AppliedAll, AllFit, HasCursor, Targets, DropAll, WithinLimits, Succeeded, AuthNumber, CursorActions, Gone;
    ghost var cs := state.cursors;
    ghost var unknown := if !Succeeded(reply) && AuthNumber(Get(reply, "code")) == Some(43)
                         then DropAll(TargetIds(doc)) else [];
    ghost var kept := CursorActions(doc, owners, reply);
    ghost var gone := if doc[0].key == "killCursors" && Succeeded(reply) then DropAll(Gone(reply)) else [];
    ghost var ended := if doc[0].key == "endSessions" && Succeeded(reply)
                       then [End(SessionsOf(Items(doc[0].value)))] else [];
    assert Actions(doc, owners, reply) == unknown + (kept + (gone + ended));
    NothingApplied(cs, scope, now);
    if !Succeeded(reply) && AuthNumber(Get(reply, "code")) == Some(43) {
      ForgetUnknown(state, scope, ids, now);
      DropsFit(cs, scope, ids, now);
      DropsStayWithin(cs, scope, ids, now);
    }
    AppliedAllSplit(cs, scope, unknown, kept + (gone + ended), now);
    ghost var cs1 := state.cursors;
    NothingApplied(cs1, scope, now);
    if HasCursor(reply) {
      ok := RememberCursor(state, scope, doc, ids, owners, reply, now);
      if !ok {
        StopsInside(cs1, scope, kept, gone + ended, now);
        return;
      }
    } else {
      NoCursorNoAction(doc, owners, reply);
    }
    AppliedAllSplit(cs1, scope, kept, gone + ended, now);
    ghost var cs2 := state.cursors;
    NothingApplied(cs2, scope, now);
    if doc[0].key == "killCursors" && Succeeded(reply) {
      ForgetGone(state, scope, reply, now);
      DropsFit(cs2, scope, Gone(reply), now);
    }
    AppliedAllSplit(cs2, scope, gone, ended, now);
    ghost var cs3 := state.cursors;
    NothingApplied(cs3, scope, now);
    if doc[0].key == "endSessions" && Succeeded(reply) {
      var sessions := SessionsOf(Items(doc[0].value));
      OneApplied(cs3, scope, End(sessions), now);
      OnlyKeepNeedsRoom(cs3, scope, End(sessions), now);
      state.EndSessions(scope, sessions);
    }
    return true;
  }

  lemma NoCursorNoAction(doc: Request, owners: seq<Cursor>, reply: Doc)
    requires !HasCursor(reply)
    ensures CursorActions(doc, owners, reply) == []
  {
    hide HasCursor, TargetIds, NewCursor;
  }

  lemma {:induction false} StopsInside(cs: Cursors, scope: Scope, a: seq<Action>, b: seq<Action>, now: Time)
    requires !AllFit(cs, scope, a, now)
    ensures AppliedAll(cs, scope, a + b, now) == AppliedAll(cs, scope, a, now)
    ensures !AllFit(cs, scope, a + b, now)
    decreases |a|
  {
    hide Fits, Applied;
    assert (a + b)[1..] == a[1..] + b;
    if Fits(cs, scope, a[0], now) {
      StopsInside(Applied(cs, scope, a[0], now), scope, a[1..], b, now);
    }
  }

  method ForgetGone(state: TunnelState, scope: Scope, reply: Doc, ghost now: Time)
    modifies state
    ensures state.cursors == AppliedAll(old(state.cursors), scope, DropAll(Gone(reply)), now)
  {
    hide AppliedAll, AllFit, DropAll, AckedIds;
    ghost var cs := state.cursors;
    ghost var a, b, c := Listed(reply, "cursorsKilled"), Listed(reply, "cursorsNotFound"),
      Listed(reply, "cursorsUnknown");
    assert AckedIds([]) == [] by { NothingAcked(); }
    ForgetListed(state, scope, Get(reply, "cursorsKilled"), now);
    ForgetListed(state, scope, Get(reply, "cursorsNotFound"), now);
    DropsApplied(cs, scope, a, b, now);
    ForgetListed(state, scope, Get(reply, "cursorsUnknown"), now);
    DropsApplied(cs, scope, a + b, c, now);
  }

  lemma NothingAcked()
    ensures AckedIds([]) == []
  {
  }

  // ----------------------------------------------------- the outcome, entry by entry

  lemma {:induction false} DropsExactly(cs: Cursors, scope: Scope, ids: seq<int>, now: Time, k: Key)
    ensures var after := AppliedAll(cs, scope, DropAll(ids), now);
            && (k in after <==> k in cs && !(k.scope == scope && k.id in ids))
            && (k in after ==> after[k] == cs[k])
    decreases |ids|
  {
    hide HasRoom;
    if ids != [] { DropsExactly(Forgotten(cs, scope, ids[0]), scope, ids[1..], now, k); }
  }

  lemma {:induction false} ExceptMembers(ids: seq<int>, id: int, x: int)
    ensures x in Except(ids, id) <==> x in ids && x != id
  {
    if ids != [] { ExceptMembers(ids[1..], id, x); }
  }

  /** The cursor that a reply offers; 0 when it offers none. */
  function Offered(reply: Doc): int
  {
    if HasCursor(reply) then IdOrZero(Subfield(reply, "id")) else 0
  }

  /** Ids that the call gives up: unknown to the backend, replaced by the offered cursor, or reported as gone. */
  predicate GivenUp(doc: Request, reply: Doc, id: int)
  {
    || (!Succeeded(reply) && AuthNumber(Get(reply, "code")) == Some(43) && id in TargetIds(doc))
    || (HasCursor(reply) && id in TargetIds(doc) && id != Offered(reply))
    || (doc[0].key == "killCursors" && Succeeded(reply) && id in Gone(reply))
  }

  /** The request works on the cursor with this number. */
  predicate Targeted(doc: Request, id: int)
  {
    || (doc[0].key == "getMore" && AuthNumber(doc[0].value) == Some(id))
    || (doc[0].key == "killCursors" && Get(doc, "cursors").Array? &&
        exists i :: 0 <= i < |Get(doc, "cursors").items| && AuthNumber(Get(doc, "cursors").items[i]) == Some(id))
  }

  predicate ReportedIn(reply: Doc, key: string, id: int)
  {
    Get(reply, key).Array? && exists i :: 0 <= i < |Get(reply, key).items| && IdOrZero(Get(reply, key).items[i]) == id
  }

  lemma {:induction false} AckedMembers(items: seq<Value>, id: int)
    ensures id in AckedIds(items) <==> exists i :: 0 <= i < |items| && IdOrZero(items[i]) == id
  {
    hide IdOrZero;
    if items != [] {
      AckedMembers(items[1..], id);
      if i :| 0 <= i < |items| && IdOrZero(items[i]) == id {
        assert i > 0 ==> items[1..][i - 1] == items[i];
      }
      if i :| 0 <= i < |items[1..]| && IdOrZero(items[1..][i]) == id {
        assert items[i + 1] == items[1..][i];
      }
    }
  }

  lemma ListedIsReported(reply: Doc, key: string, id: int)
    ensures id in Listed(reply, key) <==> ReportedIn(reply, key, id)
  {
    hide AckedIds, IdOrZero;
    if Get(reply, key).Array? {
      AckedMembers(Get(reply, key).items, id);
    }
  }

  lemma TargetsInWords(doc: Request, id: int)
    requires Targets(doc).Some?
    ensures id in TargetIds(doc) <==> Targeted(doc, id)
  {
    hide AuthNumber, Ids;
    TargetsExact(doc);
    assert |"getMore"| == 7 && |"killCursors"| == 11;
    if doc[0].key == "killCursors" {
      var items, ids := Get(doc, "cursors").items, TargetIds(doc);
      if id in ids {
        var i :| 0 <= i < |ids| && ids[i] == id;
        assert AuthNumber(items[i]) == Some(id);
      }
      if Targeted(doc, id) {
        var i :| 0 <= i < |items| && AuthNumber(items[i]) == Some(id);
        assert ids[i] == id;
      }
    }
  }

  /**
   * What a call gives up, in the words of the request and the reply: the cursors it works on when the backend does not
   * know them (code 43) or answers with another cursor, and what a killCursors is told is killed, not found or unknown.
   */
  lemma GivenUpInWords(doc: Request, reply: Doc, id: int)
    requires Targets(doc).Some?
    ensures var ok, cursor := AuthNumber(Get(reply, "ok")) == Some(1), Get(reply, "cursor");
            GivenUp(doc, reply, id) <==>
            || (!ok && AuthNumber(Get(reply, "code")) == Some(43) && Targeted(doc, id))
            || (ok && cursor.Document? && Targeted(doc, id) && id != IdOrZero(Get(cursor.fields, "id")))
            || (ok && doc[0].key == "killCursors" &&
                (ReportedIn(reply, "cursorsKilled", id) || ReportedIn(reply, "cursorsNotFound", id) ||
                 ReportedIn(reply, "cursorsUnknown", id)))
  {
    hide AuthNumber, TargetIds, Targeted, Listed, ReportedIn, Get, Targets, IdOrZero;
    TargetsInWords(doc, id);
    ListedIsReported(reply, "cursorsKilled", id);
    ListedIsReported(reply, "cursorsNotFound", id);
    ListedIsReported(reply, "cursorsUnknown", id);
  }

  predicate EndsSession(doc: Request, reply: Doc, session: bytes)
  {
    doc[0].key == "endSessions" && Succeeded(reply) && session in SessionsOf(Items(doc[0].value))
  }

  /** The entry that a key would have: the offered cursor, or what was there. */
  function EntryAt(cs: Cursors, scope: Scope, doc: Request, owners: seq<Cursor>, reply: Doc, now: Time, k: Key)
    : Option<Cursor>
  {
    if Offered(reply) != 0 && k == Key(scope, Offered(reply)) then Some(NewCursor(doc, owners, reply).(used := now))
    else if k in cs && !(Offered(reply) != 0 && Idle(cs[k], now)) then Some(cs[k])
    else None
  }

  function FindEntry(cs: Cursors, k: Key): Option<Cursor> { if k in cs then Some(cs[k]) else None }

  lemma FirstDrops(cs: Cursors, scope: Scope, active: bool, ids: seq<int>, now: Time, k: Key)
    ensures var a := if active then DropAll(ids) else [];
            && AllFit(cs, scope, a, now)
            && FindEntry(AppliedAll(cs, scope, a, now), k) ==
               if active && k.scope == scope && k.id in ids then None else FindEntry(cs, k)
  {
    hide AppliedAll, AllFit, DropAll;
    NothingApplied(cs, scope, now);
    DropsFit(cs, scope, ids, now);
    DropsExactly(cs, scope, ids, now, k);
  }

  lemma FitsInFront(cs: Cursors, scope: Scope, a: seq<Action>, b: seq<Action>, now: Time)
    requires AllFit(cs, scope, a + b, now)
    ensures AllFit(cs, scope, a, now)
  {
    hide AllFit, AppliedAll;
    if !AllFit(cs, scope, a, now) {
      StopsInside(cs, scope, a, b, now);
    }
  }

  lemma CursorOutcome(cs: Cursors, scope: Scope, doc: Request, owners: seq<Cursor>, reply: Doc, now: Time, k: Key)
    requires AllFit(cs, scope, CursorActions(doc, owners, reply), now)
    ensures var entry := EntryAt(cs, scope, doc, owners, reply, now, k);
            FindEntry(AppliedAll(cs, scope, CursorActions(doc, owners, reply), now), k) ==
            if HasCursor(reply) && k.scope == scope && k.id in TargetIds(doc) && k.id != Offered(reply) then None
            else entry
  {
    hide AppliedAll, AllFit, DropAll, TargetIds, NewCursor, IdOrZero, HasRoom, HasCursor;
    NothingApplied(cs, scope, now);
    if HasCursor(reply) {
      var id := Offered(reply);
      var drops := Except(TargetIds(doc), id);
      ExceptMembers(TargetIds(doc), id, k.id);
      if id != 0 {
        var keep := Keep(id, NewCursor(doc, owners, reply));
        assert CursorActions(doc, owners, reply) == [keep] + DropAll(drops);
        OneApplied(cs, scope, keep, now);
        FitsInFront(cs, scope, [keep], DropAll(drops), now);
        AppliedAllSplit(cs, scope, [keep], DropAll(drops), now);
        DropsExactly(AppliedAll(cs, scope, [keep], now), scope, drops, now, k);
      } else {
        assert CursorActions(doc, owners, reply) == DropAll(drops);
        DropsExactly(cs, scope, drops, now, k);
      }
    }
  }

  lemma EndOutcome(cs: Cursors, scope: Scope, ended: bool, sessions: seq<bytes>, now: Time, k: Key)
    ensures FindEntry(AppliedAll(cs, scope, if ended then [End(sessions)] else [], now), k) ==
            if ended && k in cs && k.scope == scope && cs[k].session in sessions then None else FindEntry(cs, k)
  {
    hide AppliedAll, AllFit;
    NothingApplied(cs, scope, now);
    OneApplied(cs, scope, End(sessions), now);
  }

  /**
   * When all updates fit, the registry afterwards is determined key by key: the offered cursor is stored, a
   * remembered cursor sweeps out the idle entries, what the call gives up is gone from its scope and nothing else,
   * and so are the sessions it ended.
   */
  lemma SettledExactly(cs: Cursors, scope: Scope, doc: Request, owners: seq<Cursor>, reply: Doc, now: Time, k: Key)
    requires AllFit(cs, scope, Actions(doc, owners, reply), now)
    ensures var entry := EntryAt(cs, scope, doc, owners, reply, now, k);
            FindEntry(AppliedAll(cs, scope, Actions(doc, owners, reply), now), k) ==
            if entry.Some? && k.scope == scope &&
               (GivenUp(doc, reply, k.id) || EndsSession(doc, reply, entry.value.session))
            then None else entry
  {
    hide AppliedAll, AllFit, HasCursor, DropAll, Succeeded, AuthNumber, CursorActions, Gone, TargetIds, NewCursor,
         SessionsOf, IdOrZero;
    var unknown := !Succeeded(reply) && AuthNumber(Get(reply, "code")) == Some(43);
    var a := if unknown then DropAll(TargetIds(doc)) else [];
    var b := CursorActions(doc, owners, reply);
    var killed := doc[0].key == "killCursors" && Succeeded(reply);
    var c := if killed then DropAll(Gone(reply)) else [];
    var ended := doc[0].key == "endSessions" && Succeeded(reply);
    var d := if ended then [End(SessionsOf(Items(doc[0].value)))] else [];
    assert Actions(doc, owners, reply) == a + (b + (c + d));
    FirstDrops(cs, scope, unknown, TargetIds(doc), now, k);
    AppliedAllSplit(cs, scope, a, b + (c + d), now);
    var cs1 := AppliedAll(cs, scope, a, now);
    FitsInFront(cs1, scope, b, c + d, now);
    AppliedAllSplit(cs1, scope, b, c + d, now);
    CursorOutcome(cs1, scope, doc, owners, reply, now, k);
    var cs2 := AppliedAll(cs1, scope, b, now);
    FirstDrops(cs2, scope, killed, Gone(reply), now, k);
    AppliedAllSplit(cs2, scope, c, d, now);
    var cs3 := AppliedAll(cs2, scope, c, now);
    EndOutcome(cs3, scope, ended, SessionsOf(Items(doc[0].value)), now, k);
    if HasCursor(reply) { CursorMeansSuccess(reply); }
  }
}
