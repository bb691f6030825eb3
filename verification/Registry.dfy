/** The cursor registry that all connections of a tunnel share. */
module Registry {
  import opened Values
  import opened PolicyTables

  /** Nanoseconds, as Go counts durations. */
  type Time = int

  const IDLE_LIMIT: Time := 30 * 60 * 1_000_000_000
  const SCOPE_LIMIT := 1024
  const TOTAL_LIMIT := 16384

  /** A registered target and token, as their digest. */
  type Scope = bytes

  datatype Key = Key(scope: Scope, id: int)

  datatype Cursor = Cursor(namespace: string, command: Verb, session: bytes, used: Time)

  type Cursors = map<Key, Cursor>

  predicate Idle(c: Cursor, now: Time) { now - c.used > IDLE_LIMIT }

  function Lookup(cs: Cursors, scope: Scope, id: int, ns: string, session: bytes, now: Time): Option<Cursor>
  {
    var k := Key(scope, id);
    if k in cs && cs[k].namespace == ns && cs[k].session == session && !Idle(cs[k], now) then Some(cs[k]) else None
  }

  function Live(cs: Cursors, now: Time): Cursors
  {
    map k | k in cs && !Idle(cs[k], now) :: cs[k]
  }

  function InScope(cs: Cursors, scope: Scope): set<Key>
  {
    set k | k in cs && k.scope == scope
  }

  predicate HasRoom(cs: Cursors, scope: Scope, id: int)
  {
    Key(scope, id) in cs || (|InScope(cs, scope)| < SCOPE_LIMIT && |cs| < TOTAL_LIMIT)
  }

  /** The registry after remembering a cursor: idle entries go in any case, the cursor comes when there is room. */
  function Remembered(cs: Cursors, scope: Scope, id: int, c: Cursor, now: Time): Cursors
  {
    var live := Live(cs, now);
    if HasRoom(live, scope, id) then live[Key(scope, id) := c.(used := now)] else live
  }

  function Forgotten(cs: Cursors, scope: Scope, id: int): Cursors { cs - {Key(scope, id)} }

  predicate Ended(k: Key, c: Cursor, scope: Scope, sessions: seq<bytes>)
  {
    k.scope == scope && c.session in sessions
  }

  function SessionsEnded(cs: Cursors, scope: Scope, sessions: seq<bytes>): Cursors
  {
    map k | k in cs && !Ended(k, cs[k], scope, sessions) :: cs[k]
  }

  /** The limits that hold in every state. */
  ghost predicate WithinLimits(cs: Cursors)
  {
    |cs| <= TOTAL_LIMIT && forall scope: Scope :: |InScope(cs, scope)| <= SCOPE_LIMIT
  }

  lemma Fewer<T>(a: set<T>, b: set<T>)
    requires a <= b
    ensures |a| <= |b|
  {
    assert b == a + (b - a);
  }

  lemma SubsetWithinLimits(small: Cursors, big: Cursors)
    requires small.Keys <= big.Keys && WithinLimits(big)
    ensures WithinLimits(small)
  {
    Fewer(small.Keys, big.Keys);
    forall scope: Scope ensures |InScope(small, scope)| <= SCOPE_LIMIT {
      Fewer(InScope(small, scope), InScope(big, scope));
    }
  }

  /** One more entry, in a scope and a registry with room for it. */
  lemma AddedWithinLimits(live: Cursors, k: Key, c: Cursor)
    requires WithinLimits(live) && HasRoom(live, k.scope, k.id)
    ensures WithinLimits(live[k := c])
  {
    hide WithinLimits, InScope;
    var after := live[k := c];
    assert after.Keys == live.Keys + {k};
    assert |after| <= TOTAL_LIMIT by {
      LimitsHold(live, k.scope);
    }
    forall other: Scope ensures |InScope(after, other)| <= SCOPE_LIMIT {
      LimitsHold(live, other);
      InScopeAdded(live, k, c, other);
    }
    LimitsFrom(after);
  }

  lemma LimitsHold(cs: Cursors, scope: Scope)
    requires WithinLimits(cs)
    ensures |cs| <= TOTAL_LIMIT && |InScope(cs, scope)| <= SCOPE_LIMIT
  {
    hide InScope;
  }

  lemma LimitsFrom(cs: Cursors)
    requires |cs| <= TOTAL_LIMIT && forall scope: Scope :: |InScope(cs, scope)| <= SCOPE_LIMIT
    ensures WithinLimits(cs)
  {
    hide InScope;
  }

  lemma InScopeAdded(cs: Cursors, k: Key, c: Cursor, scope: Scope)
    ensures InScope(cs[k := c], scope) == InScope(cs, scope) + (if scope == k.scope then {k} else {})
    ensures k in cs ==> InScope(cs[k := c], scope) == InScope(cs, scope)
  {
  }

  lemma RememberedWithinLimits(cs: Cursors, scope: Scope, id: int, c: Cursor, now: Time)
    requires WithinLimits(cs)
    ensures WithinLimits(Remembered(cs, scope, id, c, now))
  {
    hide WithinLimits, HasRoom, Live;
    var live := Live(cs, now);
    assert live.Keys <= cs.Keys by { LiveKeys(cs, now); }
    SubsetWithinLimits(live, cs);
    if HasRoom(live, scope, id) {
      AddedWithinLimits(live, Key(scope, id), c.(used := now));
    }
  }

  lemma LiveKeys(cs: Cursors, now: Time)
    ensures Live(cs, now).Keys <= cs.Keys
  {
  }

  /** A cursor is found exactly under its scope and number, for its namespace and session, within thirty minutes. */
  lemma LookupInNumbers(cs: Cursors, scope: Scope, id: int, ns: string, session: bytes, now: Time)
    ensures var k, found := Key(scope, id), Lookup(cs, scope, id, ns, session, now);
            && (found.Some? <==> k in cs && cs[k].namespace == ns && cs[k].session == session
                                 && now - cs[k].used <= 1_800_000_000_000)
            && (found.Some? ==> found.value == cs[k])
  {
  }

  /**
   * Remembering a cursor: entries unused for thirty minutes go; the cursor is stored, marked as used now, exactly when
   * it replaces one, or when fewer than 1024 entries of its scope and fewer than 16384 in all are left.
   */
  lemma RememberedInNumbers(cs: Cursors, scope: Scope, id: int, c: Cursor, now: Time, k: Key)
    ensures var live := map x | x in cs && now - cs[x].used <= 1_800_000_000_000 :: cs[x];
            var mine := set x | x in live && x.scope == scope;
            var room := Key(scope, id) in live || (|mine| < 1024 && |live| < 16384);
            && (HasRoom(Live(cs, now), scope, id) <==> room)
            && Remembered(cs, scope, id, c, now) ==
               if room then live[Key(scope, id) := Cursor(c.namespace, c.command, c.session, now)] else live
  {
    var live := map x | x in cs && now - cs[x].used <= 1_800_000_000_000 :: cs[x];
    assert live == Live(cs, now);
    assert InScope(live, scope) == set x | x in live && x.scope == scope;
  }

  /** mongoTunnelState: each method is one critical section, with the clock read once. */
  class TunnelState {
    var cursors: Cursors

    constructor ()
      ensures cursors == map[] && WithinLimits(cursors)
    {
      cursors := map[];
    }

    method Find(scope: Scope, id: int, ns: string, session: bytes, now: Time) returns (r: Option<Cursor>)
      ensures r == Lookup(cursors, scope, id, ns, session, now)
    {
      var k := Key(scope, id);
      if k !in cursors || cursors[k].namespace != ns || cursors[k].session != session
        || now - cursors[k].used > IDLE_LIMIT {
        return None;
      }
      return Some(cursors[k]);
    }

    /** The scan inside remember: idle entries go, the others of the scope are counted. */
    method Expire(scope: Scope, now: Time) returns (count: nat)
      modifies this
      ensures cursors == Live(old(cursors), now) && count == |InScope(cursors, scope)|
    {
      count := 0;
      var todo := cursors.Keys;
      ghost var counted: set<Key> := {};
      while todo != {}
        invariant todo <= cursors.Keys <= old(cursors).Keys
        invariant forall k :: k in cursors ==> cursors[k] == old(cursors)[k]
        invariant forall k :: k in old(cursors) && k !in todo ==> (k in cursors <==> !Idle(old(cursors)[k], now))
        invariant counted == (set k | k in cursors && k !in todo && k.scope == scope) && count == |counted|
        decreases todo
      {
        var k :| k in todo;
        todo := todo - {k};
        if now - cursors[k].used > IDLE_LIMIT {
          cursors := cursors - {k};
        } else if k.scope == scope {
          count := count + 1;
          counted := counted + {k};
        }
      }
      assert cursors == Live(old(cursors), now);
      assert counted == InScope(cursors, scope);
    }

    method Remember(scope: Scope, id: int, c: Cursor, now: Time) returns (ok: bool)
      requires WithinLimits(cursors)
      modifies this
      ensures cursors == Remembered(old(cursors), scope, id, c, now) && WithinLimits(cursors)
      ensures ok == HasRoom(Live(old(cursors), now), scope, id)
    {
      hide WithinLimits, Live, InScope;
      RememberedWithinLimits(cursors, scope, id, c, now);
      var count := Expire(scope, now);
      if Key(scope, id) !in cursors && (count >= SCOPE_LIMIT || |cursors| >= TOTAL_LIMIT) {
        return false;
      }
      cursors := cursors[Key(scope, id) := c.(used := now)];
      return true;
    }

    method Forget(scope: Scope, id: int)
      modifies this
      ensures cursors == Forgotten(old(cursors), scope, id)
    {
      cursors := cursors - {Key(scope, id)};
    }

    /** The removal that an acknowledged endSessions performs under the lock. */
    method EndSessions(scope: Scope, sessions: seq<bytes>)
      modifies this
      ensures cursors == SessionsEnded(old(cursors), scope, sessions)
    {
      for i := 0 to |sessions|
        invariant cursors == SessionsEnded(old(cursors), scope, sessions[..i])
      {
        label round:
        var todo := cursors.Keys;
        while todo != {}
          invariant todo <= cursors.Keys <= old@round(cursors).Keys
          invariant forall k :: k in cursors ==> cursors[k] == old@round(cursors)[k]
          invariant forall k :: k in old@round(cursors) && k !in todo ==>
                      (k in cursors <==> !(k.scope == scope && old@round(cursors)[k].session == sessions[i]))
          decreases todo
        {
          var k :| k in todo;
          todo := todo - {k};
          if k.scope == scope && cursors[k].session == sessions[i] {
            cursors := cursors - {k};
          }
        }
        assert sessions[..i + 1] == sessions[..i] + [sessions[i]];
      }
      assert sessions[..|sessions|] == sessions;
    }
  }
}
