/** The reconciliation of open tunnel listeners with the registered connections. */
module Listener {
  import opened Values

  datatype Conn = Conn(port: int, enabled: bool)

  type Listing = map<string, Conn>

  /** The port on which each active name listens. */
  type Active = map<string, int>

  function Ports(active: Active): set<int> { set name | name in active :: active[name] }

  predicate Enabled(conns: Listing, name: string) { name in conns && conns[name].enabled }

  /** No two names share a listener. */
  ghost predicate Separate(active: Active)
  {
    forall a, b :: a in active && b in active && a != b ==> active[a] != active[b]
  }

  /** Why an enabled name may be left without a listener. */
  predicate Unavailable(port: int, foreign: set<int>, before: Active, after: Active)
  {
    port < 1 || port > 65535 || port in foreign || port in Ports(before) || port in Ports(after)
  }

  /** What one sync may do, in whatever order it visits the names. */
  ghost predicate Synced(before: Active, conns: Listing, foreign: set<int>, after: Active)
  {
    && Separate(after)
    && (forall name :: name in after ==> Enabled(conns, name))
    && (forall name :: name in before && Enabled(conns, name) ==> name in after && after[name] == before[name])
    && (forall name :: name in after && name !in before ==>
          conns[name].port == 0 || after[name] == conns[name].port)
    && (forall name :: Enabled(conns, name) && name !in after ==>
          Unavailable(conns[name].port, foreign, before, after))
    && (forall name, other :: name in after && name !in before && other in before && other !in conns ==>
          after[name] != before[other])
  }

  /** The tunnel manager: its map of active listeners, and the sockets it really holds open. */
  class Manager {
    var active: Active
    var sockets: set<int>

    ghost predicate Valid()
      reads this
    {
      Separate(active) && sockets == Ports(active)
    }

    constructor ()
      ensures Valid() && active == map[]
    {
      active, sockets := map[], {};
      new;
      assert Ports(active) == {};
    }

    /** net.Listen: a port is granted when it is free; port 0 asks for any. */
    method Listen(port: int, foreign: set<int>) returns (granted: Option<int>)
      modifies this`sockets
      ensures granted.Some? ==> granted.value !in old(sockets) && granted.value !in foreign
      ensures granted.Some? ==> sockets == old(sockets) + {granted.value} && (port == 0 || granted.value == port)
      ensures granted.None? ==> sockets == old(sockets)
      ensures granted.None? ==> port < 1 || port > 65535 || port in foreign || port in sockets
    {
      if port == 0 {
        if p :| 1 <= p <= 65535 && p !in sockets && p !in foreign {
          sockets := sockets + {p};
          return Some(p);
        }
        return None;
      }
      if port < 1 || port > 65535 || port in foreign || port in sockets {
        return None;
      }
      sockets := sockets + {port};
      return Some(port);
    }

    method Close(name: string)
      requires Valid() && name in active
      modifies this
      ensures Valid() && active == old(active) - {name}
    {
      ClosedPorts(active, name);
      sockets := sockets - {active[name]};
      active := active - {name};
    }

    /** One visit of a desired name. */
    method Visit(name: string, c: Conn, foreign: set<int>)
      requires Valid()
      modifies this
      ensures Valid()
      ensures !c.enabled ==> active == old(active) - {name}
      ensures c.enabled && name in old(active) ==> active == old(active)
      ensures c.enabled && name !in old(active) ==>
                if name in active then
                  active == old(active)[name := active[name]] && (c.port == 0 || active[name] == c.port)
                else
                  active == old(active) && Unavailable(c.port, foreign, active, active)
    {
      if !c.enabled {
        if name in active {
          Close(name);
        }
        return;
      }
      if name in active {
        return;
      }
      var granted := Listen(c.port, foreign);
      if granted.None? {
        return;
      }
      OpenedPorts(active, name, granted.value);
      active := active[name := granted.value];
    }

    /**
     * The sync closure. The order in which Go walks the maps is arbitrary, and so is the choice of names here.
     * When the list cannot be loaded nothing happens.
     */
    method Sync(list: Option<Listing>, foreign: set<int>)
      requires Valid()
      modifies this
      ensures Valid()
      ensures list.None? ==> active == old(active)
      ensures list.Some? ==> Synced(old(active), list.value, foreign, active)
    {
      if list.None? {
        return;
      }
      var desired := list.value;
      var todo := desired.Keys;
      while todo != {}
        invariant Valid() && todo <= desired.Keys
        invariant forall name :: name in active ==> (name in old(active) && active[name] == old(active)[name]) ||
                                                    (Enabled(desired, name) && name !in todo && name !in old(active) &&
                                                     (desired[name].port == 0 || active[name] == desired[name].port))
        invariant forall name :: name in old(active) && Enabled(desired, name) ==>
                    name in active && active[name] == old(active)[name]
        invariant forall name :: name in desired && name !in todo && !desired[name].enabled ==> name !in active
        invariant forall name :: name in old(active) && (name in todo || name !in desired) ==> name in active
        invariant forall name :: Enabled(desired, name) && name !in todo && name !in active ==>
                    Unavailable(desired[name].port, foreign, old(active), EnabledOnly(active, desired))
        decreases todo
      {
        var name :| name in todo;
        todo := todo - {name};
        ghost var was := active;
        Visit(name, desired[name], foreign);
        PortsGrow(EnabledOnly(was, desired), EnabledOnly(active, desired));
        PortSplit(old(active), active, desired);
      }
      ghost var mid := active;
      assert forall name, other :: name in mid && name !in old(active) && other in old(active) && other !in desired ==>
          mid[name] != old(active)[other];
      ghost var kept := EnabledOnly(mid, desired);
      todo := active.Keys;
      while todo != {}
        invariant Valid() && todo <= active.Keys
        invariant forall name :: name in active ==> name in mid && active[name] == mid[name]
        invariant forall name :: name in mid && (name in todo || name in desired) ==> name in active
        invariant forall name :: name in active && name !in todo ==> name in desired
        decreases todo
      {
        var name :| name in todo;
        todo := todo - {name};
        if name in desired {
          continue;
        }
        Close(name);
      }
      assert active == kept;
    }
  }

  /** The part of the active listeners that a sync will keep. */
  ghost function EnabledOnly(active: Active, conns: Listing): Active
  {
    map name | name in active && Enabled(conns, name) :: active[name]
  }

  lemma PortsGrow(a: Active, b: Active)
    requires forall name :: name in a ==> name in b && b[name] == a[name]
    ensures Ports(a) <= Ports(b)
  {
    forall p | p in Ports(a) ensures p in Ports(b) {
      var n :| n in a && a[n] == p;
      assert b[n] == p;
    }
  }

  /** Every open port was open before or belongs to an enabled name. */
  lemma PortSplit(before: Active, active: Active, conns: Listing)
    requires forall name :: name in active ==>
               (name in before && active[name] == before[name]) || Enabled(conns, name)
    ensures Ports(active) <= Ports(before) + Ports(EnabledOnly(active, conns))
  {
    forall p | p in Ports(active) ensures p in Ports(before) || p in Ports(EnabledOnly(active, conns)) {
      var n :| n in active && active[n] == p;
      if Enabled(conns, n) {
        assert EnabledOnly(active, conns)[n] == p;
      } else {
        assert before[n] == p;
      }
    }
  }

  lemma ClosedPorts(active: Active, name: string)
    requires Separate(active) && name in active
    ensures Ports(active - {name}) == Ports(active) - {active[name]}
  {
    var rest := active - {name};
    forall p | p in Ports(active) - {active[name]} ensures p in Ports(rest) {
      var n :| n in active && active[n] == p;
      assert rest[n] == p;
    }
  }

  lemma OpenedPorts(active: Active, name: string, port: int)
    requires name !in active
    ensures Ports(active[name := port]) == Ports(active) + {port}
  {
    var more := active[name := port];
    assert more[name] == port;
    forall p | p in Ports(active) ensures p in Ports(more) {
      var n :| n in active && active[n] == p;
      assert more[n] == p;
    }
  }

  // ------------------------------------------------------------------ two syncs

  /** A stable list: every enabled connection has its own port, in range, and nobody else holds it. */
  ghost predicate WellAssigned(conns: Listing, foreign: set<int>)
  {
    && (forall a :: Enabled(conns, a) ==> 1 <= conns[a].port <= 65535 && conns[a].port !in foreign)
    && forall a, b :: Enabled(conns, a) && Enabled(conns, b) && a != b ==> conns[a].port != conns[b].port
  }

  /** Some enabled listener that stays open sits on the port that the name should get. */
  ghost predicate Blocked(before: Active, conns: Listing, name: string)
    requires Enabled(conns, name)
  {
    exists other :: other in before && other != name && Enabled(conns, other) && before[other] == conns[name].port
  }

  lemma {:induction false} OpensInTwo(before: Active, mid: Active, after: Active, conns: Listing, foreign: set<int>,
                                      name: string)
    requires Separate(before) && WellAssigned(conns, foreign) && Enabled(conns, name) && name !in before
    requires Synced(before, conns, foreign, mid) && Synced(mid, conns, foreign, after)
    ensures name in after <==> !Blocked(before, conns, name)
  {
    var port := conns[name].port;
    if Blocked(before, conns, name) {
      var other :| other in before && other != name && Enabled(conns, other) && before[other] == port;
      assert other in mid && mid[other] == port;
      assert other in after && after[other] == port;
    } else if name !in mid {
      forall n | n in mid ensures mid[n] != port {
        assert Enabled(conns, n);
        if n in before { assert mid[n] == before[n]; }
      }
      assert port !in Ports(mid);
      forall n | n in after && n != name ensures after[n] != port {
        assert Enabled(conns, n);
        if n in mid { assert after[n] == mid[n]; }
      }
      assert name !in after ==> port !in Ports(after);
    }
  }

  /**
   * Two syncs over a stable, well assigned list: the active names are exactly the enabled ones if and only if no
   * name that must still be opened finds its port under an enabled listener that was opened on another port earlier.
   */
  lemma TwoSyncsReconcile(before: Active, mid: Active, after: Active, conns: Listing, foreign: set<int>)
    requires Separate(before) && WellAssigned(conns, foreign)
    requires Synced(before, conns, foreign, mid) && Synced(mid, conns, foreign, after)
    ensures (forall name :: name in after <==> Enabled(conns, name)) <==>
            (forall name :: Enabled(conns, name) && name !in before ==> !Blocked(before, conns, name))
  {
    forall name | Enabled(conns, name) && name !in before ensures name in after <==> !Blocked(before, conns, name) {
      OpensInTwo(before, mid, after, conns, foreign, name);
    }
    forall name | Enabled(conns, name) && name in before ensures name in after {
      assert name in mid;
    }
  }

  /** In particular no listener on a stale port is enough, and then every name listens on its own port. */
  lemma NoStalePortReconciles(before: Active, mid: Active, after: Active, conns: Listing, foreign: set<int>)
    requires Separate(before) && WellAssigned(conns, foreign)
    requires forall name :: name in before && Enabled(conns, name) ==> before[name] == conns[name].port
    requires Synced(before, conns, foreign, mid) && Synced(mid, conns, foreign, after)
    ensures forall name :: name in after <==> Enabled(conns, name)
    ensures forall name :: name in after ==> after[name] == conns[name].port
  {
    TwoSyncsReconcile(before, mid, after, conns, foreign);
    forall name | name in after ensures after[name] == conns[name].port {
      if name in mid {
        assert after[name] == mid[name];
        if name in before { assert mid[name] == before[name]; }
      }
    }
  }

  /** A listener whose connection was removed while another one was enabled on the same port. */
  const LEFTOVER: Active := map["old" := 15432]
  const REPLACED: Listing := map["new" := Conn(15432, true)]

  /** One sync is not enough: the port is asked for while its last holder is still open. */
  lemma OneSyncOpensNothing(after: Active)
    ensures Separate(LEFTOVER) && WellAssigned(REPLACED, {})
    ensures Synced(LEFTOVER, REPLACED, {}, after) ==> after == map[]
  {
    assert "old" in LEFTOVER && "old" !in REPLACED && "new" !in LEFTOVER;
    assert forall name :: Enabled(REPLACED, name) ==> name == "new";
    assert after.Keys == {} ==> after == map[];
    assert Synced(LEFTOVER, REPLACED, {}, after) ==> after.Keys <= {"new"};
  }

  /** Whatever order Sync takes, from there it leaves no listener at all, and only the next Sync opens the new one. */
  method OneSyncIsNotEnough(manager: Manager)
    requires manager.Valid() && manager.active == LEFTOVER
    modifies manager
    ensures manager.active == map["new" := 15432]
  {
    manager.Sync(Some(REPLACED), {});
    OneSyncOpensNothing(manager.active);
    assert manager.active == map[];
    manager.Sync(Some(REPLACED), {});
    NothingHeld(manager.active);
  }

  lemma NothingHeld(after: Active)
    requires Synced(map[], REPLACED, {}, after)
    ensures after == map["new" := 15432]
  {
    var none: Active := map[];
    assert Ports(none) == {};
    assert Enabled(REPLACED, "new");
    assert after.Keys <= {"new"};
    assert after.Keys == {} ==> Ports(after) == {};
  }

  /**
   * A port that is not released: "a" is enabled and listens on the port it had before, which "b" should get now.
   * The first sync may leave things as they are, and so may the second.
   */
  lemma StalePortBlocks()
    ensures var before: Active := map["a" := 15433];
            var conns: Listing := map["a" := Conn(15432, true), "b" := Conn(15433, true)];
            && Separate(before) && WellAssigned(conns, {}) && Enabled(conns, "b") && Blocked(before, conns, "b")
            && Synced(before, conns, {}, before)
            && forall mid, after :: Synced(before, conns, {}, mid) && Synced(mid, conns, {}, after) ==> "b" !in after
  {
    var before: Active := map["a" := 15433];
    var conns: Listing := map["a" := Conn(15432, true), "b" := Conn(15433, true)];
    assert before["a"] in Ports(before);
    assert "a" in before && before["a"] == conns["b"].port;
    forall mid, after | Synced(before, conns, {}, mid) && Synced(mid, conns, {}, after) ensures "b" !in after {
      OpensInTwo(before, mid, after, conns, {}, "b");
    }
  }
}
