/** The listeners over a store that its own operations produced. */
module Reconciliation {
  import opened Values
  import opened Store
  import opened StoreTheorems
  import Listener

  /** What List gives the tunnel manager of a store. */
  function ListingOf(conns: Conns): Listener.Listing
  {
    map name | name in conns :: Listener.Conn(conns[name].port, conns[name].enabled)
  }

  /** An enabled connection can be listened for: its port exists and nobody else holds it. */
  predicate Servable(conns: Conns, foreign: set<int>, name: string)
  {
    name in conns && conns[name].enabled ==> conns[name].port <= 65535 && conns[name].port !in foreign
  }

  /** Distinct nonzero ports leave two things to ask of the enabled connections. */
  lemma WellAssignedIff(conns: Conns, foreign: set<int>)
    requires PortsOk(conns)
    ensures Listener.WellAssigned(ListingOf(conns), foreign) <==> forall name :: Servable(conns, foreign, name)
  {
    var l := ListingOf(conns);
    forall name ensures Listener.Enabled(l, name) <==> name in conns && conns[name].enabled {
    }
    if Listener.WellAssigned(l, foreign) {
      forall name ensures Servable(conns, foreign, name) {
        assert name in conns && conns[name].enabled ==> Listener.Enabled(l, name);
      }
    }
    if forall name :: Servable(conns, foreign, name) {
      forall name | Listener.Enabled(l, name) ensures 1 <= l[name].port <= 65535 && l[name].port !in foreign {
        assert Servable(conns, foreign, name);
      }
    }
  }

  /**
   * Any store that its operations reach, while nothing else changes: after two syncs the active names are exactly the
   * enabled ones if and only if no name still to be opened finds its port under an enabled listener opened earlier
   * on that port. All that is asked of the store is that its enabled ports exist and are not held by others.
   */
  lemma ReachableStoreReconciles(key: bytes, ops: seq<(Op, World)>, states: seq<Conns>, i: nat, foreign: set<int>,
                                 before: Listener.Active, mid: Listener.Active, after: Listener.Active)
    requires History(key, ops, states) && i < |states| && forall name :: Servable(states[i], foreign, name)
    requires Listener.Separate(before)
    requires Listener.Synced(before, ListingOf(states[i]), foreign, mid)
    requires Listener.Synced(mid, ListingOf(states[i]), foreign, after)
    ensures (forall name :: name in after <==> name in states[i] && states[i][name].enabled) <==>
            (forall name :: Listener.Enabled(ListingOf(states[i]), name) && name !in before ==>
               !Listener.Blocked(before, ListingOf(states[i]), name))
  {
    hide Listener.Synced, Listener.Blocked, History;
    PortsAlwaysDistinct(key, ops, states, i);
    WellAssignedIff(states[i], foreign);
    Listener.TwoSyncsReconcile(before, mid, after, ListingOf(states[i]), foreign);
    forall name ensures Listener.Enabled(ListingOf(states[i]), name) <==>
                        name in states[i] && states[i][name].enabled {
    }
  }

  /** In particular from a fresh start: every enabled connection listens on its own port, and nothing else does. */
  lemma FreshStartReconciles(key: bytes, ops: seq<(Op, World)>, states: seq<Conns>, i: nat, foreign: set<int>,
                             mid: Listener.Active, after: Listener.Active)
    requires History(key, ops, states) && i < |states| && forall name :: Servable(states[i], foreign, name)
    requires Listener.Synced(map[], ListingOf(states[i]), foreign, mid)
    requires Listener.Synced(mid, ListingOf(states[i]), foreign, after)
    ensures forall name :: name in after <==> name in states[i] && states[i][name].enabled
    ensures forall name :: name in after ==> after[name] == states[i][name].port
  {
    hide Listener.Synced, History;
    PortsAlwaysDistinct(key, ops, states, i);
    WellAssignedIff(states[i], foreign);
    Listener.NoStalePortReconciles(map[], mid, after, ListingOf(states[i]), foreign);
    forall name ensures Listener.Enabled(ListingOf(states[i]), name) <==>
                        name in states[i] && states[i][name].enabled {
    }
  }
}
