/** A history of the store in which the automatic ports run past the last port there is. */
module PortExhaustion {
  import opened Values
  import opened Octets
  import opened Sealing
  import opened Store
  import opened StoreTheorems

  function NameOf(i: nat): string { "c" + Decimal(i) }

  lemma NamesDiffer(i: nat, j: nat)
    requires NameOf(i) == NameOf(j)
    ensures i == j
  {
    assert NameOf(i)[1..] == Decimal(i) && NameOf(j)[1..] == Decimal(j);
    FromDecimal(i);
    FromDecimal(j);
  }

  lemma NameIsValid(i: nat)
    ensures ConnName(NameOf(i))
  {
    var digits := Decimal(i);
    assert OnlyDigits(digits);
    forall k | 0 <= k < |NameOf(i)| ensures Alphanumeric(NameOf(i)[k]) {
      if k > 0 { assert NameOf(i)[k] == digits[k - 1]; }
    }
  }

  const CALM := World(true, true, Some("redis"), [Some("token")])

  function Registered(key: bytes, port: int): Entry
  {
    Entry(Sealed(key, "redis://db"), "redis", port, Sealed(key, "token"), false)
  }

  /** The store after n connections were added without asking for a port. */
  function Filled(key: bytes, n: nat): Conns
  {
    if n == 0 then map[] else Filled(key, n - 1)[NameOf(n - 1) := Registered(key, PORT_BASE + n - 1)]
  }

  lemma {:induction false} FilledHolds(key: bytes, n: nat)
    ensures forall i: nat :: i < n ==>
              NameOf(i) in Filled(key, n) && Filled(key, n)[NameOf(i)] == Registered(key, PORT_BASE + i)
    ensures forall name :: name in Filled(key, n) ==> exists i: nat :: i < n && name == NameOf(i)
  {
    hide NameOf;
    if n > 0 {
      FilledHolds(key, n - 1);
      forall i: nat | i < n - 1 ensures NameOf(i) != NameOf(n - 1) {
        if NameOf(i) == NameOf(n - 1) { NamesDiffer(i, n - 1); }
      }
      forall name | name in Filled(key, n) ensures exists i: nat :: i < n && name == NameOf(i) {
        if name != NameOf(n - 1) {
          var i: nat :| i < n - 1 && name == NameOf(i);
        }
      }
    }
  }

  lemma FilledIsFresh(key: bytes, n: nat)
    ensures NameOf(n) !in Filled(key, n)
  {
    hide NameOf, Filled;
    FilledHolds(key, n);
    if NameOf(n) in Filled(key, n) {
      var i: nat :| i < n && NameOf(n) == NameOf(i);
      NamesDiffer(n, i);
    }
  }

  lemma FilledPorts(key: bytes, n: nat)
    ensures forall p :: p in UsedPorts(Filled(key, n)) <==> PORT_BASE <= p < PORT_BASE + n
  {
    hide NameOf, Filled;
    FilledHolds(key, n);
    var conns := Filled(key, n);
    forall p | PORT_BASE <= p < PORT_BASE + n ensures p in UsedPorts(conns) {
      var i: nat := p - PORT_BASE;
      assert conns[NameOf(i)].port == p;
    }
  }

  /** One more connection takes the next port, however high it is. */
  lemma FillsOneMore(key: bytes, n: nat)
    ensures Added(Filled(key, n), key, NameOf(n), "redis://db", 0, CALM) == Some(Filled(key, n + 1))
  {
    hide NameOf, ConnName;
    NameIsValid(n);
    FilledIsFresh(key, n);
    FilledPorts(key, n);
    var conns := Filled(key, n);
    assert conns - {NameOf(n)} == conns;
    LeastIsUnique(UsedPorts(conns), PORT_BASE + n);
  }

  function Adding(n: nat): seq<(Op, World)>
  {
    seq(n, i requires 0 <= i < n => (Add(NameOf(i), "redis://db", 0), CALM))
  }

  function States(key: bytes, n: nat): seq<Conns>
  {
    seq(n + 1, i requires 0 <= i < n + 1 => Filled(key, i))
  }

  lemma FillingIsAHistory(key: bytes, n: nat)
    ensures History(key, Adding(n), States(key, n))
  {
    hide Added, Filled;
    assert States(key, n)[0] == map[] by { NothingFilled(key); }
    forall i | 0 <= i < n
      ensures Step(key, States(key, n)[i], Adding(n)[i].0, Adding(n)[i].1, States(key, n)[i + 1])
    {
      FillsOneMore(key, i);
    }
  }

  lemma NothingFilled(key: bytes)
    ensures Filled(key, 0) == map[]
  {
  }

  /** Adding the name again without a port is refused, whatever the URL and whatever else is in order. */
  ghost predicate ReAddRefused(key: bytes, conns: Conns, name: string)
  {
    forall url, w: World :: Added(conns, key, name, url, 0, w) == None
  }

  /** With as many connections as there are ports from 15432 on, the next one gets 65536 and cannot be added again. */
  lemma NextPortIsOut(key: bytes, n: nat)
    requires PORT_BASE + n == 65536
    ensures NameOf(n) in Filled(key, n + 1) && Filled(key, n + 1)[NameOf(n)].port == 65536
    ensures ReAddRefused(key, Filled(key, n + 1), NameOf(n))
  {
    hide NameOf, Filled, ConnName;
    FilledHolds(key, n + 1);
  }

  /**
   * From an empty store, by adding connections without a port alone: a store is reached in which a connection has
   * port 65536, and adding that connection again without a port is refused whatever its new URL.
   */
  lemma PortsRunOut(key: bytes) returns (ops: seq<(Op, World)>, states: seq<Conns>, name: string)
    ensures History(key, ops, states) && |states| > 0
    ensures var last := states[|states| - 1];
            && PortsOk(last) && name in last && last[name].port == 65536
            && ReAddRefused(key, last, name)
  {
    hide NameOf, Filled, Added, PortsOk;
    var n: nat := 65536 - PORT_BASE;
    ops, states, name := Adding(n + 1), States(key, n + 1), NameOf(n);
    FillingIsAHistory(key, n + 1);
    PortsAlwaysDistinct(key, ops, states, n + 1);
    NextPortIsOut(key, n);
  }
}
