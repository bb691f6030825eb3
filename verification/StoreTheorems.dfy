/** What holds of the store after any sequence of its operations. */
module StoreTheorems {
  import opened Values
  import opened Sealing
  import opened Store

  /** One operation on the saved file; a refused one leaves it as it is. */
  ghost predicate Step(key: bytes, before: Conns, op: Op, w: World, after: Conns)
  {
    match op
    case Add(name, url, port) => Result(before, Added(before, key, name, url, port, w), after)
    case Remove(name) => Result(before, Removed(before, name, w), after)
    case Regen(name) => Result(before, Regenerated(before, key, name, w), after)
    case RegenAll => after == before || OnlyTokensNew(before, after, key)
    case Turn(name, disabled) => Result(before, Turned(before, name, disabled, w), after)
    case TurnAll(disabled) => Result(before, TurnedAll(before, disabled, w), after)
  }

  predicate Result(before: Conns, r: Option<Conns>, after: Conns)
  {
    after == if r.Some? then r.value else before
  }

  /** The states of the file from an empty store on. */
  ghost predicate History(key: bytes, ops: seq<(Op, World)>, states: seq<Conns>)
  {
    && |states| == |ops| + 1 && states[0] == map[]
    && forall i :: 0 <= i < |ops| ==> Step(key, states[i], ops[i].0, ops[i].1, states[i + 1])
  }

  // ------------------------------------------------------------------ distinct ports

  ghost predicate PortsOk(conns: Conns)
  {
    && (forall a :: a in conns ==> conns[a].port >= 1)
    && forall a, b :: a in conns && b in conns && a != b ==> conns[a].port != conns[b].port
  }

  lemma AllocatedIsFree(used: set<int>, requested: int)
    requires Allocated(used, requested).Some?
    ensures Allocated(used, requested).value >= 1 && Allocated(used, requested).value !in used
  {
  }

  lemma AddKeepsPorts(key: bytes, conns: Conns, name: string, url: string, port: int, w: World)
    requires PortsOk(conns) && Added(conns, key, name, url, port, w).Some?
    ensures PortsOk(Added(conns, key, name, url, port, w).value)
  {
    hide ConnName;
    var others := conns - {name};
    var p := AddPort(conns, name, port);
    AllocatedIsFree(UsedPorts(others), Wanted(conns, name, port));
    forall a | a in others ensures conns[a].port in UsedPorts(others) && conns[a].port != p.value {
      assert others[a].port in UsedPorts(others);
    }
  }

  lemma StepKeepsPorts(key: bytes, before: Conns, op: Op, w: World, after: Conns)
    requires PortsOk(before) && Step(key, before, op, w, after)
    ensures PortsOk(after)
  {
    hide ConnName, Added;
    match op
    case Add(name, url, port) =>
      if Added(before, key, name, url, port, w).Some? { AddKeepsPorts(key, before, name, url, port, w); }
    case _ =>
  }

  /** After any sequence of operations on an empty store all ports are nonzero and pairwise distinct. */
  lemma {:induction false} PortsAlwaysDistinct(key: bytes, ops: seq<(Op, World)>, states: seq<Conns>, i: nat)
    requires History(key, ops, states) && i < |states|
    ensures PortsOk(states[i])
  {
    hide Step;
    if i > 0 {
      PortsAlwaysDistinct(key, ops, states, i - 1);
      StepKeepsPorts(key, states[i - 1], ops[i - 1].0, ops[i - 1].1, states[i]);
    }
  }

  // ------------------------------------------------------------------ automatic ports

  lemma {:induction false} FewUsed(conns: Conns)
    ensures |UsedPorts(conns)| <= |conns|
    decreases |conns|
  {
    if conns == map[] {
      assert UsedPorts(conns) == {};
    } else {
      var name :| name in conns;
      var rest := conns - {name};
      FewUsed(rest);
      assert conns.Keys == rest.Keys + {name};
      var port := conns[name].port;
      assert UsedPorts(conns) <= UsedPorts(rest) + {port} by {
        forall p | p in UsedPorts(conns) ensures p in UsedPorts(rest) + {port} {
          var n :| n in conns && conns[n].port != 0 && conns[n].port == p;
          if n != name { assert rest[n].port in UsedPorts(rest); }
        }
      }
      assert UsedPorts(rest) + {port} == UsedPorts(conns) + (UsedPorts(rest) + {port} - UsedPorts(conns));
    }
  }

  /**
   * A connection without a requested or earlier port always gets one: the least port from 15432 on that no other
   * connection has, and at most 15432 plus their number. Nothing bounds it by 65535.
   */
  lemma AutomaticPort(conns: Conns, name: string)
    requires name !in conns || conns[name].port == 0
    ensures AddPort(conns, name, 0).Some?
    ensures var p, others := AddPort(conns, name, 0).value, conns - {name};
            && 15432 <= p <= 15432 + |others|
            && !HasPort(others, p)
            && forall q :: 15432 <= q < p ==> HasPort(others, q)
  {
    var p, others := AddPort(conns, name, 0).value, conns - {name};
    FewUsed(others);
    forall n | n in others ensures others[n].port != p {
      assert others[n].port == 0 || others[n].port in UsedPorts(others);
    }
    forall q | PORT_BASE <= q < p ensures HasPort(others, q) {
      assert q in UsedPorts(others);
    }
  }

  predicate HasPort(conns: Conns, port: int) { exists n :: n in conns && conns[n].port == port }

  /** An automatic port is one that could be requested exactly when some such port from 15432 on is still free. */
  lemma AutomaticPortInRange(conns: Conns, name: string)
    requires name !in conns || conns[name].port == 0
    ensures AddPort(conns, name, 0).Some?
    ensures AddPort(conns, name, 0).value <= 65535 <==>
            exists q :: 15432 <= q <= 65535 && !HasPort(conns - {name}, q)
  {
    AutomaticPort(conns, name);
  }

  /**
   * Adding a name again without a port: it goes through exactly when the port it has is one that could be
   * requested, and then the port stays. An automatic port above 65535 cannot be kept.
   */
  lemma ReAddKeepsPort(key: bytes, conns: Conns, name: string, url: string, w: World)
    requires PortsOk(conns) && name in conns && ConnName(name)
    requires w.kind.Some? && w.readable && w.writable && Token(w).Some?
    ensures Added(conns, key, name, url, 0, w).Some? <==> conns[name].port <= 65535
    ensures Added(conns, key, name, url, 0, w).Some? ==>
              var after := Added(conns, key, name, url, 0, w).value;
              && after[name].port == conns[name].port && Open(key, after[name].url) == Some(url)
              && Open(key, after[name].token) == Token(w) && !after[name].enabled
              && forall n :: n != name && n in conns ==> n in after && after[n] == conns[n]
  {
    hide ConnName;
    var others := conns - {name};
    assert forall n :: n in others ==> others[n].port != conns[name].port;
  }

  // --------------------------------------------------------------- explicit switching

  predicate TurnsOn(op: Op, name: string) { ((op.Turn? && op.name == name) || op.TurnAll?) && !op.disabled }

  /** Only an explicit switch turns a tunnel on: no other operation makes an entry enabled. */
  lemma OnlySwitchesEnable(key: bytes, before: Conns, op: Op, w: World, after: Conns, name: string)
    requires Step(key, before, op, w, after) && name in after && after[name].enabled
    ensures (name in before && before[name].enabled) || TurnsOn(op, name)
  {
    hide ConnName, AddPort;
  }

  /** A tunnel that is on now was switched on since the connection was registered. */
  lemma {:induction false} EnabledWasSwitchedOn(key: bytes, ops: seq<(Op, World)>, states: seq<Conns>, i: nat,
                                                name: string)
    requires History(key, ops, states) && i < |states| && name in states[i] && states[i][name].enabled
    ensures exists j :: 0 <= j < i && TurnsOn(ops[j].0, name) &&
              forall k :: j < k <= i ==> name in states[k] && states[k][name].enabled
  {
    hide Step;
    assert i > 0;
    OnlySwitchesEnable(key, states[i - 1], ops[i - 1].0, ops[i - 1].1, states[i], name);
    if !TurnsOn(ops[i - 1].0, name) {
      EnabledWasSwitchedOn(key, ops, states, i - 1, name);
      var j :| 0 <= j < i - 1 && TurnsOn(ops[j].0, name) &&
        forall k :: j < k <= i - 1 ==> name in states[k] && states[k][name].enabled;
      assert forall k :: j < k <= i ==> name in states[k] && states[k][name].enabled;
    }
  }

  // ------------------------------------------------------------------- adding, in words

  predicate LetterOrDigit(c: char) { 'A' <= c <= 'Z' || 'a' <= c <= 'z' || '0' <= c <= '9' }

  /** A name of letters, digits, dots, dashes and underscores that begins with a letter or a digit. */
  predicate NameWords(name: string)
  {
    && name != "" && LetterOrDigit(name[0])
    && forall i :: 0 <= i < |name| ==> LetterOrDigit(name[i]) || name[i] == '.' || name[i] == '-' || name[i] == '_'
  }

  lemma NamesAgree(name: string)
    ensures ConnName(name) <==> NameWords(name)
  {
  }

  /** The port is granted: none is asked for, or it exists and no other connection has it. */
  predicate Granted(conns: Conns, name: string, port: int)
  {
    var wanted := if port == 0 && name in conns then conns[name].port else port;
    || wanted == 0
    || (1 <= wanted <= 65535 && forall other :: other in conns && other != name ==> conns[other].port != wanted)
  }

  lemma PortsAgree(conns: Conns, name: string, port: int)
    ensures AddPort(conns, name, port).Some? <==> Granted(conns, name, port)
  {
    var others := conns - {name};
    var wanted := Wanted(conns, name, port);
    if wanted in UsedPorts(others) {
      var other :| other in others && others[other].port != 0 && others[other].port == wanted;
      assert other in conns && other != name;
    }
    forall other | other in conns && other != name && conns[other].port == wanted && wanted != 0
      ensures wanted in UsedPorts(others)
    {
      assert others[other].port == wanted;
    }
  }

  /**
   * A connection is added exactly when its name is well formed, its URL is of a known kind, its port is granted, a
   * token is drawn, and the file can be read and written. It is then off, holds the URL and the token, and the other
   * connections are as they were.
   */
  lemma WhenAdded(key: bytes, conns: Conns, name: string, url: string, port: int, w: World)
    ensures var r := Added(conns, key, name, url, port, w);
            && (r.Some? <==> NameWords(name) && w.kind.Some? && Granted(conns, name, port) && w.readable && w.writable
                             && w.tokens != [] && w.tokens[0].Some?)
            && (r.Some? ==>
                  && r.value.Keys == conns.Keys + {name} && !r.value[name].enabled
                  && Open(key, r.value[name].url) == Some(url) && Open(key, r.value[name].token) == w.tokens[0]
                  && forall other :: other in conns && other != name ==> r.value[other] == conns[other])
  {
    hide ConnName, NameWords, AddPort, Granted;
    NamesAgree(name);
    PortsAgree(conns, name, port);
  }
}
