/** The file of registered connections: port allocation, tokens and the tunnel switch. */
module Store {
  import opened Values
  import opened Sealing
  import opened Sorting

  datatype Entry = Entry(url: Sealed, kind: string, port: int, token: Sealed, enabled: bool)

  type Conns = map<string, Entry>

  const PORT_BASE := 15432
  const MAX_PORT := 65535

  predicate Alphanumeric(c: char) { 'A' <= c <= 'Z' || 'a' <= c <= 'z' || '0' <= c <= '9' }

  predicate ConnName(name: string)
  {
    name != "" && Alphanumeric(name[0]) && forall i :: 0 <= i < |name| ==> Alphanumeric(name[i]) || name[i] in "_.-"
  }

  // ------------------------------------------------------------------------- the file

  /** An entry as it stands in the file; an absent field is None. */
  datatype Json = Json(url: Sealed, kind: string, port: Option<int>, token: Sealed, enabled: Option<bool>,
                       disabled: Option<bool>)

  type File = map<string, Json>

  /** The stored switch: the current field wins, then the legacy one reversed, and a file with neither is on. */
  function Intent(enabled: Option<bool>, disabled: Option<bool>): bool
  {
    match enabled
    case Some(on) => on
    case None => if disabled.Some? then !disabled.value else true
  }

  function Read(j: Json): Entry
  {
    Entry(j.url, j.kind, if j.port.Some? then j.port.value else 0, j.token, Intent(j.enabled, j.disabled))
  }

  /** A zero port is omitted, the switch is always written, the legacy field never. */
  function Write(e: Entry): Json
  {
    Json(e.url, e.kind, if e.port == 0 then None else Some(e.port), e.token, Some(e.enabled), None)
  }

  function Loaded(file: File): Conns { map name | name in file :: Read(file[name]) }

  function Written(conns: Conns): File { map name | name in conns :: Write(conns[name]) }

  /** What is saved is what the next load gives, every switch included. */
  lemma SavedReloads(conns: Conns)
    ensures Loaded(Written(conns)) == conns
  {
    forall name | name in conns ensures Read(Write(conns[name])) == conns[name] {
    }
  }

  /**
   * Loading any file and saving it migrates the legacy switch and changes no connection: an entry is off afterwards
   * exactly when the file said `enabled` false, or had no `enabled` and said `disabled` true.
   */
  lemma SavingMigrates(file: File, name: string)
    requires name in file
    ensures var j, saved := file[name], Written(Loaded(file));
            && saved.Keys == file.Keys && Loaded(saved) == Loaded(file)
            && saved[name].disabled == None && saved[name].enabled.Some?
            && (saved[name].enabled == Some(false) <==>
                j.enabled == Some(false) || (j.enabled == None && j.disabled == Some(true)))
  {
    SavedReloads(Loaded(file));
  }

  // ------------------------------------------------------------------------ ports

  function UsedPorts(conns: Conns): set<int>
  {
    set name | name in conns && conns[name].port != 0 :: conns[name].port
  }

  /** The least port from `base` on that is not used. */
  function LeastFree(used: set<int>, base: int): (p: int)
    ensures base <= p && p !in used
    ensures forall q :: base <= q < p ==> q in used
    ensures p <= base + |used|
    decreases |used|
  {
    if base in used then
      var p := LeastFree(used - {base}, base + 1);
      assert forall q :: base <= q < p ==> q in used by {
        forall q | base <= q < p ensures q in used {
          if q != base { assert q in used - {base}; }
        }
      }
      p
    else base
  }

  /** A requested port must be in range and free; without a request the least free one is taken. */
  function Allocated(used: set<int>, requested: int): Option<int>
  {
    if requested == 0 then Some(LeastFree(used, PORT_BASE))
    else if 1 <= requested <= MAX_PORT && requested !in used then Some(requested)
    else None
  }

  /** allocPort: the counting loop ends, because it passes only used ports. */
  method AllocPort(conns: Conns, requested: int) returns (port: Option<int>)
    ensures port == Allocated(UsedPorts(conns), requested)
  {
    var used: set<int> := {};
    var todo := conns.Keys;
    while todo != {}
      invariant todo <= conns.Keys
      invariant used == set name | name in conns && name !in todo && conns[name].port != 0 :: conns[name].port
      decreases todo
    {
      var name :| name in todo;
      ghost var seen := conns.Keys - todo;
      todo := todo - {name};
      if conns[name].port != 0 {
        used := used + {conns[name].port};
      }
    }
    assert used == UsedPorts(conns);
    if requested != 0 {
      if requested < 1 || requested > MAX_PORT || requested in used {
        return None;
      }
      return Some(requested);
    }
    var p := PORT_BASE;
    ghost var passed: set<int> := {};
    while p in used
      invariant PORT_BASE <= p && passed <= used && |passed| == p - PORT_BASE
      invariant forall q :: PORT_BASE <= q < p <==> q in passed
      decreases |used| - |passed|
    {
      Smaller(passed, used, p);
      passed := passed + {p};
      p := p + 1;
    }
    LeastIsUnique(used, p);
    return Some(p);
  }

  lemma Smaller<T>(a: set<T>, b: set<T>, x: T)
    requires a <= b && x in b && x !in a
    ensures |a| < |b|
  {
    assert b == a + (b - a);
    assert x in b - a;
  }

  lemma LeastIsUnique(used: set<int>, p: int)
    requires PORT_BASE <= p && p !in used && forall q :: PORT_BASE <= q < p ==> q in used
    ensures p == LeastFree(used, PORT_BASE)
  {
    var least := LeastFree(used, PORT_BASE);
    assert least < p ==> least in used;
    assert p < least ==> p in used;
  }

  // -------------------------------------------------------------------- the operations

  /** What the outside gives one operation: whether the file can be read and written, the URL's kind, fresh tokens. */
  datatype World = World(readable: bool, writable: bool, kind: Option<string>, tokens: seq<Option<string>>)

  datatype Op =
    | Add(name: string, url: string, port: int)
    | Remove(name: string)
    | Regen(name: string)
    | RegenAll
    | Turn(name: string, disabled: bool)
    | TurnAll(disabled: bool)

  function Token(w: World): Option<string> { if |w.tokens| > 0 then w.tokens[0] else None }

  /** The port that Add asks for: the one it is given, or the one the name already has. */
  function Wanted(conns: Conns, name: string, port: int): int
  {
    if port == 0 && name in conns then conns[name].port else port
  }

  function AddPort(conns: Conns, name: string, port: int): Option<int>
  {
    Allocated(UsedPorts(conns - {name}), Wanted(conns, name, port))
  }

  function Added(conns: Conns, key: bytes, name: string, url: string, port: int, w: World): Option<Conns>
  {
    var p := AddPort(conns, name, port);
    if !ConnName(name) || w.kind.None? || !w.readable || p.None? || Token(w).None? || !w.writable then None
    else Some(conns[name := Entry(Sealed(key, url), w.kind.value, p.value, Sealed(key, Token(w).value), false)])
  }

  function Removed(conns: Conns, name: string, w: World): Option<Conns>
  {
    if !ConnName(name) || !w.readable || name !in conns || !w.writable then None else Some(conns - {name})
  }

  function Regenerated(conns: Conns, key: bytes, name: string, w: World): Option<Conns>
  {
    if !ConnName(name) || !w.readable || name !in conns || Token(w).None? || !w.writable then None
    else Some(conns[name := conns[name].(token := Sealed(key, Token(w).value))])
  }

  function Turned(conns: Conns, name: string, disabled: bool, w: World): Option<Conns>
  {
    if !ConnName(name) || !w.readable || name !in conns || !w.writable then None
    else Some(conns[name := conns[name].(enabled := !disabled)])
  }

  function Changing(conns: Conns, disabled: bool): set<string>
  {
    set name | name in conns && conns[name].enabled == disabled
  }

  function TurnedAll(conns: Conns, disabled: bool, w: World): Option<Conns>
  {
    if !w.readable then None
    else if Changing(conns, disabled) == {} then Some(conns)
    else if !w.writable then None
    else Some(map name | name in conns :: conns[name].(enabled := !disabled))
  }

  predicate EnoughTokens(w: World, n: nat)
  {
    n <= |w.tokens| && forall i :: 0 <= i < n ==> w.tokens[i].Some?
  }

  /** Every entry but its token, which is newly sealed. */
  ghost predicate OnlyTokensNew(before: Conns, after: Conns, key: bytes)
  {
    && after.Keys == before.Keys
    && forall name :: name in before ==>
         after[name] == before[name].(token := after[name].token) && after[name].token.key == key
  }

  predicate Once(names: seq<string>) { forall i, j :: 0 <= i < j < |names| ==> names[i] != names[j] }

  /** The tokens of these names are the first draws, one draw for each name. */
  predicate Drawn(conns: Conns, order: seq<string>, w: World, key: bytes)
  {
    && EnoughTokens(w, |order|)
    && forall k :: 0 <= k < |order| ==>
         order[k] in conns && conns[order[k]].token == Sealed(key, w.tokens[k].value)
  }

  /** Every connection has a draw of its own. */
  ghost predicate OwnDraws(conns: Conns, w: World, key: bytes)
  {
    exists order: seq<string> :: Once(order) && (forall x :: x in order <==> x in conns) && Drawn(conns, order, w, key)
  }

  /** When no draw comes twice, no two connections share a token. */
  lemma NoSharedToken(conns: Conns, w: World, key: bytes, a: string, b: string)
    requires OwnDraws(conns, w, key) && a in conns && b in conns && a != b
    requires forall i, j :: 0 <= i < j < |w.tokens| ==> w.tokens[i] != w.tokens[j]
    ensures Open(key, conns[a].token).Some? && Open(key, conns[a].token) != Open(key, conns[b].token)
  {
    var order: seq<string> :| Once(order) && (forall x :: x in order <==> x in conns) && Drawn(conns, order, w, key);
    var i :| 0 <= i < |order| && order[i] == a;
    var j :| 0 <= j < |order| && order[j] == b;
    assert w.tokens[i] != w.tokens[j];
  }

  /** The store, as the file it saves. */
  class ConnStore {
    const key: bytes
    var file: File

    constructor (key: bytes)
      ensures this.key == key && Saved() == map[]
    {
      this.key := key;
      file := map[];
    }

    function Saved(): Conns
      reads this
    {
      Loaded(file)
    }

    method Save(conns: Conns)
      modifies this`file
      ensures file == Written(conns) && Saved() == conns
    {
      SavedReloads(conns);
      file := Written(conns);
    }

    method AddConn(name: string, url: string, port: int, w: World) returns (ok: bool)
      modifies this`file
      ensures ok == Added(old(Saved()), key, name, url, port, w).Some?
      ensures !ok ==> file == old(file)
      ensures Saved() == if ok then Added(old(Saved()), key, name, url, port, w).value else old(Saved())
    {
      var saved := Saved();
      hide ConnName;
      if !ConnName(name) || w.kind.None? || !w.readable {
        return false;
      }
      var conns, wanted := saved, port;
      if port == 0 && name in conns && conns[name].port != 0 {
        wanted := conns[name].port;
      }
      conns := conns - {name};
      var chosen := AllocPort(conns, wanted);
      if chosen.None? || Token(w).None? || !w.writable {
        return false;
      }
      conns := conns[name := Entry(Sealed(key, url), w.kind.value, chosen.value, Sealed(key, Token(w).value), false)];
      assert conns == Added(saved, key, name, url, port, w).value;
      Save(conns);
      return true;
    }

    method RemoveConn(name: string, w: World) returns (ok: bool)
      modifies this`file
      ensures ok == Removed(old(Saved()), name, w).Some?
      ensures !ok ==> file == old(file)
      ensures Saved() == if ok then Removed(old(Saved()), name, w).value else old(Saved())
    {
      var saved := Saved();
      if !ConnName(name) || !w.readable || name !in saved || !w.writable {
        return false;
      }
      Save(saved - {name});
      return true;
    }

    method RegenToken(name: string, w: World) returns (token: Option<string>)
      modifies this`file
      ensures token.Some? == Regenerated(old(Saved()), key, name, w).Some?
      ensures token.None? ==> file == old(file)
      ensures Saved() == if token.Some? then Regenerated(old(Saved()), key, name, w).value else old(Saved())
      ensures token.Some? ==> Open(key, Saved()[name].token) == token
    {
      var saved := Saved();
      if !ConnName(name) || !w.readable || name !in saved || Token(w).None? || !w.writable {
        return None;
      }
      Save(saved[name := saved[name].(token := Sealed(key, Token(w).value))]);
      return Token(w);
    }

    /** Either every token is replaced and the file saved, or nothing is saved at all. */
    method RegenTokenAll(w: World) returns (names: Option<seq<string>>)
      modifies this`file
      ensures names.Some? <==> w.readable && EnoughTokens(w, |old(Saved())|) && (old(Saved()) == map[] || w.writable)
      ensures names.Some? ==> Increasing(names.value) && OnlyTokensNew(old(Saved()), Saved(), key)
      ensures names.Some? ==> OwnDraws(Saved(), w, key)
      ensures names.Some? ==> forall x :: x in names.value <==> x in old(Saved())
      ensures names.None? ==> file == old(file)
    {
      var saved := Saved();
      if !w.readable {
        return None;
      }
      var order := Listed(saved.Keys);
      DistinctCount(order, saved.Keys);
      var conns := SealAll(saved, order, w);
      if conns.None? {
        return None;
      }
      if |order| == 0 {
        assert saved.Keys == {};
        return Some([]);
      }
      if !w.writable {
        return None;
      }
      var sorted := SortStrings(order);
      Save(conns.value);
      return Some(sorted);
    }

    /** The loop that reseals every token, in a copy. */
    method SealAll(saved: Conns, order: seq<string>, w: World) returns (conns: Option<Conns>)
      requires Once(order) && forall x :: x in order <==> x in saved
      ensures conns.Some? <==> EnoughTokens(w, |order|)
      ensures conns.Some? ==> OnlyTokensNew(saved, conns.value, key) && Drawn(conns.value, order, w, key)
    {
      var copy := saved;
      for k := 0 to |order|
        invariant copy.Keys == saved.Keys
        invariant Drawn(copy, order[..k], w, key)
        invariant forall name :: name in saved ==>
                    copy[name] == saved[name].(token := copy[name].token) &&
                    (name in order[..k] ==> copy[name].token.key == key)
      {
        if k >= |w.tokens| || w.tokens[k].None? {
          return None;
        }
        assert order[k] in saved;
        copy := copy[order[k] := copy[order[k]].(token := Sealed(key, w.tokens[k].value))];
        assert order[..k + 1] == order[..k] + [order[k]];
      }
      assert order[..|order|] == order;
      return Some(copy);
    }

    method SetTunnel(name: string, disabled: bool, w: World) returns (ok: bool)
      modifies this`file
      ensures ok == Turned(old(Saved()), name, disabled, w).Some?
      ensures !ok ==> file == old(file)
      ensures Saved() == if ok then Turned(old(Saved()), name, disabled, w).value else old(Saved())
    {
      var saved := Saved();
      if !ConnName(name) || !w.readable || name !in saved || !w.writable {
        return false;
      }
      Save(saved[name := saved[name].(enabled := !disabled)]);
      return true;
    }

    method SetTunnelAll(disabled: bool, w: World) returns (names: Option<seq<string>>)
      modifies this`file
      ensures names.Some? == TurnedAll(old(Saved()), disabled, w).Some?
      ensures names.None? ==> file == old(file)
      ensures Saved() == if names.Some? then TurnedAll(old(Saved()), disabled, w).value else old(Saved())
      ensures names.Some? ==> Increasing(names.value)
      ensures names.Some? ==> forall x :: x in names.value <==> x in Changing(old(Saved()), disabled)
    {
      var saved := Saved();
      if !w.readable {
        return None;
      }
      var changed: set<string> := {};
      var conns := saved;
      var todo := saved.Keys;
      while todo != {}
        invariant todo <= saved.Keys == conns.Keys
        invariant changed == set name | name in saved && name !in todo && saved[name].enabled == disabled
        invariant forall name :: name in saved ==>
                    conns[name] == if name in todo then saved[name] else saved[name].(enabled := !disabled)
        decreases todo
      {
        var name :| name in todo;
        todo := todo - {name};
        if conns[name].enabled == !disabled {
          continue;
        }
        conns := conns[name := conns[name].(enabled := !disabled)];
        changed := changed + {name};
      }
      assert changed == Changing(saved, disabled);
      var order := Listed(changed);
      var sorted := SortStrings(order);
      if |order| == 0 {
        assert Changing(saved, disabled) == {} by { assert forall x :: x !in changed; }
        return Some(sorted);
      }
      assert order[0] in changed;
      if !w.writable {
        return None;
      }
      assert conns == TurnedAll(saved, disabled, w).value;
      Save(conns);
      return Some(sorted);
    }
  }

  lemma {:induction false} DistinctCount<T>(s: seq<T>, all: set<T>)
    requires forall x :: x in s <==> x in all
    requires forall i, j :: 0 <= i < j < |s| ==> s[i] != s[j]
    ensures |s| == |all|
    decreases |s|
  {
    if s == [] {
      assert all == {};
    } else {
      var rest := s[1..];
      forall x ensures x in rest <==> x in all - {s[0]} {
        if x in rest {
          var i :| 0 <= i < |rest| && rest[i] == x;
          assert s[i + 1] == x;
        }
        if x in all - {s[0]} {
          var i :| 0 <= i < |s| && s[i] == x;
          assert rest[i - 1] == x;
        }
      }
      DistinctCount(rest, all - {s[0]});
    }
  }
}
