/** What holds in every run: who may be forwarded what, where cursors come from, and what stays separate. */
module InterleavingTheorems {
  import opened Values
  import opened PolicyTables
  import opened Policy
  import opened Namespaces
  import opened Registry
  import opened Execute
  import opened Reply
  import opened Interleaving
  import opened InterleavingInvariant

  // ------------------------------------------------------------- reading a lawful log

  lemma EventIsJustified(log: seq<Event>, n: nat)
    requires Lawful(log) && n < |log|
    ensures Justified(log[..n], log[n])
  {
    hide Justified;
  }

  lemma RunIsLawful(run: seq<Choice>)
    ensures Lawful(Run(run).log)
  {
    hide Run, Lawful, CallsOk, RegistryOk;
    InvariantHolds(run);
  }

  lemma Earlier(log: seq<Event>, n: nat, e: Event) returns (m: nat)
    requires n <= |log| && e in log[..n]
    ensures m < n && log[m] == e
  {
    m :| m < n && log[..n][m] == e;
  }

  /** Before anything is received or stored for a call, its command was forwarded, with the same cursors found. */
  lemma ForwardedFirst(log: seq<Event>, n: nat) returns (f: nat)
    requires Lawful(log) && n < |log|
    requires log[n].deed.Forwarded? || log[n].deed.Received? || log[n].deed.Kept? || log[n].deed.Answered?
    ensures f <= n && log[f] == log[n].(deed := Forwarded(log[n].deed.owners, ForwardDoc(log[n].doc)))
    ensures Entitled(log[..f], log[n].call, log[n].scope, log[n].doc, log[n].deed.owners)
  {
    hide Lawful, Entitled, ForwardDoc, PublicReply, HasCursor, NewCursor, BadCursor, Subfield, AuthNumber;
    EventIsJustified(log, n);
    if log[n].deed.Forwarded? {
      f := n;
    } else {
      var r := n;
      if !log[n].deed.Received? {
        r := Earlier(log, n, log[n].(deed := Received(log[n].deed.owners, log[n].deed.reply)));
        EventIsJustified(log, r);
      }
      f := Earlier(log, r, log[r].(deed := Forwarded(log[r].deed.owners, ForwardDoc(log[r].doc))));
      EventIsJustified(log, f);
    }
  }

  // ---------------------------------------------------------- the end-to-end guarantee

  ghost predicate AllowedBefore(log: seq<Event>, n: nat, ns: Namespace)
    requires n < |log|
  {
    exists m :: 0 <= m < n && log[m].call == log[n].call && log[m].deed.Asked? && log[m].deed.ns == ns &&
      Judge(log[m].deed.verdictOf, ns) == Allowed
  }

  lemma AllowedInTime(log: seq<Event>, n: nat, ns: Namespace)
    requires n < |log| && WasAllowed(log[..n], log[n].call, log[n].scope, log[n].doc, ns)
    ensures AllowedBefore(log, n, ns)
  {
    hide Judge;
    var reply :| Event(log[n].call, log[n].scope, log[n].doc, Asked(ns, reply)) in log[..n] &&
      Judge(reply, ns) == Allowed;
    var m := Earlier(log, n, Event(log[n].call, log[n].scope, log[n].doc, Asked(ns, reply)));
  }

  /**
   * In every run, a command that does not continue a metadata cursor is forwarded only when the policy accepts it
   * and, for every collection it can touch at any nesting, the backend has already answered that it is a plain
   * collection or no collection at all.
   */
  lemma ForwardedOnlyAfterAllowed(run: seq<Choice>, n: nat)
    requires n < |Run(run).log| && Run(run).log[n].deed.Forwarded? && !Metadata(Run(run).log[n].deed.owners)
    ensures var e := Run(run).log[n];
            && CommandOK(e.doc) && e.deed.sent == ForwardDoc(e.doc) && Get(e.doc, "$db").String?
            && forall c :: Touches(e.doc, c) ==>
                 AllowedBefore(Run(run).log, n, Namespace(Get(e.doc, "$db").text, c))
  {
    hide Run, Lawful, CommandOK, Touches, ForwardDoc, NamespaceList, AllLooked, Targets, TargetIds, Metadata,
         AllowedBefore, WasAllowed;
    RunIsLawful(run);
    var log := Run(run).log;
    EventIsJustified(log, n);
    var e := log[n];
    NamespaceListExact(e.doc);
    forall c | Touches(e.doc, c) ensures AllowedBefore(log, n, Namespace(Get(e.doc, "$db").text, c)) {
      var ns := Namespace(Get(e.doc, "$db").text, c);
      assert ns in NamespaceList(e.doc);
      var i :| 0 <= i < |NamespaceList(e.doc)| && NamespaceList(e.doc)[i] == ns;
      assert WasAllowed(log[..n], e.call, e.scope, e.doc, NamespaceList(e.doc)[i]);
      AllowedInTime(log, n, ns);
    }
  }

  /** And the backend is asked about nothing else: only about collections that the accepted command can touch. */
  lemma AskedOnlyAboutTouched(run: seq<Choice>, n: nat)
    requires n < |Run(run).log| && Run(run).log[n].deed.Asked?
    ensures var e := Run(run).log[n];
            && CommandOK(e.doc) && Get(e.doc, "$db") == String(e.deed.ns.database)
            && Touches(e.doc, e.deed.ns.collection)
  {
    hide Run, Lawful, CommandOK, Touches, FirstUseList, Judge, Uses, AddAll;
    RunIsLawful(run);
    var log := Run(run).log;
    EventIsJustified(log, n);
    var e := log[n];
    assert CommandOK(e.doc);
    NamespaceListExact(e.doc);
    InItsDatabase(Get(e.doc, "$db").text, Uses(e.doc), NamespaceList(e.doc), e.deed.ns);
  }

  lemma InItsDatabase(db: string, uses: seq<string>, list: seq<Namespace>, ns: Namespace)
    requires FirstUseList(db, uses, list) && ns in list
    ensures ns == Namespace(db, ns.collection)
  {
  }

  // ------------------------------------------------------------- where cursors come from

  /** A namespace names one database and one collection, because a database name has no dot. */
  lemma SplitUnique(db1: string, c1: string, db2: string, c2: string)
    requires '.' !in db1 && '.' !in db2 && Joined(db1, c1) == Joined(db2, c2)
    ensures db1 == db2 && c1 == c2
  {
    var a, b := Joined(db1, c1), Joined(db2, c2);
    assert a[|db1|] == '.' && b[|db2|] == '.';
    assert forall i :: 0 <= i < |db1| ==> a[i] == db1[i];
    assert forall i :: 0 <= i < |db2| ==> b[i] == db2[i];
    assert |db1| == |db2|;
    assert db1 == a[..|db1|] && db2 == b[..|db2|];
    assert c1 == a[|db1| + 1..] && c2 == b[|db2| + 1..];
  }

  lemma {:induction false} SameLookup(a: Doc, b: Doc, key: string)
    requires |a| == |b| && forall i :: 0 <= i < |a| ==> a[i].key == b[i].key && (a[i].key == key ==> a[i] == b[i])
    ensures Get(a, key) == Get(b, key)
  {
    if a != [] {
      assert forall i :: 0 <= i < |a[1..]| ==> a[1..][i] == a[i + 1] && b[1..][i] == b[i + 1];
      SameLookup(a[1..], b[1..], key);
    }
  }

  lemma MaskedDatabase(doc: Doc)
    ensures Get(Masked(doc), "$db") == Get(doc, "$db")
  {
    SameLookup(Masked(doc), doc, "$db");
  }

  lemma CheckedDatabase(doc: Request, owners: seq<Cursor>)
    requires Cleared(doc, owners)
    ensures Get(doc, "$db").String? && '.' !in Get(doc, "$db").text && '$' !in Get(doc, "$db").text
  {
    hide CommandOK, Masked, Metadata, VerbOf;
    DatabaseIsText(Checked(doc, owners));
    MaskedDatabase(doc);
    NameHasNoDot(Get(doc, "$db"), AdminVerb(VerbOf(Checked(doc, owners)[0].key)));
  }

  lemma NameHasNoDot(v: Value, admin: bool)
    requires DatabaseName(v, admin)
    ensures v.String? && '.' !in v.text && '$' !in v.text
  {
    hide Lower;
    assert '.' in "/\\. \"$*<>:|?\0" by { assert "/\\. \"$*<>:|?\0"[2] == '.'; }
    assert '$' in "/\\. \"$*<>:|?\0" by { assert "/\\. \"$*<>:|?\0"[5] == '$'; }
  }

  // -------------------------------------------------------------- logical sessions

  /** What an accepted command says about its session: nothing, or one uuid, which is then its session. */
  lemma SessionIsLsid(doc: Request, owners: seq<Cursor>)
    requires Cleared(doc, owners)
    ensures var v := Get(doc, "lsid");
            if v == Null then Session(doc) == []
            else v == Document([Field("id", Binary(4, Session(doc)))]) && |Session(doc)| == 16
  {
    hide CommandOK, Masked, Metadata;
    var checked := Checked(doc, owners);
    MaskedSession(doc);
    LsidOfCommand(checked);
    var v := Get(doc, "lsid");
    if v != Null {
      assert v.fields == [Field("id", v.fields[0].value)];
    }
  }

  lemma MaskedSession(doc: Request)
    ensures Get(Masked(doc), "lsid") == Get(doc, "lsid")
    ensures VerbOf("lsid") == OtherCommand
  {
    assert |"lsid"| == 4 && "lsid"[0] == 'l' && |"collection"| == 10 && |"killCursors"| == 11;
    SameLookup(Masked(doc), doc, "lsid");
  }

  lemma LsidOfCommand(doc: Doc)
    requires CommandOK(doc)
    ensures Get(doc, "lsid") == Null || SessionId(Get(doc, "lsid"))
  {
    hide CommandHead, CommandOption;
    HeadHasVerb(doc);
    if Present(doc, "lsid") {
      var i := GetFound(doc, "lsid");
      if i > 0 {
        assert CommandOption(VerbOf(doc[0].key), doc[i].key, doc[i].value);
        LsidOption(VerbOf(doc[0].key), doc[i].value);
      }
    } else {
      GetAbsent(doc, "lsid");
    }
  }

  lemma HeadHasVerb(doc: Doc)
    requires CommandOK(doc)
    ensures |doc| >= 2 && doc[0].key != "lsid"
  {
    hide CommandOption, CommandArgument, DatabaseName, OptionsOf, RequiredOf, VerbOf;
    LsidIsNoCommand();
  }

  lemma LsidIsNoCommand()
    ensures VerbOf("lsid") == OtherCommand
  {
    assert |"lsid"| == 4 && "lsid"[0] == 'l';
  }

  lemma LsidOption(verb: Verb, x: Value)
    requires CommandOption(verb, "lsid", x)
    ensures SessionId(x)
  {
    hide Match, MetadataFilter, Projection, Bindings, Pipeline, Writes, UpdateSpec, MatchArray;
    assert OptionKindOf("lsid") == SessionOption;
  }

  /** Two accepted commands have the same session exactly when they say the same about it. */
  lemma SameSession(a: Request, aOwners: seq<Cursor>, b: Request, bOwners: seq<Cursor>)
    requires Cleared(a, aOwners) && Cleared(b, bOwners)
    ensures Session(a) == Session(b) <==> Get(a, "lsid") == Get(b, "lsid")
  {
    hide Cleared, Session;
    SessionIsLsid(a, aOwners);
    SessionIsLsid(b, bOwners);
    if Get(a, "lsid") == Get(b, "lsid") {
      SessionReadsLsid(a, b);
    }
  }

  lemma SessionReadsLsid(a: Doc, b: Doc)
    requires Get(a, "lsid") == Get(b, "lsid")
    ensures Session(a) == Session(b)
  {
  }

  /** The command works on cursors of this collection, wherever it gives it as a text. */
  predicate WorksOn(doc: Request, c: string)
  {
    var v := if doc[0].key == "getMore" then Get(doc, "collection") else doc[0].value;
    v.String? ==> v.text == c
  }

  /** Cursors that the command opens, or passes on, are cursors of this collection. */
  predicate Opens(doc: Request, c: string)
  {
    if doc[0].key == "getMore" || doc[0].key == "killCursors" then WorksOn(doc, c)
    else if doc[0].key == "listCollections" then c == "$cmd.listCollections"
    else
      doc[0].value.String? ==>
        c == doc[0].value.text || (doc[0].key == "listIndexes" && c == "$cmd.listIndexes." + doc[0].value.text)
  }

  lemma CollectionsInWords(opener: Request, user: Request, ns: string)
    requires UsesCursors(user) && ExpectedCollection(opener, ns) == TargetCollection(user)
    ensures WorksOn(user, TargetCollection(user)) && Opens(opener, TargetCollection(user))
  {
    hide Joined, Get;
  }

  /**
   * The cursor `id` that the call of event n works on was handed out at event m, by a successful reply to a call
   * of the same scope that said the same about its session, for the same database and collection, and was still
   * fresh at lookup l, before which it was not used again.
   */
  ghost predicate GivenOut(log: seq<Event>, m: nat, l: nat, n: nat, id: int, c: Cursor)
    requires n < |log|
  {
    && m < l < n && Stores(log[m], Key(log[n].scope, id)) && HasCursor(log[m].deed.reply)
    && AuthNumber(Subfield(log[m].deed.reply, "id")) == Some(id)
    && Get(log[m].doc, "lsid") == Get(log[n].doc, "lsid")
    && Get(log[m].doc, "$db") == Get(log[n].doc, "$db") && Get(log[n].doc, "$db").String?
    && ExpectedCollection(log[m].doc, c.namespace) == TargetCollection(log[n].doc)
    && (exists collection :: Opens(log[m].doc, collection) && WorksOn(log[n].doc, collection))
    && log[m].deed.cursor == c
    && log[l].deed.Looked? && log[l] == log[n].(deed := Looked(id, c, log[l].deed.at))
    && 0 <= log[l].deed.at - c.used <= 30 * 60 * 1_000_000_000
    && forall j :: m < j < l ==> !Stores(log[j], Key(log[n].scope, id))
  }

  lemma KeptCursor(log: seq<Event>, m: nat)
    requires Lawful(log) && m < |log| && log[m].deed.Kept?
    ensures var e := log[m];
            && HasCursor(e.deed.reply) && AuthNumber(Subfield(e.deed.reply, "id")) == Some(e.deed.id)
            && e.deed.cursor == NewCursor(e.doc, e.deed.owners, e.deed.reply).(used := e.deed.cursor.used)
            && e.deed.cursor.namespace == ExpectedNamespace(e.doc, e.deed.cursor.namespace)
            && Cleared(e.doc, e.deed.owners)
            && |e.deed.owners| == |TargetIds(e.doc)|
  {
    hide Lawful, AuthNumber, ExpectedNamespace, PublicVerb, Session, Cleared, TargetIds, Targets, AllLooked,
         AllAllowed, NamespaceList, ForwardDoc, HasCursor, Subfield;
    EventIsJustified(log, m);
    var e := log[m];
    var r := Earlier(log, m, e.(deed := Received(e.deed.owners, e.deed.reply)));
    EventIsJustified(log, r);
    GoodCursor(e.doc, e.deed.reply);
    var f := ForwardedFirst(log, m);
  }

  lemma GoodCursor(doc: Request, reply: Doc)
    requires HasCursor(reply) && !BadCursor(doc, reply)
    ensures Subfield(reply, "ns").String?
    ensures TextOf(Subfield(reply, "ns")) == ExpectedNamespace(doc, TextOf(Subfield(reply, "ns")))
  {
    hide ExpectedNamespace, AuthNumber;
  }

  lemma LookedWhere(log: seq<Event>, n: nat, i: nat) returns (l: nat)
    requires Lawful(log) && n < |log| && log[n].deed.Forwarded? && i < |TargetIds(log[n].doc)|
    ensures |log[n].deed.owners| == |TargetIds(log[n].doc)|
    ensures l < n && log[l].deed.Looked?
    ensures log[l] == log[n].(deed := Looked(TargetIds(log[n].doc)[i], log[n].deed.owners[i], log[l].deed.at))
    ensures FoundInRegistry(log[..l], log[l]) && Cleared(log[n].doc, log[n].deed.owners)
  {
    hide Lawful, TargetIds, Targets, Cleared, AllAllowed, NamespaceList, ForwardDoc, TargetNamespace, Session,
         LastStored;
    EventIsJustified(log, n);
    var e := log[n];
    var id, c := TargetIds(e.doc)[i], e.deed.owners[i];
    assert WasLooked(log[..n], e.call, e.scope, e.doc, id, c);
    var at :| Event(e.call, e.scope, e.doc, Looked(id, c, at)) in log[..n];
    l := Earlier(log, n, Event(e.call, e.scope, e.doc, Looked(id, c, at)));
    EventIsJustified(log, l);
  }

  /** In every interleaving, each cursor that a forwarded getMore or killCursors names was handed out as above. */
  lemma CursorsAreGivenOut(run: seq<Choice>, n: nat, i: nat)
    requires n < |Run(run).log| && Run(run).log[n].deed.Forwarded?
    requires UsesCursors(Run(run).log[n].doc) && i < |TargetIds(Run(run).log[n].doc)|
    ensures |Run(run).log[n].deed.owners| == |TargetIds(Run(run).log[n].doc)|
    ensures exists m, l :: GivenOut(Run(run).log, m, l, n, TargetIds(Run(run).log[n].doc)[i],
                                    Run(run).log[n].deed.owners[i])
  {
    hide Run, Lawful, TargetIds, Cleared, ExpectedCollection, AuthNumber, HasCursor, Session, TargetCollection;
    RunIsLawful(run);
    var log := Run(run).log;
    var l := LookedWhere(log, n, i);
    var id, c := TargetIds(log[n].doc)[i], log[n].deed.owners[i];
    var k := Key(log[n].scope, id);
    var m: nat :| LastStored(log[..l], m, k, c);
    KeptCursor(log, m);
    SameSplit(log[m].doc, log[m].deed.owners, log[n].doc, log[n].deed.owners, c.namespace);
    SameSession(log[m].doc, log[m].deed.owners, log[n].doc, log[n].deed.owners);
    CollectionsInWords(log[m].doc, log[n].doc, c.namespace);
    assert log[..l][m] == log[m];
    forall j | m < j < l ensures !Stores(log[j], k) {
      assert log[..l][j] == log[j];
    }
    assert GivenOut(log, m, l, n, id, c);
  }

  lemma SameSplit(a: Request, aOwners: seq<Cursor>, b: Request, bOwners: seq<Cursor>, ns: string)
    requires Cleared(a, aOwners) && Cleared(b, bOwners)
    requires ns == ExpectedNamespace(a, ns) == TargetNamespace(b)
    ensures Get(a, "$db") == Get(b, "$db") && Get(b, "$db").String?
    ensures ExpectedCollection(a, ns) == TargetCollection(b)
  {
    hide Cleared, ExpectedCollection, TargetCollection, Joined;
    CheckedDatabase(a, aOwners);
    CheckedDatabase(b, bOwners);
    SplitUnique(Get(a, "$db").text, ExpectedCollection(a, ns), Get(b, "$db").text, TargetCollection(b));
  }

  // -------------------------------------------------------------------- getMore chains

  /** Event b is a getMore that used exactly the cursor stored by event a, and stored its successor. */
  ghost predicate Continues(a: Event, b: Event)
    requires a.deed.Kept? && b.deed.Kept?
  {
    && b.doc[0].key == "getMore" && TargetIds(b.doc) == [a.deed.id] && b.deed.owners == [a.deed.cursor]
    && a.scope == b.scope && a.deed.cursor.namespace == b.deed.cursor.namespace
    && a.deed.cursor.session == b.deed.cursor.session && a.deed.cursor.command == b.deed.cursor.command
  }

  /** Stored cursors, from the command that opened the first to the last getMore so far. */
  ghost predicate Chain(log: seq<Event>, path: seq<nat>)
  {
    && path != []
    && (forall i :: 0 <= i < |path| ==> path[i] < |log| && log[path[i]].deed.Kept?)
    && log[path[0]].doc[0].key != "getMore"
    && log[path[0]].deed.cursor.command == VerbOf(log[path[0]].doc[0].key)
    && forall i :: 0 < i < |path| ==> path[i - 1] < path[i] && Continues(log[path[i - 1]], log[path[i]])
  }

  lemma GetMoreTargets(doc: Request)
    requires doc[0].key == "getMore" && Targets(doc).Some?
    ensures |TargetIds(doc)| == 1 && UsesCursors(doc)
  {
  }

  lemma {:induction false} ChainTo(log: seq<Event>, n: nat) returns (path: seq<nat>)
    requires Lawful(log) && n < |log| && log[n].deed.Kept?
    ensures Chain(log, path) && path[|path| - 1] == n
  {
    hide Lawful, VerbOf, TargetIds, Targets, ExpectedNamespace, Session, AuthNumber, HasCursor, Subfield, Cleared,
         TargetNamespace, Entitled, ForwardDoc;
    KeptCursor(log, n);
    if log[n].doc[0].key != "getMore" {
      path := [n];
    } else {
      var f := ForwardedFirst(log, n);
      assert Targets(log[n].doc).Some? by { EntitledHasTargets(log[..f], log[n], log[n].deed.owners); }
      GetMoreTargets(log[n].doc);
      var l := LookedWhere(log, f, 0);
      var c := log[n].deed.owners[0];
      var m: nat :| LastStored(log[..l], m, Key(log[n].scope, TargetIds(log[n].doc)[0]), c);
      assert log[m] == log[..l][m];
      KeptCursor(log, m);
      assert log[n].deed.cursor.namespace == TargetNamespace(log[n].doc) by { GetMoreNamespace(log[n]); }
      assert Continues(log[m], log[n]);
      var before := ChainTo(log, m);
      path := before + [n];
    }
  }

  lemma EntitledHasTargets(log: seq<Event>, e: Event, owners: seq<Cursor>)
    requires Entitled(log, e.call, e.scope, e.doc, owners)
    ensures Targets(e.doc).Some?
  {
    hide Targets, TargetIds, Cleared, AllLooked, AllAllowed, NamespaceList, Metadata;
  }

  lemma GetMoreNamespace(e: Event)
    requires e.deed.Kept? && UsesCursors(e.doc)
    requires e.deed.cursor.namespace == ExpectedNamespace(e.doc, e.deed.cursor.namespace)
    ensures e.deed.cursor.namespace == TargetNamespace(e.doc)
  {
    hide TargetCollection, Joined;
  }

  /** Along a chain the command, the namespace, the session and what the commands say about it never change. */
  lemma {:induction false} ChainKeeps(log: seq<Event>, path: seq<nat>, i: nat)
    requires Lawful(log) && Chain(log, path) && i < |path|
    ensures log[path[i]].deed.cursor.command == VerbOf(log[path[0]].doc[0].key)
    ensures log[path[i]].deed.cursor.namespace == log[path[0]].deed.cursor.namespace
    ensures log[path[i]].deed.cursor.session == log[path[0]].deed.cursor.session
    ensures log[path[i]].scope == log[path[0]].scope
    ensures Get(log[path[i]].doc, "lsid") == Get(log[path[0]].doc, "lsid")
  {
    hide VerbOf, TargetIds, Lawful, Session, Cleared;
    if i > 0 {
      ChainKeeps(log, path, i - 1);
      KeptSession(log, path[i - 1]);
      KeptSession(log, path[i]);
      SameSession(log[path[i - 1]].doc, log[path[i - 1]].deed.owners, log[path[i]].doc, log[path[i]].deed.owners);
    }
  }

  lemma KeptSession(log: seq<Event>, m: nat)
    requires Lawful(log) && m < |log| && log[m].deed.Kept?
    ensures log[m].deed.cursor.session == Session(log[m].doc) && Cleared(log[m].doc, log[m].deed.owners)
  {
    hide Lawful, Session, Cleared, HasCursor, AuthNumber, ExpectedNamespace, PublicVerb, TargetIds, Subfield;
    KeptCursor(log, m);
  }

  lemma OnlyGetMore(name: string)
    requires VerbOf(name) == GetMore
    ensures name == "getMore"
  {
  }

  /** The event behind a registry entry. */
  lemma EntryEvent(run: seq<Choice>, k: Key) returns (m: nat)
    requires k in Run(run).cursors
    ensures m < |Run(run).log| && Stores(Run(run).log[m], k) && Run(run).log[m].deed.cursor == Run(run).cursors[k]
    ensures k.id != 0
  {
    hide Run, Lawful, CallsOk, WithinLimits;
    InvariantHolds(run);
    assert EntryOk(Run(run).log, k, Run(run).cursors[k], Run(run).now);
    m :| LastStored(Run(run).log, m, k, Run(run).cursors[k]);
  }

  /** No entry ever carries getMore: a chain keeps the command that opened it. */
  lemma EntriesCarryTheOpener(run: seq<Choice>, k: Key)
    requires k in Run(run).cursors
    ensures Run(run).cursors[k].command != GetMore
    ensures exists path :: Chain(Run(run).log, path) && Stores(Run(run).log[path[|path| - 1]], k) &&
              Run(run).cursors[k].command == VerbOf(Run(run).log[path[0]].doc[0].key)
  {
    hide Run, Lawful, VerbOf, Continues;
    RunIsLawful(run);
    var m := EntryEvent(run, k);
    var path := ChainTo(Run(run).log, m);
    ChainKeeps(Run(run).log, path, |path| - 1);
    if Run(run).cursors[k].command == GetMore {
      OnlyGetMore(Run(run).log[path[0]].doc[0].key);
    }
  }

  /** Every answered getMore is sanitized as the command that opened its chain. */
  lemma GetMoreAnswersAsOpener(run: seq<Choice>, n: nat)
    requires n < |Run(run).log| && Run(run).log[n].deed.Answered? && Run(run).log[n].doc[0].key == "getMore"
    ensures exists path :: AnswersChain(Run(run).log, n, path)
  {
    hide Run, Lawful, VerbOf, TargetIds, Targets, PublicReply, Cleared, TargetNamespace, Session, Entitled,
         ForwardDoc;
    RunIsLawful(run);
    var log := Run(run).log;
    EventIsJustified(log, n);
    var f := ForwardedFirst(log, n);
    assert Targets(log[n].doc).Some? by { EntitledHasTargets(log[..f], log[n], log[n].deed.owners); }
    GetMoreTargets(log[n].doc);
    var l := LookedWhere(log, f, 0);
    var c := log[n].deed.owners[0];
    var m: nat :| LastStored(log[..l], m, Key(log[n].scope, TargetIds(log[n].doc)[0]), c);
    assert log[m] == log[..l][m];
    var path := ChainTo(log, m);
    ChainKeeps(log, path, |path| - 1);
    assert AnswersChain(log, n, path);
  }

  ghost predicate AnswersChain(log: seq<Event>, n: nat, path: seq<nat>)
    requires n < |log| && log[n].deed.Answered?
  {
    && Chain(log, path) && path[|path| - 1] < n
    && Stores(log[path[|path| - 1]], Key(log[n].scope, log[path[|path| - 1]].deed.id))
    && TargetIds(log[n].doc) == [log[path[|path| - 1]].deed.id]
    && log[n].deed.shown == PublicReply(VerbOf(log[path[0]].doc[0].key), log[n].deed.reply)
  }
}
