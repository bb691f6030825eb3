/** A run in which a killCursors reply that carries a cursor leaves a metadata namespace under killCursors. */
module StrayCursor {
  import opened Values
  import opened PolicyTables
  import opened Policy
  import opened Namespaces
  import opened Registry
  import opened Execute
  import opened Interleaving

  const NAMESPACE := "d.$cmd.listCollections"

  function ListRequest(): Request { [Field("listCollections", Int32(1)), Field("$db", String("d"))] }

  function KillRequest(): Request
  {
    [Field("killCursors", String("$cmd.listCollections")), Field("cursors", Array([Int32(5)])),
     Field("$db", String("d"))]
  }

  /** A successful reply that offers a cursor of the metadata namespace. */
  function CursorReply(id: int32): Doc
  {
    [Field("ok", Int32(1)), Field("cursor", Document([Field("id", Int32(id)), Field("ns", String(NAMESPACE))]))]
  }

  function Opening(): seq<Choice>
  {
    [Begin([], ListRequest()), Advance(0, None), Advance(0, None), Advance(0, None),
     Advance(0, Some(CursorReply(5))), Advance(0, None)]
  }

  function Killing(): seq<Choice>
  {
    [Begin([], KillRequest()), Advance(1, None), Advance(1, None), Advance(1, None),
     Advance(1, Some(CursorReply(9))), Advance(1, None)]
  }

  // ------------------------------------------------------------------ the two requests

  lemma NameIsFine()
    ensures DatabaseName(String("d"), false)
  {
    assert Lower("d") == "d";
  }

  lemma CommandWords()
    ensures VerbOf("listCollections") == ListCollections && VerbOf("killCursors") == KillCursors
    ensures "$db" in OptionsOf(ListCollections) && "$db" in OptionsOf(KillCursors)
    ensures "cursors" in OptionsOf(KillCursors)
    ensures !AdminVerb(ListCollections) && !AdminVerb(KillCursors)
    ensures RequiredOf(ListCollections) == [] && RequiredOf(KillCursors) == ["cursors"]
  {
    assert OptionsOf(ListCollections)[0] == "$db" && OptionsOf(KillCursors)[0] == "$db";
    assert OptionsOf(KillCursors)[4] == "cursors";
  }

  lemma OptionWords()
    ensures OptionKindOf("$db") == DatabaseOption && OptionKindOf("cursors") == CursorsOption
  {
  }

  lemma ListFields()
    ensures var d := ListRequest();
            UniqueKeys(d) && Get(d, "$db") == String("d")
  {
    var d := ListRequest();
    assert UniqueKeys(d);
    GetAt(d, 1);
  }

  function MaskedKill(): Doc
  {
    [Field("killCursors", String(PLACEHOLDER)), Field("cursors", Array([Int32(5)])), Field("$db", String("d"))]
  }

  lemma KillFields(d: Doc, name: Value)
    requires d == [Field("killCursors", name), Field("cursors", Array([Int32(5)])), Field("$db", String("d"))]
    ensures UniqueKeys(d) && Get(d, "$db") == String("d") && Get(d, "cursors") == Array([Int32(5)])
    ensures Get(d, "lsid") == Null
  {
    assert UniqueKeys(d);
    GetAt(d, 1);
    GetAt(d, 2);
    GetAbsent(d, "lsid");
  }

  lemma ListRequestIsAccepted()
    ensures CommandOK(ListRequest())
  {
    hide VerbOf, OptionKindOf, OptionsOf, RequiredOf, AdminVerb, DatabaseName, Get, UniqueKeys;
    CommandWords();
    OptionWords();
    ListFields();
    NameIsFine();
    var d := ListRequest();
    assert InRange(d[0].value, 1, 1);
    assert d[1].key in OptionsOf(ListCollections);
    assert Fields(d, [d[0].key] + OptionsOf(ListCollections));
  }

  lemma NotSystem(s: string)
    requires s != "" && s[0] == 'v'
    ensures !HasPrefix(Lower(s), "system.")
  {
    assert Lower(s)[0] == 'v';
    assert "system."[0] == 's';
  }

  lemma PlaceholderIsFine()
    ensures CollectionName(String(PLACEHOLDER))
  {
    NotSystem(PLACEHOLDER);
    hide Lower;
  }

  lemma KillOptions()
    ensures CommandOption(KillCursors, "cursors", Array([Int32(5)])) && CommandOption(KillCursors, "$db", String("d"))
  {
    hide OptionKindOf;
    OptionWords();
  }

  lemma MaskedKillHead()
    ensures CommandHead(MaskedKill())
  {
    hide VerbOf, OptionsOf, RequiredOf, AdminVerb, DatabaseName, Get, UniqueKeys, CollectionName;
    CommandWords();
    var d := MaskedKill();
    KillFields(d, String(PLACEHOLDER));
    NameIsFine();
    PlaceholderIsFine();
    assert d[1].key in OptionsOf(KillCursors) && d[2].key in OptionsOf(KillCursors);
    assert Fields(d, [d[0].key] + OptionsOf(KillCursors));
  }

  lemma MaskedKillIsAccepted()
    ensures CommandOK(MaskedKill())
  {
    hide CommandHead, CommandOption, VerbOf;
    MaskedKillHead();
    CommandWords();
    KillOptions();
  }

  lemma MaskedKillRequest()
    ensures Masked(KillRequest()) == MaskedKill()
  {
    var d, m := KillRequest(), Masked(KillRequest());
    assert |m| == 3 && m[0] == MaskedKill()[0] && m[1] == MaskedKill()[1] && m[2] == MaskedKill()[2];
  }

  // --------------------------------------------------------------------- the replies

  lemma CursorReplyFields(id: int32)
    ensures var r := CursorReply(id);
            && Succeeded(r) && HasCursor(r) && AuthNumber(Subfield(r, "id")) == Some(id)
            && Subfield(r, "id") == Int32(id) && Subfield(r, "ns") == String(NAMESPACE)
  {
    var r := CursorReply(id);
    assert r[1..][0] == r[1];
    var c := r[1].value.fields;
    assert c[1..][0] == c[1];
    assert Get(r, "cursor") == r[1].value;
    assert Get(c, "ns") == c[1].value;
  }

  lemma NamespaceJoins()
    ensures Joined("d", "$cmd.listCollections") == NAMESPACE
  {
  }

  lemma ListNamespace()
    ensures ExpectedNamespace(ListRequest(), NAMESPACE) == NAMESPACE
  {
    hide Joined, Get, UniqueKeys;
    ListFields();
    NamespaceJoins();
  }

  lemma KillNamespace()
    ensures ExpectedNamespace(KillRequest(), NAMESPACE) == NAMESPACE && TargetNamespace(KillRequest()) == NAMESPACE
  {
    hide Joined, Get, UniqueKeys;
    KillFields(KillRequest(), KillRequest()[0].value);
    NamespaceJoins();
  }

  lemma ListReplyIsExpected()
    ensures !BadCursor(ListRequest(), CursorReply(5))
  {
    hide AuthNumber, Subfield, HasCursor, ExpectedNamespace, CursorReply, ListRequest;
    CursorReplyFields(5);
    ListNamespace();
  }

  lemma KillReplyIsExpected()
    ensures !BadCursor(KillRequest(), CursorReply(9))
  {
    hide AuthNumber, Subfield, HasCursor, ExpectedNamespace, CursorReply, KillRequest;
    CursorReplyFields(9);
    KillNamespace();
  }

  const OPENED: Cursor := Cursor(NAMESPACE, ListCollections, [], 0)
  const STRAY: Cursor := Cursor(NAMESPACE, KillCursors, [], 0)

  lemma ListStores()
    ensures var a := Actions(ListRequest(), [], CursorReply(5)); |a| > 0 && a[0] == Keep(5, OPENED)
  {
    hide AuthNumber, Subfield, HasCursor, DropAll, VerbOf, Succeeded;
    CursorReplyFields(5);
    CommandWords();
    GetAbsent(ListRequest(), "lsid");
    assert NewCursor(ListRequest(), [], CursorReply(5)) == OPENED;
  }

  lemma KillStores()
    ensures var a := Actions(KillRequest(), [OPENED], CursorReply(9)); |a| > 0 && a[0] == Keep(9, STRAY)
  {
    hide AuthNumber, Subfield, HasCursor, DropAll, VerbOf, Succeeded, Gone;
    CursorReplyFields(9);
    CommandWords();
    KillFields(KillRequest(), KillRequest()[0].value);
    assert NewCursor(KillRequest(), [OPENED], CursorReply(9)) == STRAY;
  }

  lemma ListTouchesNothing()
    ensures NamespaceList(ListRequest()) == []
  {
    hide CommandOK, VerbOf;
    CommandWords();
    assert MainCollection(ListRequest()) == None;
    assert Uses(ListRequest()) == [];
  }

  // ----------------------------------------------------------------------- the run

  predicate At(s: System, cursors: Cursors, calls: seq<Call>)
  {
    s.cursors == cursors && s.now == 0 && s.calls == calls
  }

  function Listing(phase: Phase): Call { Call([], ListRequest(), [], phase) }

  lemma ListLooks(s: System)
    requires At(s, map[], [Listing(Looking)])
    ensures At(Look(s, 0), map[], [Listing(Asking(0))])
  {
    hide CommandOK;
    ListRequestIsAccepted();
  }

  lemma ListAsks(s: System)
    requires At(s, map[], [Listing(Asking(0))])
    ensures At(Ask(s, 0, None), map[], [Listing(Sending)])
  {
    hide NamespaceList;
    ListTouchesNothing();
  }

  lemma ListActs(s: System)
    requires At(s, map[], [Listing(Acting(CursorReply(5), 0))])
    ensures At(Act(s, 0), map[Key([], 5) := OPENED], [Listing(Acting(CursorReply(5), 1))])
  {
    hide Actions;
    ListStores();
    RoomInEmpty();
  }

  lemma RoomInEmpty()
    ensures HasRoom(Live(map[], 0), [], 5) && Live(map[], 0) == map[]
  {
    assert Live(map[], 0) == map[];
    assert InScope(map[], []) == {};
  }

  lemma ListReceives(s: System)
    requires At(s, map[], [Listing(Waiting)])
    ensures At(Receive(s, 0, Some(CursorReply(5))), map[], [Listing(Acting(CursorReply(5), 0))])
  {
    hide BadCursor;
    ListReplyIsExpected();
  }

  const STORED: Cursors := map[Key([], 5) := OPENED]

  function Done(): Call { Listing(Acting(CursorReply(5), 1)) }

  function Kill(owners: seq<Cursor>, phase: Phase): Call { Call([], KillRequest(), owners, phase) }

  lemma KillTargets()
    ensures Targets(KillRequest()) == Some([5]) && TargetIds(KillRequest()) == [5] && Session(KillRequest()) == []
  {
    KillFields(KillRequest(), KillRequest()[0].value);
    var items := [Int32(5)];
    assert items[1..] == [];
    assert Ids(items[1..]) == Some([]);
    assert [5] + [] == [5];
  }

  lemma KillFinds(s: System)
    requires At(s, STORED, [Done(), Kill([], Looking)])
    ensures At(Look(s, 1), STORED, [Done(), Kill([OPENED], Looking)])
  {
    hide CommandOK, Targets, TargetIds, TargetNamespace, Session, KillRequest, Metadata;
    KillTargets();
    KillNamespace();
    assert [] + [OPENED] == [OPENED];
  }

  lemma KillClears(s: System)
    requires At(s, STORED, [Done(), Kill([OPENED], Looking)])
    ensures At(Look(s, 1), STORED, [Done(), Kill([OPENED], Sending)])
  {
    hide CommandOK, Targets, TargetIds, TargetNamespace, Session, KillRequest, Masked;
    KillTargets();
    MaskedKillRequest();
    MaskedKillIsAccepted();
    assert MetadataCommand([OPENED][0].command);
    assert Metadata([OPENED]);
  }

  lemma KillReceives(s: System)
    requires At(s, STORED, [Done(), Kill([OPENED], Waiting)])
    ensures At(Receive(s, 1, Some(CursorReply(9))), STORED, [Done(), Kill([OPENED], Acting(CursorReply(9), 0))])
  {
    hide BadCursor;
    KillReplyIsExpected();
  }

  lemma KillActs(s: System)
    requires At(s, STORED, [Done(), Kill([OPENED], Acting(CursorReply(9), 0))])
    ensures Key([], 9) in Act(s, 1).cursors && Act(s, 1).cursors[Key([], 9)] == STRAY
  {
    hide Actions;
    KillStores();
    assert Live(STORED, 0) == STORED;
    assert InScope(STORED, []) == {Key([], 5)};
  }

  lemma AdvanceIs(s: System, p: nat, answer: Option<Doc>)
    requires p < |s.calls|
    ensures s.calls[p].phase.Looking? ==> Next(s, Advance(p, answer)) == Look(s, p)
    ensures s.calls[p].phase.Asking? ==> Next(s, Advance(p, answer)) == Ask(s, p, answer)
    ensures s.calls[p].phase.Sending? ==> Next(s, Advance(p, answer)) == Send(s, p)
    ensures s.calls[p].phase.Waiting? ==> Next(s, Advance(p, answer)) == Receive(s, p, answer)
    ensures s.calls[p].phase.Acting? ==> Next(s, Advance(p, answer)) == Act(s, p)
  {
    hide Look, Ask, Send, Receive, Act;
  }

  lemma ListSends(s: System)
    requires At(s, map[], [Listing(Sending)])
    ensures At(Send(s, 0), map[], [Listing(Waiting)])
  {
    hide ForwardDoc, ListRequest;
  }

  lemma KillSends(s: System)
    requires At(s, STORED, [Done(), Kill([OPENED], Sending)])
    ensures At(Send(s, 1), STORED, [Done(), Kill([OPENED], Waiting)])
  {
    hide ForwardDoc, KillRequest, ListRequest, CursorReply;
  }

  lemma ListBegins()
    ensures At(Run([Begin([], ListRequest())]), map[], [Listing(Looking)])
  {
    hide ListRequest;
    RunSnoc([], Begin([], ListRequest()));
    assert [] + [Begin([], ListRequest())] == [Begin([], ListRequest())];
    assert Run([]) == START;
  }

  lemma Opened()
    ensures At(Run(Opening()), STORED, [Done()])
  {
    hide Run, ListRequest, CursorReply, Look, Ask, Send, Receive, Act, Next;
    var r1 := [Begin([], ListRequest())];
    ListBegins();
    var r2 := r1 + [Advance(0, None)];
    RunSnoc(r1, Advance(0, None));
    AdvanceIs(Run(r1), 0, None);
    ListLooks(Run(r1));
    var r3 := r2 + [Advance(0, None)];
    RunSnoc(r2, Advance(0, None));
    AdvanceIs(Run(r2), 0, None);
    ListAsks(Run(r2));
    var r4 := r3 + [Advance(0, None)];
    RunSnoc(r3, Advance(0, None));
    AdvanceIs(Run(r3), 0, None);
    ListSends(Run(r3));
    var r5 := r4 + [Advance(0, Some(CursorReply(5)))];
    RunSnoc(r4, Advance(0, Some(CursorReply(5))));
    AdvanceIs(Run(r4), 0, Some(CursorReply(5)));
    ListReceives(Run(r4));
    RunSnoc(r5, Advance(0, None));
    AdvanceIs(Run(r5), 0, None);
    ListActs(Run(r5));
    assert r5 + [Advance(0, None)] == Opening();
  }

  lemma KillBegins(r: seq<Choice>)
    requires At(Run(r), STORED, [Done()])
    ensures At(Run(r + [Begin([], KillRequest())]), STORED, [Done(), Kill([], Looking)])
  {
    hide Run, KillRequest, ListRequest, CursorReply;
    RunSnoc(r, Begin([], KillRequest()));
  }

  lemma Killed(r: seq<Choice>)
    requires At(Run(r), STORED, [Done()])
    ensures Key([], 9) in Run(r + Killing()).cursors && Run(r + Killing()).cursors[Key([], 9)] == STRAY
  {
    hide Run, KillRequest, ListRequest, CursorReply, Look, Ask, Send, Receive, Act, Next;
    var r1 := r + [Begin([], KillRequest())];
    KillBegins(r);
    var r2 := r1 + [Advance(1, None)];
    RunSnoc(r1, Advance(1, None));
    AdvanceIs(Run(r1), 1, None);
    KillFinds(Run(r1));
    var r3 := r2 + [Advance(1, None)];
    RunSnoc(r2, Advance(1, None));
    AdvanceIs(Run(r2), 1, None);
    KillClears(Run(r2));
    var r4 := r3 + [Advance(1, None)];
    RunSnoc(r3, Advance(1, None));
    AdvanceIs(Run(r3), 1, None);
    KillSends(Run(r3));
    var r5 := r4 + [Advance(1, Some(CursorReply(9)))];
    RunSnoc(r4, Advance(1, Some(CursorReply(9))));
    AdvanceIs(Run(r4), 1, Some(CursorReply(9)));
    KillReceives(Run(r4));
    RunSnoc(r5, Advance(1, None));
    AdvanceIs(Run(r5), 1, None);
    KillActs(Run(r5));
    assert r5 + [Advance(1, None)] == r + Killing();
  }

  /**
   * From the empty registry: listCollections opens cursor 5; then killCursors of it is answered as a success that
   * carries cursor 9 of the same namespace. An entry with a dollar sign in its namespace remains that no metadata
   * command opened.
   */
  lemma StrayCursorRun()
    ensures var run := Opening() + Killing();
            && Key([], 9) in Run(run).cursors
            && '$' in Run(run).cursors[Key([], 9)].namespace
            && Run(run).cursors[Key([], 9)].command == KillCursors
            && !MetadataCommand(Run(run).cursors[Key([], 9)].command)
  {
    hide Run, Opening, Killing;
    Opened();
    Killed(Opening());
    assert NAMESPACE[2] == '$';
  }
}
