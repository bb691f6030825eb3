/** The proxy logging in to another tunnel: both finish together, exactly when the tokens agree. */
module LoginTheorems {
  import opened Values
  import opened Policy
  import opened Execute
  import opened Scram
  import opened TunnelServer
  import opened TunnelServerRuns
  import opened Login

  // ---------------------------------------------------------------- the two requests

  lemma StartRequestFields(mechanism: string, payload: bytes, source: string)
    ensures var d := StartRequest(mechanism, payload, source);
            && UniqueKeys(d) && Get(d, "payload") == Binary(0, payload) && Get(d, "mechanism") == String(mechanism)
            && Get(d, "$db") == String(source) && Get(d, "maxTimeMS") == Null && Get(d, "$readPreference") == Null
            && Get(d, "options") == Null
  {
    var d := StartRequest(mechanism, payload, source);
    assert UniqueKeys(d);
    GetAt(d, 1);
    GetAt(d, 2);
    GetAt(d, 4);
    GetAbsent(d, "maxTimeMS");
    GetAbsent(d, "$readPreference");
    GetAbsent(d, "options");
  }

  lemma ContinueRequestFields(id: int32, payload: bytes, source: string)
    ensures var d := ContinueRequest(id, payload, source);
            && UniqueKeys(d) && Get(d, "payload") == Binary(0, payload) && Get(d, "conversationId") == Int32(id)
            && Get(d, "$db") == String(source) && Get(d, "maxTimeMS") == Null && Get(d, "$readPreference") == Null
  {
    var d := ContinueRequest(id, payload, source);
    assert UniqueKeys(d);
    GetAt(d, 1);
    GetAt(d, 2);
    GetAt(d, 3);
    GetAbsent(d, "maxTimeMS");
    GetAbsent(d, "$readPreference");
  }

  lemma StartAccepted(mechanism: string, payload: bytes, source: string)
    ensures SaslRequest(StartRequest(mechanism, payload, source)) <==> source == "admin" && |payload| <= 16384
    ensures SkipOption(StartRequest(mechanism, payload, source), false) == Some(false)
  {
    StartRequestFields(mechanism, payload, source);
    var d := StartRequest(mechanism, payload, source);
    var keys := SaslFields(true);
    assert d[0].key == keys[0] && d[1].key == keys[1] && d[2].key == keys[2] && d[3].key == keys[3] &&
           d[4].key == keys[5];
    assert Fields(d, keys);
    hide Fields, SaslFields, Get, UniqueKeys;
  }

  lemma ContinueAccepted(id: int32, payload: bytes, source: string)
    ensures SaslRequest(ContinueRequest(id, payload, source)) <==> source == "admin" && |payload| <= 16384
  {
    ContinueRequestFields(id, payload, source);
    var d := ContinueRequest(id, payload, source);
    var keys := SaslFields(false);
    assert d[0].key == keys[0] && d[1].key == keys[2] && d[2].key == keys[1] && d[3].key == keys[3];
    assert Fields(d, keys);
    hide Fields, SaslFields, Get, UniqueKeys;
  }

  // ------------------------------------------------------ success is never one-sided

  predicate SaslPending(a: Attempt) { a.request != [] && IsSasl(a.request[0].key) }

  lemma AdvancedStaysSasl(lib: Library, a: Attempt, source: string, answer: Option<Doc>)
    requires SaslPending(a)
    ensures SaslPending(Advanced(lib, a, source, answer))
  {
    hide ParseReply, ClientStep;
  }

  /** A client that succeeds was told done by its last answer. */
  lemma SuccessWasAnnounced(lib: Library, a: Attempt, source: string, answer: Option<Doc>)
    requires a.status == Trying && Advanced(lib, a, source, answer).status == LoggedIn
    ensures answer.Some? && Succeeded(answer.value) && Get(answer.value, "done") == Bool(true)
  {
    hide ClientStep, Succeeded;
  }

  ghost predicate Honest(p: Pair)
  {
    SaslPending(p.client) && (p.client.status == LoggedIn ==> p.server.authed)
  }

  lemma ExchangeStaysHonest(lib: Library, token: string, source: string, p: Pair, w: World)
    requires Honest(p)
    ensures Honest(Exchanged(lib, token, source, p, w))
  {
    hide ServedSasl, ServedHello, ServedCommand, StatusRequest, Advanced, Succeeded, Get, IsSasl;
    if p.client.status == Trying {
      var r := Served(lib, token, p.server, 0, p.client.request, w);
      var answer := if w.delivered then LastReply(r) else None;
      AdvancedStaysSasl(lib, p.client, source, answer);
      if Advanced(lib, p.client, source, answer).status == LoggedIn {
        SuccessWasAnnounced(lib, p.client, source, answer);
        ServedIsSasl(lib, token, p.server, p.client.request, w);
        SaslRepliesSayDone(lib, token, p.server, p.client.request, w);
      }
    }
  }

  lemma ServedIsSasl(lib: Library, token: string, s: Server, doc: Doc, w: World)
    requires doc != [] && IsSasl(doc[0].key)
    ensures Served(lib, token, s, 0, doc, w) == if s.closed then Round(s, []) else ServedSasl(lib, token, s, doc, w)
  {
    hide ServedSasl, ServedHello, ServedCommand, StatusRequest;
  }

  /**
   * Whatever is lost on the way and whatever the random draws are: the client never believes it is logged in unless
   * the tunnel has authenticated it.
   */
  lemma {:induction false} SuccessMeansAuthenticated(lib: Library, token: string, user: string, secret: string,
                                                     own: string, mechanism: string, source: string,
                                                     worlds: seq<World>)
    ensures var start := Pair(Begun(lib, user, secret, own, mechanism, source), FRESH);
            Honest(ExchangedAll(lib, token, source, start, worlds))
    decreases |worlds|
  {
    hide Exchanged;
    if worlds != [] {
      SuccessMeansAuthenticated(lib, token, user, secret, own, mechanism, source, worlds[..|worlds| - 1]);
      var p := ExchangedAll(lib, token, source, Pair(Begun(lib, user, secret, own, mechanism, source), FRESH),
                            worlds[..|worlds| - 1]);
      ExchangeStaysHonest(lib, token, source, p, worlds[|worlds| - 1]);
    }
  }

  // ------------------------------------------------------------ what the client insists on

  /** The transcript is for this user and this client's own nonce, and the password was hashed often enough. */
  predicate Demanding(user: string, own: string, t: Transcript)
  {
    t.user == user && t.clientNonce == own && |own| <= |t.nonce| && t.nonce[..|own|] == own && t.rounds >= 4096
  }

  /** An answer carries the server's signature under the same secret. */
  predicate Signed(lib: Library, answer: Option<Doc>, secret: string, t: Transcript)
  {
    && answer.Some? && AuthNumber(Get(answer.value, "ok")) == Some(1) && Get(answer.value, "payload").Binary?
    && lib.read(Get(answer.value, "payload").data) == ServerFinal(Evidence(secret, t))
  }

  ghost predicate SomeSigned(lib: Library, answers: seq<Option<Doc>>, secret: string, t: Transcript)
  {
    exists k :: 0 <= k < |answers| && Signed(lib, answers[k], secret, t)
  }

  ghost predicate Insists(lib: Library, user: string, secret: string, own: string, answers: seq<Option<Doc>>,
                          a: Attempt)
  {
    && a.conv.user == user && a.conv.secret == secret && a.conv.own == own && a.conv.stage != Starting
    && (a.status != GaveUp && a.conv.stage in {Final, Complete} ==> Demanding(user, own, a.conv.transcript))
    && (a.conv.valid ==> a.conv.stage == Complete)
    && (a.status != GaveUp && a.conv.valid ==> SomeSigned(lib, answers, secret, a.conv.transcript))
    && (a.status == LoggedIn ==> a.conv.valid)
  }

  lemma AdvancedInsists(lib: Library, user: string, secret: string, own: string, answers: seq<Option<Doc>>, a: Attempt,
                        source: string, answer: Option<Doc>)
    requires Insists(lib, user, secret, own, answers, a)
    ensures Insists(lib, user, secret, own, answers + [answer], Advanced(lib, a, source, answer))
  {
    hide ContinueRequest, AuthNumber;
    var all, t := answers + [answer], a.conv.transcript;
    assert all[|answers|] == answer;
    if SomeSigned(lib, answers, secret, t) {
      var k :| 0 <= k < |answers| && Signed(lib, answers[k], secret, t);
      assert all[k] == answers[k];
    }
    if Signed(lib, answer, secret, t) {
      assert Signed(lib, all[|answers|], secret, t);
    }
  }

  /**
   * Whatever the backend answers, to whatever number of requests: the client is logged in only after an answer signed
   * under its own secret, for its own user and nonce, with at least 4096 rounds.
   */
  lemma {:induction false} ClientInsists(lib: Library, user: string, secret: string, own: string, mechanism: string,
                                         source: string, answers: seq<Option<Doc>>)
    ensures var a := AfterAnswers(lib, Begun(lib, user, secret, own, mechanism, source), source, answers);
            && Insists(lib, user, secret, own, answers, a)
            && (a.status == LoggedIn ==>
                  Demanding(user, own, a.conv.transcript) && SomeSigned(lib, answers, secret, a.conv.transcript))
    decreases |answers|
  {
    hide Advanced, Demanding, SomeSigned;
    if answers != [] {
      var init, last := answers[..|answers| - 1], answers[|answers| - 1];
      ClientInsists(lib, user, secret, own, mechanism, source, init);
      AdvancedInsists(lib, user, secret, own, init,
                      AfterAnswers(lib, Begun(lib, user, secret, own, mechanism, source), source, init), source, last);
      assert init + [last] == answers;
    }
  }

  // -------------------------------------------------------- equal tokens: three exchanges

  function Agreed(own: string, w: World): Transcript
    requires w.salt.Some?
  {
    Transcript("vaulty", own, own + w.nonce, w.salt.value, 4096)
  }

  /** The messages of the exchange are within the limits that either side puts on a payload. */
  predicate SmallMessages(lib: Library, secret: string, t: Transcript)
  {
    && |lib.write(ClientFirst(t.user, t.clientNonce))| <= 16384
    && |lib.write(ClientFinal(t.nonce, Evidence(secret, t)))| <= 16384
    && |lib.write(ServerFirst(t.nonce, t.salt, t.rounds))| <= 0x10_0000
    && |lib.write(ServerFinal(Evidence(secret, t)))| <= 0x10_0000
  }

  lemma ParsedReply(s: Server, response: bytes)
    requires |response| <= 0x10_0000
    ensures ParseReply(Some(SaslReply(s, response))) == Some(Parsed(s.id, s.authed, response))
  {
    hide SaslReply, Succeeded;
    SaslReplyFields(s, response);
  }

  lemma NotParsed(reply: Doc)
    requires !Succeeded(reply)
    ensures ParseReply(Some(reply)) == None
  {
    hide Succeeded;
  }

  function Opened(secret: string, own: string, w: World): Server
    requires w.salt.Some?
  {
    Server(false, false, false, Some(ServerSide(Final, false, secret, w.salt.value, w.nonce, Agreed(own, w))), w.id,
           false)
  }

  function Answering(lib: Library, secret: string, own: string, w: World): Attempt
    requires w.salt.Some?
  {
    var t := Agreed(own, w);
    Attempt(Trying, ClientSide(Final, false, "vaulty", secret, t.nonce, t).(own := own),
            ContinueRequest(w.id, lib.write(ClientFinal(t.nonce, Evidence(secret, t))), "admin"), 1, w.id)
  }

  /** First exchange, as the server sees it. */
  lemma ServerOpens(lib: Library, token: string, own: string, w: World)
    requires Faithful(lib) && lib.prepare(token).Some? && w.salt.Some? && w.delivered
    requires |lib.write(ClientFirst("vaulty", own))| <= 16384
    ensures var doc := StartRequest(SHA256, lib.write(ClientFirst("vaulty", own)), "admin");
            var r := Served(lib, token, FRESH, 0, doc, w);
            var t := Agreed(own, w);
            && r.next == Opened(lib.prepare(token).value, own, w)
            && LastReply(r) == Some(SaslReply(r.next, lib.write(ServerFirst(t.nonce, t.salt, t.rounds))))
  {
    hide SaslRequest, Get, SkipOption, SaslReply;
    var payload := lib.write(ClientFirst("vaulty", own));
    var doc := StartRequest(SHA256, payload, "admin");
    StartAccepted(SHA256, payload, "admin");
    StartRequestFields(SHA256, payload, "admin");
    ServedIsSasl(lib, token, FRESH, doc, w);
    assert lib.read(payload) == ClientFirst("vaulty", own);
    assert ServedSasl(lib, token, FRESH, doc, w) ==
           Continued(lib, Started(lib, token, FRESH, doc, w).value, payload, w) by {
      hide Continued, Started;
      StartedHere(lib, token, doc, w);
    }
    StartedHere(lib, token, doc, w);
    SaslReplyIgnoresClosed(Opened(lib.prepare(token).value, own, w), []);
  }

  lemma StartedHere(lib: Library, token: string, doc: Doc, w: World)
    requires Get(doc, "mechanism") == String(SHA256) && SkipOption(doc, false) == Some(false)
    requires lib.prepare(token).Some? && w.salt.Some?
    ensures var conv := FreshServer(lib.prepare(token).value, w.salt.value, w.nonce);
            Started(lib, token, FRESH, doc, w) == Some(Server(false, false, false, Some(conv), w.id, false))
  {
    hide Get, SkipOption;
  }

  /** First exchange, as the client sees it. */
  lemma ClientAnswers(lib: Library, secret: string, own: string, w: World, answer: Option<Doc>)
    requires Faithful(lib) && w.salt.Some?
    requires var t := Agreed(own, w);
             ParseReply(answer) == Some(Parsed(w.id, false, lib.write(ServerFirst(t.nonce, t.salt, t.rounds))))
    ensures Advanced(lib, Begun(lib, "vaulty", secret, own, SHA256, "admin"), "admin", answer) ==
            Answering(lib, secret, own, w)
  {
    hide ParseReply, ContinueRequest, StartRequest;
    var t := Agreed(own, w);
    assert lib.read(lib.write(ServerFirst(t.nonce, t.salt, t.rounds))) == ServerFirst(t.nonce, t.salt, t.rounds);
    assert HasPrefix(t.nonce, own);
  }

  lemma FirstExchange(lib: Library, token: string, secret: string, own: string, w: World)
    requires Faithful(lib) && lib.prepare(token).Some? && w.salt.Some? && w.delivered
    requires SmallMessages(lib, secret, Agreed(own, w))
    ensures Exchanged(lib, token, "admin", Pair(Begun(lib, "vaulty", secret, own, SHA256, "admin"), FRESH), w) ==
            Pair(Answering(lib, secret, own, w), Opened(lib.prepare(token).value, own, w))
  {
    hide Served, Advanced, LastReply, SaslReply, StartRequest, Answering, Opened, ParseReply;
    ServerOpens(lib, token, own, w);
    var t := Agreed(own, w);
    ParsedReply(Opened(lib.prepare(token).value, own, w), lib.write(ServerFirst(t.nonce, t.salt, t.rounds)));
    assert Opened(lib.prepare(token).value, own, w).id == w.id && !Opened(lib.prepare(token).value, own, w).authed
      by { OpenedFields(lib.prepare(token).value, own, w); }
    BegunRequest(lib, secret, own);
    ClientAnswers(lib, secret, own, w,
                  Some(SaslReply(Opened(lib.prepare(token).value, own, w),
                                 lib.write(ServerFirst(t.nonce, t.salt, t.rounds)))));
  }

  lemma OpenedFields(secret: string, own: string, w: World)
    requires w.salt.Some?
    ensures Opened(secret, own, w).id == w.id && !Opened(secret, own, w).authed
  {
  }

  lemma BegunRequest(lib: Library, secret: string, own: string)
    ensures var b := Begun(lib, "vaulty", secret, own, SHA256, "admin");
            b.status == Trying && b.request == StartRequest(SHA256, lib.write(ClientFirst("vaulty", own)), "admin")
  {
    hide StartRequest;
  }

  function Confirmed(secret: string, own: string, w: World): Server
    requires w.salt.Some?
  {
    Server(false, true, false, Some(ServerSide(Complete, true, secret, w.salt.value, w.nonce, Agreed(own, w))), w.id,
           false)
  }

  function Acknowledging(secret: string, own: string, w: World): Attempt
    requires w.salt.Some?
  {
    var t := Agreed(own, w);
    Attempt(Trying, ClientSide(Complete, true, "vaulty", secret, own, t), ContinueRequest(w.id, [], "admin"), 2, w.id)
  }

  /** A continue request reaches the conversation it names. */
  lemma ServerContinues(lib: Library, token: string, s: Server, payload: bytes, w: World)
    requires !s.closed && !s.authed && s.conversation.Some? && |payload| <= 16384
    ensures Served(lib, token, s, 0, ContinueRequest(s.id, payload, "admin"), w) == Continued(lib, s, payload, w)
  {
    hide SaslRequest, Get, Continued;
    var doc := ContinueRequest(s.id, payload, "admin");
    ContinueAccepted(s.id, payload, "admin");
    ContinueRequestFields(s.id, payload, "admin");
    ServedIsSasl(lib, token, s, doc, w);
  }

  lemma SecondExchange(lib: Library, token: string, secret: string, own: string, w: World, w2: World)
    requires Faithful(lib) && lib.prepare(token) == Some(secret) && w.salt.Some? && w2.delivered
    requires SmallMessages(lib, secret, Agreed(own, w))
    ensures Exchanged(lib, token, "admin", Pair(Answering(lib, secret, own, w), Opened(secret, own, w)), w2) ==
            Pair(Acknowledging(secret, own, w), Confirmed(secret, own, w))
  {
    hide Served, SaslReply, ContinueRequest, ParseReply;
    var t := Agreed(own, w);
    var final := ClientFinal(t.nonce, Evidence(secret, t));
    var s := Opened(secret, own, w);
    ServerContinues(lib, token, s, lib.write(final), w2);
    assert lib.read(lib.write(final)) == final;
    var signature := ServerFinal(Evidence(secret, t));
    assert lib.read(lib.write(signature)) == signature;
    assert Continued(lib, s, lib.write(final), w2).next == Confirmed(secret, own, w);
    SaslReplyIgnoresClosed(Confirmed(secret, own, w), lib.write(signature));
    ParsedReply(Confirmed(secret, own, w), lib.write(signature));
  }

  /** With another secret the proof is refused, and both sides are done. */
  lemma SecondExchangeFails(lib: Library, token: string, secret: string, own: string, w: World, w2: World)
    requires Faithful(lib) && lib.prepare(token).Some? && lib.prepare(token).value != secret && w.salt.Some?
    requires SmallMessages(lib, secret, Agreed(own, w))
    ensures var p := Exchanged(lib, token, "admin",
                               Pair(Answering(lib, secret, own, w), Opened(lib.prepare(token).value, own, w)), w2);
            p.client.status == GaveUp && p.server.closed && !p.server.authed
  {
    hide Served, ErrorReply, ContinueRequest, ParseReply, Succeeded;
    var t := Agreed(own, w);
    var final := ClientFinal(t.nonce, Evidence(secret, t));
    var s := Opened(lib.prepare(token).value, own, w);
    ServerContinues(lib, token, s, lib.write(final), w2);
    assert lib.read(lib.write(final)) == final;
    RefusalFails(18, "MongoDB tunnel authentication failed");
    NotParsed(ErrorReply(18, "MongoDB tunnel authentication failed"));
    NothingParsed();
  }

  lemma NothingParsed()
    ensures ParseReply(None) == None
  {
  }

  lemma ThirdExchange(lib: Library, token: string, secret: string, own: string, w: World, w3: World)
    requires w.salt.Some? && w3.delivered
    ensures var p := Exchanged(lib, token, "admin", Pair(Acknowledging(secret, own, w), Confirmed(secret, own, w)), w3);
            p.client.status == LoggedIn && p.server.authed && !p.server.closed
  {
    hide Served, SaslReply, ContinueRequest, ParseReply;
    var s := Confirmed(secret, own, w);
    ServerContinues(lib, token, s, [], w3);
    var done := s.(authed := true);
    SaslReplyIgnoresClosed(done, []);
    ParsedReply(done, []);
  }

  lemma ThreeWorlds(lib: Library, token: string, source: string, p: Pair, a: World, b: World, c: World)
    ensures ExchangedAll(lib, token, source, p, [a, b]) ==
            Exchanged(lib, token, source, Exchanged(lib, token, source, p, a), b)
    ensures ExchangedAll(lib, token, source, p, [a, b, c]) ==
            Exchanged(lib, token, source, ExchangedAll(lib, token, source, p, [a, b]), c)
  {
    hide Exchanged;
    assert [a, b, c][..2] == [a, b];
    assert [a, b][..1] == [a];
    assert [a][..0] == [];
    assert ExchangedAll(lib, token, source, p, []) == p;
    assert ExchangedAll(lib, token, source, p, [a]) == Exchanged(lib, token, source, p, a);
  }

  /**
   * The two parties over a working connection. When the prepared tokens agree, both finish in exactly three
   * exchanges: after two neither has, after the third both have. When they differ, neither ever does: the second
   * exchange ends both attempts.
   */
  lemma TokensDecide(lib: Library, token: string, secret: string, own: string, a: World, b: World, c: World)
    requires Faithful(lib) && lib.prepare(token).Some? && a.salt.Some? && a.delivered && b.delivered && c.delivered
    requires SmallMessages(lib, secret, Agreed(own, a))
    ensures var start := Pair(Begun(lib, "vaulty", secret, own, SHA256, "admin"), FRESH);
            var two := ExchangedAll(lib, token, "admin", start, [a, b]);
            var three := ExchangedAll(lib, token, "admin", start, [a, b, c]);
            && two.client.status != LoggedIn && !two.server.authed
            && (two.client.status == Trying <==> lib.prepare(token).value == secret)
            && (three.client.status == LoggedIn <==> lib.prepare(token).value == secret)
            && (three.server.authed <==> lib.prepare(token).value == secret)
            && (three.server.closed <==> lib.prepare(token).value != secret)
  {
    hide Exchanged, ExchangedAll, Begun, Faithful, SmallMessages, Acknowledging, Confirmed, Answering, Opened;
    var start := Pair(Begun(lib, "vaulty", secret, own, SHA256, "admin"), FRESH);
    ThreeWorlds(lib, token, "admin", start, a, b, c);
    FirstExchange(lib, token, secret, own, a);
    if lib.prepare(token).value == secret {
      SecondExchange(lib, token, secret, own, a, b);
      NotYet(secret, own, a);
      ThirdExchange(lib, token, secret, own, a, c);
    } else {
      SecondExchangeFails(lib, token, secret, own, a, b);
      OverIsOver(lib, token, ExchangedAll(lib, token, "admin", start, [a, b]), c);
    }
  }

  lemma NotYet(secret: string, own: string, w: World)
    requires w.salt.Some?
    ensures Acknowledging(secret, own, w).status == Trying && !Confirmed(secret, own, w).authed
  {
  }

  lemma OverIsOver(lib: Library, token: string, p: Pair, w: World)
    requires p.client.status != Trying
    ensures Exchanged(lib, token, "admin", p, w) == p
  {
    hide Served, Advanced;
  }
}
