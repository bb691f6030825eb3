/** What holds over every run of the tunnel's client side. */
module TunnelServerRuns {
  import opened Values
  import opened Execute
  import opened Reply
  import opened Scram
  import opened TunnelServer

  /** A connection after its first message and a sequence of requests, with everything it did. */
  function AfterRequests(lib: Library, token: string, first: Opening, inputs: seq<Input>): Round
    decreases |inputs|
  {
    if inputs == [] then Opened(token, first)
    else
      var last, before := inputs[|inputs| - 1], AfterRequests(lib, token, first, inputs[..|inputs| - 1]);
      var r := Taken(lib, token, before.next, last);
      Round(r.next, before.deeds + r.deeds)
  }

  /** The transcript is for the tunnel's one user, and for the salt, the nonce and the rounds of this server side. */
  predicate Bound(conv: ServerSide)
  {
    var t := conv.transcript;
    t == Transcript("vaulty", t.clientNonce, t.clientNonce + conv.own, conv.salt, 4096)
  }

  /** The client has shown that it knows the token, in a transcript that nobody could know before this conversation. */
  predicate Proven(lib: Library, token: string, d: Deed)
  {
    && d.Stepped? && d.after.valid && Bound(d.before)
    && var secret := lib.prepare(token);
    && secret.Some?
    && lib.read(d.data) == ClientFinal(d.before.transcript.nonce, Evidence(secret.value, d.before.transcript))
  }

  ghost predicate SomeProof(lib: Library, token: string, deeds: seq<Deed>)
  {
    exists m :: 0 <= m < |deeds| && Proven(lib, token, deeds[m])
  }

  ghost predicate DeedOk(lib: Library, token: string, before: seq<Deed>, d: Deed)
  {
    && (d.Executed? ==> SomeProof(lib, token, before))
    && (d.AskedHello? ==> d.sent == HELLO)
    && (d.Stepped? ==> !Done(d.before.stage) && d.after == ServerStep(lib, d.before, d.data).next)
  }

  ghost predicate DeedsOk(lib: Library, token: string, deeds: seq<Deed>)
  {
    forall n :: 0 <= n < |deeds| ==> DeedOk(lib, token, deeds[..n], deeds[n])
  }

  /** The conversation belongs to the token and is not complete before it is valid. */
  ghost predicate ServerOk(lib: Library, token: string, s: Server, deeds: seq<Deed>)
  {
    && DeedsOk(lib, token, deeds)
    && (s.conversation.Some? ==> lib.prepare(token) == Some(s.conversation.value.secret))
    && (s.authed || s.awaitingAck ==> SomeProof(lib, token, deeds))
    && (!s.closed && s.conversation.Some? && !s.authed && !s.awaitingAck ==>
          && s.conversation.value.stage in {First, Final} && !s.conversation.value.valid
          && (s.conversation.value.stage == Final ==> Bound(s.conversation.value)))
  }

  lemma OneMoreDeed(lib: Library, token: string, deeds: seq<Deed>, d: Deed)
    requires DeedsOk(lib, token, deeds) && DeedOk(lib, token, deeds, d)
    ensures DeedsOk(lib, token, deeds + [d])
    ensures SomeProof(lib, token, deeds) || Proven(lib, token, d) ==> SomeProof(lib, token, deeds + [d])
  {
    hide DeedOk, Proven;
    var all := deeds + [d];
    forall n | 0 <= n < |all| ensures DeedOk(lib, token, all[..n], all[n]) {
      if n < |deeds| {
        assert all[..n] == deeds[..n] && all[n] == deeds[n];
        assert DeedOk(lib, token, deeds[..n], deeds[n]);
      } else {
        assert all[..n] == deeds;
      }
    }
    if SomeProof(lib, token, deeds) {
      var m :| 0 <= m < |deeds| && Proven(lib, token, deeds[m]);
      assert all[m] == deeds[m];
    }
    assert all[|deeds|] == d;
  }

  lemma ReplyIsOk(lib: Library, token: string, deeds: seq<Deed>, reply: Doc)
    requires DeedsOk(lib, token, deeds)
    ensures DeedsOk(lib, token, deeds + [Replied(reply)])
    ensures SomeProof(lib, token, deeds) ==> SomeProof(lib, token, deeds + [Replied(reply)])
  {
    hide DeedsOk, SomeProof, Proven;
    OneMoreDeed(lib, token, deeds, Replied(reply));
  }

  /** A step that makes the conversation valid shows the token. */
  lemma ValidStepIsProof(lib: Library, token: string, conv: ServerSide, data: bytes)
    requires lib.prepare(token) == Some(conv.secret) && conv.stage in {First, Final} && !conv.valid
    requires conv.stage == Final ==> Bound(conv)
    ensures var r := ServerStep(lib, conv, data);
            && (r.next.valid ==> Proven(lib, token, Stepped(conv, data, r.next)) && r.next.stage == Complete)
            && r.next.secret == conv.secret
            && (r.response.Some? && !r.next.valid ==> r.next.stage == Final && Bound(r.next))
            && DeedOk(lib, token, [], Stepped(conv, data, r.next))
  {
  }

  lemma ContinuedKeeps(lib: Library, token: string, s: Server, data: bytes, w: World, deeds: seq<Deed>)
    requires ServerOk(lib, token, s, deeds) && s.conversation.Some? && !s.closed && !s.authed
    ensures var r := Continued(lib, s, data, w); ServerOk(lib, token, r.next, deeds + r.deeds)
  {
    hide ServerStep, SaslReply, ErrorReply, DeedsOk, SomeProof, Proven;
    var r := Continued(lib, s, data, w);
    var reply := r.deeds[|r.deeds| - 1].reply;
    if s.awaitingAck {
      assert r.deeds == [Replied(reply)];
      ReplyIsOk(lib, token, deeds, reply);
    } else {
      var conv := s.conversation.value;
      var d := Stepped(conv, data, ServerStep(lib, conv, data).next);
      ValidStepIsProof(lib, token, conv, data);
      OneMoreDeed(lib, token, deeds, d);
      assert deeds + r.deeds == deeds + [d] + [Replied(reply)];
      ReplyIsOk(lib, token, deeds + [d], reply);
    }
  }

  lemma StartedKeeps(lib: Library, token: string, s: Server, doc: Doc, w: World, deeds: seq<Deed>)
    requires ServerOk(lib, token, s, deeds) && Started(lib, token, s, doc, w).Some?
    requires !s.authed && !s.closed
    ensures var t := Started(lib, token, s, doc, w).value;
            ServerOk(lib, token, t, deeds) && !t.authed && !t.closed && t.conversation.Some?
  {
    hide SkipOption, DeedsOk, SomeProof;
  }

  lemma SaslKeeps(lib: Library, token: string, s: Server, doc: Doc, w: World, deeds: seq<Deed>)
    requires ServerOk(lib, token, s, deeds) && doc != [] && !s.closed
    ensures var r := ServedSasl(lib, token, s, doc, w); ServerOk(lib, token, r.next, deeds + r.deeds)
  {
    hide ServerOk, SaslRequest, Continued, Started;
    var payload := Get(doc, "payload");
    if !SaslRequest(doc) || s.authed {
      RefusalKeeps(lib, token, s, deeds);
    } else {
      SaslPayload(doc);
      if doc[0].key == "saslStart" {
        if Started(lib, token, s, doc, w).Some? {
          StartedKeeps(lib, token, s, doc, w, deeds);
          ContinuedKeeps(lib, token, Started(lib, token, s, doc, w).value, payload.data, w, deeds);
        } else {
          RefusalKeeps(lib, token, s, deeds);
        }
      } else if s.conversation.None? || Get(doc, "conversationId") != Int32(s.id) {
        RefusalKeeps(lib, token, s, deeds);
      } else {
        ContinuedKeeps(lib, token, s, payload.data, w, deeds);
      }
    }
  }

  lemma RefusalKeeps(lib: Library, token: string, s: Server, deeds: seq<Deed>)
    requires ServerOk(lib, token, s, deeds)
    ensures ServerOk(lib, token, Failing(s, []).next, deeds + Failing(s, []).deeds)
  {
    hide ErrorReply, DeedsOk, SomeProof;
    var reply := Failing(s, []).deeds[0].reply;
    assert Failing(s, []).deeds == [Replied(reply)];
    ReplyIsOk(lib, token, deeds, reply);
  }

  /** Rounds that are not about SASL leave the conversation alone. */
  lemma PlainKeeps(lib: Library, token: string, s: Server, first: seq<Deed>, reply: Doc, closed: bool, deeds: seq<Deed>)
    requires ServerOk(lib, token, s, deeds) && !s.closed
    requires first == [] || first == [AskedHello(HELLO)] || (exists doc :: first == [Executed(doc)] && s.authed)
    ensures ServerOk(lib, token, s.(closed := closed), deeds + (first + [Replied(reply)]))
  {
    hide SomeProof, DeedsOk, Proven;
    assert deeds + (first + [Replied(reply)]) == (deeds + first) + [Replied(reply)];
    if first == [] {
      assert deeds + first == deeds;
    } else {
      assert DeedOk(lib, token, deeds, first[0]);
      OneMoreDeed(lib, token, deeds, first[0]);
      assert [first[0]] == first;
    }
    ReplyIsOk(lib, token, deeds + first, reply);
  }

  lemma HelloKeeps(lib: Library, token: string, s: Server, doc: Doc, w: World, deeds: seq<Deed>)
    requires ServerOk(lib, token, s, deeds) && !s.closed
    ensures var r := ServedHello(s, doc, w); ServerOk(lib, token, r.next, deeds + r.deeds)
  {
    hide HelloRequest, HelloReply, Succeeded, ErrorReply, ServerOk, HELLO;
    var r := ServedHello(s, doc, w);
    var first := r.deeds[..|r.deeds| - 1];
    assert r.deeds == first + [Replied(r.deeds[|r.deeds| - 1].reply)];
    PlainKeeps(lib, token, s, first, r.deeds[|r.deeds| - 1].reply, r.next.closed, deeds);
  }

  lemma CommandKeeps(lib: Library, token: string, s: Server, doc: Doc, w: World, deeds: seq<Deed>)
    requires ServerOk(lib, token, s, deeds) && !s.closed
    ensures var r := ServedCommand(s, doc, w); ServerOk(lib, token, r.next, deeds + r.deeds)
  {
    hide ErrorReply, ServerOk;
    var r := ServedCommand(s, doc, w);
    var first := r.deeds[..|r.deeds| - 1];
    assert r.deeds == first + [Replied(r.deeds[|r.deeds| - 1].reply)];
    PlainKeeps(lib, token, s, first, r.deeds[|r.deeds| - 1].reply, r.next.closed, deeds);
  }

  lemma ServedKeeps(lib: Library, token: string, s: Server, i: Input, deeds: seq<Deed>)
    requires ServerOk(lib, token, s, deeds)
    ensures var r := Served(lib, token, s, i.responseTo, i.doc, i.world);
            ServerOk(lib, token, r.next, deeds + r.deeds)
  {
    hide ServedHello, ServedCommand, StatusRequest, StatusReply, ServedSasl, ErrorReply, ServerOk;
    var r := Served(lib, token, s, i.responseTo, i.doc, i.world);
    assert deeds + [] == deeds;
    if s.closed {
    } else if i.responseTo != 0 || i.doc == [] {
      ClosingKeeps(lib, token, s, deeds);
    } else if IsHello(i.doc[0].key) {
      HelloKeeps(lib, token, s, i.doc, i.world, deeds);
    } else if IsSasl(i.doc[0].key) {
      SaslKeeps(lib, token, s, i.doc, i.world, deeds);
    } else if i.doc[0].key == "connectionStatus" {
      assert r.deeds == [] + [Replied(r.deeds[0].reply)];
      PlainKeeps(lib, token, s, [], r.deeds[0].reply, r.next.closed, deeds);
    } else {
      CommandKeeps(lib, token, s, i.doc, i.world, deeds);
    }
  }

  lemma ClosingKeeps(lib: Library, token: string, s: Server, deeds: seq<Deed>)
    requires ServerOk(lib, token, s, deeds)
    ensures ServerOk(lib, token, s.(closed := true), deeds)
  {
    hide SomeProof, DeedsOk;
  }

  lemma TakenKeeps(lib: Library, token: string, s: Server, i: Input, deeds: seq<Deed>)
    requires ServerOk(lib, token, s, deeds)
    ensures var r := Taken(lib, token, s, i); ServerOk(lib, token, r.next, deeds + r.deeds)
  {
    hide Served, ServerOk;
    assert deeds + [] == deeds;
    ClosingKeeps(lib, token, s, deeds);
    ServedKeeps(lib, token, s, i, deeds);
  }

  lemma OpenedIsOk(lib: Library, token: string, first: Opening)
    ensures ServerOk(lib, token, Opened(token, first).next, Opened(token, first).deeds)
  {
    hide MayDial, BackendReady, HelloReply, ErrorReply, SomeProof, Proven;
    assert DeedsOk(lib, token, []);
    if MayDial(token, first) {
      OneMoreDeed(lib, token, [], Dialed);
      var reply := Opened(token, first).deeds[1].reply;
      assert Opened(token, first).deeds == [] + [Dialed] + [Replied(reply)];
      ReplyIsOk(lib, token, [] + [Dialed], reply);
    }
  }

  lemma {:induction false} AfterRequestsIsOk(lib: Library, token: string, first: Opening, inputs: seq<Input>)
    ensures var r := AfterRequests(lib, token, first, inputs); ServerOk(lib, token, r.next, r.deeds)
    decreases |inputs|
  {
    hide Taken, Opened, ServerOk;
    if inputs == [] {
      OpenedIsOk(lib, token, first);
    } else {
      var last, before := inputs[|inputs| - 1], AfterRequests(lib, token, first, inputs[..|inputs| - 1]);
      AfterRequestsIsOk(lib, token, first, inputs[..|inputs| - 1]);
      TakenKeeps(lib, token, before.next, last, before.deeds);
    }
  }

  /**
   * In every run the backend sees either the proxy's own fixed hello, or a command that reached execute after the
   * client had sent the proof that only the token's holder can make, and only for this very conversation.
   */
  lemma ExecutedOnlyAfterProof(lib: Library, token: string, first: Opening, inputs: seq<Input>, n: nat)
    requires n < |AfterRequests(lib, token, first, inputs).deeds|
    ensures var deeds := AfterRequests(lib, token, first, inputs).deeds;
            && (deeds[n].AskedHello? ==> deeds[n].sent == [Field("hello", Int32(1)), Field("$db", String("admin"))])
            && (deeds[n].Executed? ==> exists m :: 0 <= m < n && Proven(lib, token, deeds[m]))
  {
    hide AfterRequests, Proven;
    AfterRequestsIsOk(lib, token, first, inputs);
    var deeds := AfterRequests(lib, token, first, inputs).deeds;
    assert DeedOk(lib, token, deeds[..n], deeds[n]);
    if deeds[n].Executed? {
      var m :| 0 <= m < n && Proven(lib, token, deeds[..n][m]);
      assert deeds[m] == deeds[..n][m];
    }
  }

  /** The conversation is never stepped after it is complete. */
  lemma NeverSteppedAfterCompletion(lib: Library, token: string, first: Opening, inputs: seq<Input>, n: nat)
    requires n < |AfterRequests(lib, token, first, inputs).deeds|
    requires AfterRequests(lib, token, first, inputs).deeds[n].Stepped?
    ensures !Done(AfterRequests(lib, token, first, inputs).deeds[n].before.stage)
  {
    hide AfterRequests, SomeProof;
    AfterRequestsIsOk(lib, token, first, inputs);
    var deeds := AfterRequests(lib, token, first, inputs).deeds;
    assert DeedOk(lib, token, deeds[..n], deeds[n]);
  }

  lemma SaslReplyFields(s: Server, response: bytes)
    ensures var reply := SaslReply(s, response);
            && Succeeded(reply) && Get(reply, "done") == Bool(s.authed) && Get(reply, "conversationId") == Int32(s.id)
            && Get(reply, "payload") == Binary(0, response)
  {
    var reply := SaslReply(s, response);
    OneIsOne();
    assert Get(reply, "ok") == ONE;
    var r1 := reply[1..];
    var r2 := r1[1..];
    var r3 := r2[1..];
    assert Get(r3, "payload") == Binary(0, response);
    assert Get(r2, "payload") == Get(r3, "payload");
    assert Get(r1, "payload") == Get(r2, "payload");
    assert Get(r2, "done") == Bool(s.authed);
    assert Get(r1, "done") == Get(r2, "done");
    assert Get(r1, "conversationId") == Int32(s.id);
  }

  /** The double 1.0 denotes the integer 1. */
  lemma OneIsOne()
    ensures AuthNumber(ONE) == Some(1)
  {
    hide IntegerOfDouble;
    OneAndZero();
  }

  lemma RefusalFails(code: int32, message: string)
    ensures !Succeeded(ErrorReply(code, message))
  {
    assert Get(ErrorReply(code, message), "ok") == ZERO;
    assert AuthNumber(ZERO) == Some(0) by { hide IntegerOfDouble; OneAndZero(); }
  }

  predicate SaysDone(reply: Doc, s: Server)
  {
    Get(reply, "done") == Bool(s.authed) && Get(reply, "conversationId") == Int32(s.id)
  }

  /** One reply, at the end, that is either the success which says how far the client is, or the fixed refusal. */
  predicate AnswersSasl(r: Round, authed: bool)
  {
    && r.deeds != [] && r.deeds[|r.deeds| - 1].Replied?
    && (forall n :: 0 <= n < |r.deeds| - 1 ==> !r.deeds[n].Replied?)
    && var reply := r.deeds[|r.deeds| - 1].reply;
    && (Succeeded(reply) ==> SaysDone(reply, r.next))
    && (!Succeeded(reply) ==> r.next.closed && r.next.authed == authed &&
                              reply == ErrorReply(18, "MongoDB tunnel authentication failed"))
  }

  lemma ContinuedReply(lib: Library, s: Server, data: bytes, w: World)
    requires s.conversation.Some? && !s.authed
    ensures AnswersSasl(Continued(lib, s, data, w), false)
  {
    hide ServerStep, SaslReply, ErrorReply, Succeeded;
    RefusalFails(18, "MongoDB tunnel authentication failed");
    var r := Continued(lib, s, data, w);
    if r.next.conversation.Some? {
      if s.awaitingAck {
        SaslReplyFields(r.next, []);
      } else if ServerStep(lib, s.conversation.value, data).response.Some? {
        SaslReplyFields(r.next, ServerStep(lib, s.conversation.value, data).response.value);
        SaslReplyIgnoresClosed(r.next, ServerStep(lib, s.conversation.value, data).response.value);
      }
      SaslReplyIgnoresClosed(r.next, []);
    }
  }

  lemma SaslReplyIgnoresClosed(s: Server, response: bytes)
    ensures forall c: bool :: SaslReply(s.(closed := c), response) == SaslReply(s, response)
  {
  }

  /**
   * Every SASL message gets exactly one reply. Either the reply succeeds, and then it says done exactly when the
   * client is authenticated from now on, or it is the fixed refusal and the connection is over.
   */
  lemma SaslRepliesSayDone(lib: Library, token: string, s: Server, doc: Doc, w: World)
    requires !s.closed && doc != [] && IsSasl(doc[0].key)
    ensures AnswersSasl(ServedSasl(lib, token, s, doc, w), s.authed)
  {
    hide SaslRequest, Started, Continued, ErrorReply, SaslReply, Succeeded, SaysDone;
    RefusalFails(18, "MongoDB tunnel authentication failed");
    var data := Get(doc, "payload");
    if SaslRequest(doc) && !s.authed {
      SaslPayload(doc);
      if doc[0].key == "saslStart" {
        if Started(lib, token, s, doc, w).Some? {
          StartedFresh(lib, token, s, doc, w);
          ContinuedReply(lib, Started(lib, token, s, doc, w).value, data.data, w);
        }
      } else if s.conversation.Some? {
        ContinuedReply(lib, s, data.data, w);
      }
    }
  }

  lemma StartedFresh(lib: Library, token: string, s: Server, doc: Doc, w: World)
    requires Started(lib, token, s, doc, w).Some? && !s.authed
    ensures var t := Started(lib, token, s, doc, w).value; t.conversation.Some? && !t.authed
  {
    hide SkipOption;
  }

  predicate NoDial(deeds: seq<Deed>) { forall n :: 0 <= n < |deeds| ==> deeds[n] != Dialed }

  lemma ContinuedNeverDials(lib: Library, s: Server, data: bytes, w: World)
    requires s.conversation.Some?
    ensures NoDial(Continued(lib, s, data, w).deeds)
  {
    hide ServerStep, SaslReply, ErrorReply;
  }

  lemma SaslNeverDials(lib: Library, token: string, s: Server, doc: Doc, w: World)
    requires doc != []
    ensures NoDial(ServedSasl(lib, token, s, doc, w).deeds)
  {
    hide SaslRequest, Started, Continued, ErrorReply;
    if SaslRequest(doc) && !s.authed {
      SaslPayload(doc);
      var data := Get(doc, "payload").data;
      if doc[0].key == "saslStart" {
        if Started(lib, token, s, doc, w).Some? {
          StartedConversation(lib, token, s, doc, w);
          ContinuedNeverDials(lib, Started(lib, token, s, doc, w).value, data, w);
        }
      } else if s.conversation.Some? {
        ContinuedNeverDials(lib, s, data, w);
      }
    }
  }

  lemma TakenNeverDials(lib: Library, token: string, s: Server, i: Input)
    ensures NoDial(Taken(lib, token, s, i).deeds)
    ensures s.closed ==> Taken(lib, token, s, i) == Round(s, [])
  {
    hide ServedSasl, HelloRequest, HelloReply, StatusRequest, StatusReply, ErrorReply, Succeeded;
    if i.doc != [] {
      SaslNeverDials(lib, token, s, i.doc, i.world);
    }
  }

  /**
   * The backend is dialed at most once, before anything else happens, and only for a tunnel with a token whose first
   * message was an acceptable hello. A backend that is not fit, or that refuses the login, is never spoken to again:
   * the client gets the fixed refusal and the connection is over.
   */
  lemma {:induction false} DialedOnceAndFirst(lib: Library, token: string, first: Opening, inputs: seq<Input>)
    ensures var r := AfterRequests(lib, token, first, inputs);
            && (r.deeds == [] <==> !MayDial(token, first))
            && (!MayDial(token, first) ==> r.next.closed)
            && (MayDial(token, first) ==> r.deeds[0] == Dialed && NoDial(r.deeds[1..]))
            && (MayDial(token, first) && !BackendReady(first) ==>
                  r.next.closed && r.deeds == [Dialed, Replied(ErrorReply(6, "MongoDB backend unavailable"))])
    decreases |inputs|
  {
    hide MayDial, BackendReady, HelloReply, ErrorReply, Taken;
    if inputs != [] {
      var last, before := inputs[|inputs| - 1], AfterRequests(lib, token, first, inputs[..|inputs| - 1]);
      DialedOnceAndFirst(lib, token, first, inputs[..|inputs| - 1]);
      TakenNeverDials(lib, token, before.next, last);
      var more := Taken(lib, token, before.next, last).deeds;
      assert before.deeds + [] == before.deeds;
      if MayDial(token, first) {
        assert (before.deeds + more)[1..] == before.deeds[1..] + more;
      }
    }
  }

  /** After the connection is over nothing more happens, whatever is sent. */
  lemma {:induction false} ClosedIsFinal(lib: Library, token: string, first: Opening,
                                         inputs: seq<Input>, more: seq<Input>)
    requires AfterRequests(lib, token, first, inputs).next.closed
    ensures AfterRequests(lib, token, first, inputs + more) == AfterRequests(lib, token, first, inputs)
    decreases |more|
  {
    hide Served, Opened;
    if more == [] {
      assert inputs + more == inputs;
    } else {
      var init := more[..|more| - 1];
      ClosedIsFinal(lib, token, first, inputs, init);
      assert (inputs + more)[..|inputs + more| - 1] == inputs + init;
      var before := AfterRequests(lib, token, first, inputs);
      TakenNeverDials(lib, token, before.next, more[|more| - 1]);
      assert before.deeds + [] == before.deeds;
    }
  }
}
