/** The client side of a tunnel connection: handleMongo, from the first hello through its loop. */
module TunnelServer {
  import opened Values
  import opened PolicyTables
  import opened Policy
  import opened Execute
  import opened Reply
  import opened Scram

  // ------------------------------------------------------------------ request checks

  predicate HandshakeReadPreference(doc: Doc)
  {
    var v := Get(doc, "$readPreference");
    v == Null || (SingleField(v, "mode") && v.fields[0].value.String? && ReadMode(v.fields[0].value.text))
  }

  predicate TimeoutOk(doc: Doc)
  {
    Get(doc, "maxTimeMS") == Null || InRange(Get(doc, "maxTimeMS"), 0, MAX_INT32)
  }

  predicate IsHello(name: string) { name in ["hello", "isMaster", "ismaster"] }

  predicate IsSasl(name: string) { name == "saslStart" || name == "saslContinue" }

  /** mongoHelloRequest. */
  predicate HelloRequest(doc: Doc)
  {
    && doc != [] && IsHello(doc[0].key) && InRange(doc[0].value, 1, 1)
    && Fields(doc, [doc[0].key, "$db", "helloOk", "client", "compression", "saslSupportedMechs",
                    "speculativeAuthenticate", "loadBalanced", "backpressure", "$readPreference", "maxTimeMS", "lsid"])
    && HandshakeReadPreference(doc)
    && (Get(doc, "lsid") == Null || SessionId(Get(doc, "lsid")))
    && TimeoutOk(doc)
    && Get(doc, "backpressure") in {Null, String("2")}
    && Get(doc, "$db") in {Null, String("admin")}
    && Get(doc, "loadBalanced") in {Null, Bool(false)}
  }

  /** mongoHelloReply. */
  function HelloReply(upstream: Doc, request: Doc): Doc
  {
    var primary := Get(upstream, "isWritablePrimary") == Bool(true);
    var minutes := AuthNumber(Get(upstream, "logicalSessionTimeoutMinutes"));
    [Field("ok", ONE), Field("helloOk", Bool(true)),
     Field("isWritablePrimary", Bool(primary)), Field("ismaster", Bool(primary)),
     Field("minWireVersion", Int32(0)), Field("maxWireVersion", Int32(25)),
     Field("maxBsonObjectSize", Int32(16 * 1024 * 1024)), Field("maxMessageSizeBytes", Int32(48_000_000)),
     Field("maxWriteBatchSize", Int32(100000))] +
    (if Get(request, "saslSupportedMechs") != Null
     then [Field("saslSupportedMechs", Array([String("SCRAM-SHA-256")]))] else []) +
    (if Get(upstream, "setName").String? then
       [Field("setName", String("vaulty"))] +
       (if Get(upstream, "secondary").Bool? then [Field("secondary", Get(upstream, "secondary"))] else [])
     else []) +
    (if Get(upstream, "msg") == String("isdbgrid") then [Field("msg", String("isdbgrid"))] else []) +
    (if minutes.Some? && 0 < minutes.value <= 1440
     then [Field("logicalSessionTimeoutMinutes", Int32(minutes.value))] else [])
  }

  function ErrorReply(code: int32, message: string): Doc
  {
    [Field("ok", ZERO), Field("code", Int32(code)), Field("errmsg", String(message))]
  }

  predicate StatusRequest(doc: Doc)
    requires doc != []
  {
    && TimeoutOk(doc)
    && Fields(doc, ["connectionStatus", "showPrivileges", "$db", "lsid", "maxTimeMS", "$readPreference"])
    && HandshakeReadPreference(doc) && InRange(doc[0].value, 1, 1)
    && Get(doc, "$db") == String("admin") && Get(doc, "showPrivileges") in {Null, Bool(false)}
  }

  function StatusReply(authed: bool): Doc
  {
    var users := if authed
                 then [Document([Field("user", String("vaulty")), Field("db", String("admin"))])] else [];
    [Field("ok", ONE),
     Field("authInfo", Document([Field("authenticatedUsers", Array(users)),
                                 Field("authenticatedUserRoles", Array([]))]))]
  }

  function SaslFields(start: bool): seq<string>
  {
    if start then
      ["saslStart", "mechanism", "payload", "autoAuthorize", "options", "$db", "$readPreference", "maxTimeMS"]
    else ["saslContinue", "payload", "conversationId", "$db", "$readPreference", "maxTimeMS"]
  }

  /** What both SASL commands must look like. */
  predicate SaslRequest(doc: Doc)
    requires doc != []
  {
    var payload := Get(doc, "payload");
    && TimeoutOk(doc) && Fields(doc, SaslFields(doc[0].key == "saslStart")) && HandshakeReadPreference(doc)
    && InRange(doc[0].value, 1, 1) && Get(doc, "$db") == String("admin")
    && payload.Binary? && payload.subtype == 0 && |payload.data| <= 16384
  }

  /** The skipEmptyExchange option: None when the options are not acceptable. */
  function SkipOption(doc: Doc, default: bool): Option<bool>
  {
    var options := Get(doc, "options");
    if options == Null then Some(default)
    else if !options.Document? || !Fields(options.fields, ["skipEmptyExchange"]) then None
    else
      var v := Get(options.fields, "skipEmptyExchange");
      if v == Null then Some(default) else if v.Bool? then Some(v.flag) else None
  }

  // ------------------------------------------------------------------------ the state

  datatype Server = Server(authed: bool, awaitingAck: bool, skipEmpty: bool, conversation: Option<ServerSide>,
                           id: int32, closed: bool)

  const FRESH := Server(false, false, false, None, 0, false)

  /** What the world contributes to one round: random draws, and what the backend answers. */
  datatype World = World(salt: Option<bytes>, nonce: string, id: int32, hello: Option<Doc>, executed: Option<Doc>,
                         delivered: bool)

  datatype Deed =
    | Dialed                                           // the backend was dialed and logged in to
    | AskedHello(sent: Doc)                            // the backend was asked who it is
    | Executed(doc: Doc)                               // the command went to execute
    | Stepped(before: ServerSide, data: bytes, after: ServerSide)
    | Replied(reply: Doc)

  datatype Round = Round(next: Server, deeds: seq<Deed>)

  /** The proxy's own hello. */
  const HELLO: Doc := [Field("hello", Int32(1)), Field("$db", String("admin"))]

  function Replying(s: Server, deeds: seq<Deed>, reply: Doc, w: World): Round
  {
    Round(s.(closed := !w.delivered), deeds + [Replied(reply)])
  }

  /** The last reply of a connection. */
  function Closing(s: Server, deeds: seq<Deed>, code: int32, message: string): Round
  {
    Round(s.(closed := true), deeds + [Replied(ErrorReply(code, message))])
  }

  function Failing(s: Server, deeds: seq<Deed>): Round
  {
    Closing(s, deeds, 18, "MongoDB tunnel authentication failed")
  }

  function ServedHello(s: Server, doc: Doc, w: World): Round
  {
    if !HelloRequest(doc) then Replying(s, [], ErrorReply(13, "MongoDB handshake option not supported"), w)
    else if w.hello.None? || !Succeeded(w.hello.value) then
      Closing(s, [AskedHello(HELLO)], 6, "MongoDB backend unavailable")
    else Replying(s, [AskedHello(HELLO)], HelloReply(w.hello.value, doc), w)
  }

  function SaslReply(s: Server, response: bytes): Doc
  {
    [Field("ok", ONE), Field("conversationId", Int32(s.id)), Field("done", Bool(s.authed)),
     Field("payload", Binary(0, response))]
  }

  /** saslStart prepares the conversation; None when it fails. */
  function Started(lib: Library, token: string, s: Server, doc: Doc, w: World): Option<Server>
  {
    var skip := SkipOption(doc, s.skipEmpty);
    if s.conversation.Some? || Get(doc, "mechanism") != String("SCRAM-SHA-256") || skip.None? || w.salt.None?
      || lib.prepare(token).None?
    then None
    else
      Some(s.(skipEmpty := skip.value, id := w.id,
              conversation := Some(FreshServer(lib.prepare(token).value, w.salt.value, w.nonce))))
  }

  /** The common tail of both SASL commands: the acknowledgement, or a step of the conversation. */
  function Continued(lib: Library, s: Server, data: bytes, w: World): Round
    requires s.conversation.Some?
  {
    if s.awaitingAck then
      if data != [] then Failing(s, [])
      else var t := s.(authed := true); Replying(t, [], SaslReply(t, []), w)
    else
      var conv := s.conversation.value;
      var r := ServerStep(lib, conv, data);
      var deeds := [Stepped(conv, data, r.next)];
      var t := s.(conversation := Some(r.next));
      if r.response.None? || (Done(r.next.stage) && !r.next.valid) then Failing(t, deeds)
      else
        var u := if r.next.valid then t.(authed := s.skipEmpty, awaitingAck := !s.skipEmpty) else t;
        Replying(u, deeds, SaslReply(u, r.response.value), w)
  }

  function ServedSasl(lib: Library, token: string, s: Server, doc: Doc, w: World): Round
    requires doc != []
  {
    if !SaslRequest(doc) || s.authed then Failing(s, [])
    else if doc[0].key == "saslStart" then
      var started := Started(lib, token, s, doc, w);
      if started.None? then Failing(s, []) else Continued(lib, started.value, Get(doc, "payload").data, w)
    else if s.conversation.None? || Get(doc, "conversationId") != Int32(s.id) then Failing(s, [])
    else Continued(lib, s, Get(doc, "payload").data, w)
  }

  function ServedCommand(s: Server, doc: Doc, w: World): Round
  {
    if !s.authed then Replying(s, [], ErrorReply(13, "MongoDB tunnel authentication required"), w)
    else if w.executed.None? then Closing(s, [Executed(doc)], 6, "MongoDB backend operation failed")
    else Replying(s, [Executed(doc)], w.executed.value, w)
  }

  /** What the loop does with a request that was read. */
  function Served(lib: Library, token: string, s: Server, responseTo: int32, doc: Doc, w: World): Round
  {
    if s.closed then Round(s, [])
    else if responseTo != 0 || doc == [] then Round(s.(closed := true), [])
    else if IsHello(doc[0].key) then ServedHello(s, doc, w)
    else if IsSasl(doc[0].key) then ServedSasl(lib, token, s, doc, w)
    else if doc[0].key == "connectionStatus" then
      Replying(s, [], if StatusRequest(doc) then StatusReply(s.authed)
                      else ErrorReply(13, "MongoDB identity option not supported"), w)
    else ServedCommand(s, doc, w)
  }

  /** A message that arrives, with its announced size. */
  datatype Input = Input(size: nat, responseTo: int32, doc: Doc, world: World)

  const LOGIN_LIMIT := 0x10_0000

  const MESSAGE_LIMIT := 48_000_000

  /** One round of the loop: a message above the limit is not read, and ends the connection. */
  function Taken(lib: Library, token: string, s: Server, i: Input): Round
  {
    if !s.closed && i.size > (if s.authed then MESSAGE_LIMIT else LOGIN_LIMIT) then Round(s.(closed := true), [])
    else Served(lib, token, s, i.responseTo, i.doc, i.world)
  }

  /** How a connection begins: its first message, and what dialing the backend meets with. */
  datatype Opening = Opening(size: nat, responseTo: int32, doc: Doc,
                             dialed: Option<Doc>, replicaSet: string, loggedIn: bool, delivered: bool)

  /** mongoDial succeeds. */
  predicate BackendReady(first: Opening)
  {
    && first.dialed.Some? && Succeeded(first.dialed.value)
    && var hello := first.dialed.value;
    && var least, most := AuthNumber(Get(hello, "minWireVersion")), AuthNumber(Get(hello, "maxWireVersion"));
    && least.Some? && most.Some? && 0 <= least.value <= 25 && 25 <= most.value
    && (first.replicaSet != "" ==> Get(hello, "setName") == String(first.replicaSet))
    && first.loggedIn
  }

  /** The backend is dialed for a tunnel with a token and a first message that is an acceptable hello. */
  predicate MayDial(token: string, first: Opening)
  {
    token != "" && first.size <= LOGIN_LIMIT && first.responseTo == 0 && HelloRequest(first.doc)
  }

  /** What happens before the loop. */
  function Opened(token: string, first: Opening): Round
  {
    if !MayDial(token, first) then Round(FRESH.(closed := true), [])
    else if !BackendReady(first) then Closing(FRESH, [Dialed], 6, "MongoDB backend unavailable")
    else Round(FRESH.(closed := !first.delivered), [Dialed, Replied(HelloReply(first.dialed.value, first.doc))])
  }

  // ----------------------------------------------------------------- the code's own form

  /** The variables of the loop, updated in place. */
  class Connection {
    const lib: Library
    const token: string
    var authed: bool
    var awaitingAck: bool
    var skipEmpty: bool
    var conversation: Option<ServerSide>
    var id: int32
    var closed: bool
    var deeds: seq<Deed>

    constructor (lib: Library, token: string)
      ensures this.lib == lib && this.token == token && State() == FRESH && deeds == []
    {
      this.lib, this.token := lib, token;
      authed, awaitingAck, skipEmpty, conversation, id, closed := false, false, false, None, 0, false;
      deeds := [];
    }

    function State(): Server
      reads this
    {
      Server(authed, awaitingAck, skipEmpty, conversation, id, closed)
    }

    method Send(reply: Doc, delivered: bool)
      modifies this
      ensures State() == old(State()).(closed := !delivered) && deeds == old(deeds) + [Replied(reply)]
    {
      deeds := deeds + [Replied(reply)];
      closed := !delivered;
    }

    /** The refusal that ends the connection. */
    method Refuse()
      modifies this
      ensures State() == Failing(old(State()), []).next && deeds == old(deeds) + Failing(old(State()), []).deeds
    {
      Send(ErrorReply(18, "MongoDB tunnel authentication failed"), false);
    }

    method Start(doc: Doc, w: World) returns (ok: bool)
      modifies this
      ensures ok == Started(lib, token, old(State()), doc, w).Some? && deeds == old(deeds)
      ensures State() == if ok then Started(lib, token, old(State()), doc, w).value else old(State())
    {
      hide SkipOption;
      if conversation.Some? || Get(doc, "mechanism") != String("SCRAM-SHA-256") {
        return false;
      }
      var skip := SkipOption(doc, skipEmpty);
      var prepared := lib.prepare(token);
      if skip.None? || w.salt.None? || prepared.None? {
        return false;
      }
      skipEmpty := skip.value;
      conversation := Some(FreshServer(prepared.value, w.salt.value, w.nonce));
      id := w.id;
      return true;
    }

    method Continue(data: bytes, w: World)
      requires conversation.Some?
      modifies this
      ensures State() == Continued(lib, old(State()), data, w).next
      ensures deeds == old(deeds) + Continued(lib, old(State()), data, w).deeds
    {
      hide ServerStep, SaslReply;
      var response := [];
      if awaitingAck {
        if data != [] {
          Refuse();
          return;
        }
        authed := true;
      } else {
        var conv := conversation.value;
        var r := ServerStep(lib, conv, data);
        conversation := Some(r.next);
        deeds := deeds + [Stepped(conv, data, r.next)];
        if r.response.None? || (Done(r.next.stage) && !r.next.valid) {
          Refuse();
          return;
        }
        response := r.response.value;
        if r.next.valid {
          authed, awaitingAck := skipEmpty, !skipEmpty;
        }
      }
      Send(SaslReply(State(), response), w.delivered);
    }

    method Sasl(doc: Doc, w: World)
      requires doc != [] && IsSasl(doc[0].key)
      modifies this
      ensures State() == ServedSasl(lib, token, old(State()), doc, w).next
      ensures deeds == old(deeds) + ServedSasl(lib, token, old(State()), doc, w).deeds
    {
      hide SaslRequest, Continued, Failing, Started;
      if authed || !SaslRequest(doc) {
        Refuse();
        return;
      }
      SaslPayload(doc);
      if doc[0].key == "saslStart" {
        var ok := Start(doc, w);
        if !ok {
          Refuse();
          return;
        }
        StartedConversation(lib, token, old(State()), doc, w);
      } else if conversation.None? || Get(doc, "conversationId") != Int32(id) {
        Refuse();
        return;
      }
      Continue(Get(doc, "payload").data, w);
    }

    /** The code before the loop. */
    method Open(first: Opening)
      requires State() == FRESH && deeds == []
      modifies this
      ensures State() == Opened(token, first).next && deeds == Opened(token, first).deeds
    {
      hide HelloRequest, HelloReply, BackendReady;
      if token == "" {
        closed := true;
        return;
      }
      if first.size > LOGIN_LIMIT || first.responseTo != 0 || !HelloRequest(first.doc) {
        closed := true;
        return;
      }
      deeds := [Dialed];
      var ready := Dial(first);
      if !ready {
        Send(ErrorReply(6, "MongoDB backend unavailable"), false);
        return;
      }
      DialedHello(first);
      Send(HelloReply(first.dialed.value, first.doc), first.delivered);
    }

    /** mongoDial. */
    method Dial(first: Opening) returns (ready: bool)
      ensures ready == BackendReady(first)
    {
      hide Succeeded, AuthNumber, Get;
      if first.dialed.None? || !Succeeded(first.dialed.value) {
        return false;
      }
      var hello := first.dialed.value;
      var least, most := AuthNumber(Get(hello, "minWireVersion")), AuthNumber(Get(hello, "maxWireVersion"));
      if least.None? || most.None? || least.value < 0 || least.value > 25 || most.value < 25 {
        return false;
      }
      if first.replicaSet != "" && Get(hello, "setName") != String(first.replicaSet) {
        return false;
      }
      return first.loggedIn;
    }

    /** One round of the loop. */
    method Serve(i: Input)
      modifies this
      ensures var r := Taken(lib, token, old(State()), i);
              State() == r.next && deeds == old(deeds) + r.deeds
    {
      hide Served;
      if closed {
        ClosedServes(lib, token, State(), i);
        return;
      }
      var limit := MESSAGE_LIMIT;
      if !authed {
        limit := LOGIN_LIMIT;
      }
      if i.size > limit {
        closed := true;
        return;
      }
      Dispatch(i.responseTo, i.doc, i.world);
    }

    method Dispatch(responseTo: int32, doc: Doc, w: World)
      modifies this
      ensures var r := Served(lib, token, old(State()), responseTo, doc, w);
              State() == r.next && deeds == old(deeds) + r.deeds
    {
      hide HelloRequest, HelloReply, StatusRequest, StatusReply, ServedSasl, Succeeded;
      if closed {
        return;
      }
      if responseTo != 0 || doc == [] {
        closed := true;
        return;
      }
      var command := doc[0].key;
      if IsHello(command) {
        if !HelloRequest(doc) {
          Send(ErrorReply(13, "MongoDB handshake option not supported"), w.delivered);
          return;
        }
        deeds := deeds + [AskedHello(HELLO)];
        if w.hello.None? || !Succeeded(w.hello.value) {
          Send(ErrorReply(6, "MongoDB backend unavailable"), false);
          return;
        }
        Send(HelloReply(w.hello.value, doc), w.delivered);
      } else if IsSasl(command) {
        Sasl(doc, w);
      } else if command == "connectionStatus" {
        Send(if StatusRequest(doc) then StatusReply(authed)
             else ErrorReply(13, "MongoDB identity option not supported"), w.delivered);
      } else if !authed {
        Send(ErrorReply(13, "MongoDB tunnel authentication required"), w.delivered);
      } else {
        deeds := deeds + [Executed(doc)];
        if w.executed.None? {
          Send(ErrorReply(6, "MongoDB backend operation failed"), false);
          return;
        }
        Send(w.executed.value, w.delivered);
      }
    }
  }

  lemma ClosedServes(lib: Library, token: string, s: Server, i: Input)
    requires s.closed
    ensures Taken(lib, token, s, i) == Round(s, [])
  {
  }

  lemma DialedHello(first: Opening)
    requires BackendReady(first)
    ensures first.dialed.Some?
  {
  }

  lemma StartedConversation(lib: Library, token: string, s: Server, doc: Doc, w: World)
    requires Started(lib, token, s, doc, w).Some?
    ensures Started(lib, token, s, doc, w).value.conversation.Some?
  {
    hide SkipOption;
  }

  lemma SaslPayload(doc: Doc)
    requires doc != [] && SaslRequest(doc)
    ensures Get(doc, "payload").Binary? && Get(doc, "payload").subtype == 0
    ensures |Get(doc, "payload").data| <= 16384
  {
    hide Fields, HandshakeReadPreference, TimeoutOk;
  }
}
