/** What a client may ask before it is let in, in words, and what it is told, field by field. */
module Greeting {
  import opened Values
  import opened Reply
  import opened ReplyContent
  import opened Execute
  import opened PolicyTables
  import opened Policy
  import opened WhitelistTheorems
  import opened TunnelServer
  import opened TunnelServerRuns
  import opened Scram
  import W = Whitelist

  lemma KeptLookup(name: string, v: Value, keep: bool, rest: Doc, key: string)
    ensures Get(Kept(name, v, keep) + rest, key) == if keep && key == name then v else Get(rest, key)
  {
    if keep {
      GetOfCons(Field(name, v), rest, key);
    } else {
      assert [] + rest == rest;
    }
  }

  /** The fields that are there for some clients or backends only. */
  function SomeTold(upstream: Doc, request: Doc, key: string): Value
  {
    var minutes := AuthNumber(Get(upstream, "logicalSessionTimeoutMinutes"));
    if key == "saslSupportedMechs" then
      if Get(request, "saslSupportedMechs") != Null then Array([String("SCRAM-SHA-256")]) else Null
    else if key == "setName" then if Get(upstream, "setName").String? then String("vaulty") else Null
    else if key == "secondary" then
      if Get(upstream, "setName").String? && Get(upstream, "secondary").Bool? then Get(upstream, "secondary") else Null
    else if key == "msg" then if Get(upstream, "msg") == String("isdbgrid") then String("isdbgrid") else Null
    else if key == "logicalSessionTimeoutMinutes" then
      if minutes.Some? && 1 <= minutes.value <= 1440 then Int32(minutes.value) else Null
    else Null
  }

  /** Every field of the answer, in words; a key that is not told is absent. */
  function Told(upstream: Doc, request: Doc, key: string): Value
  {
    if key == "ok" then Double(0x3FF0_0000_0000_0000)
    else if key == "helloOk" then Bool(true)
    else if key == "isWritablePrimary" then Bool(Get(upstream, "isWritablePrimary") == Bool(true))
    else if key == "ismaster" then Bool(Get(upstream, "isWritablePrimary") == Bool(true))
    else if key == "minWireVersion" then Int32(0)
    else if key == "maxWireVersion" then Int32(25)
    else if key == "maxBsonObjectSize" then Int32(16_777_216)
    else if key == "maxMessageSizeBytes" then Int32(48_000_000)
    else if key == "maxWriteBatchSize" then Int32(100_000)
    else SomeTold(upstream, request, key)
  }

  function SomeFields(upstream: Doc, request: Doc): Doc
  {
    var minutes := AuthNumber(Get(upstream, "logicalSessionTimeoutMinutes"));
    var named := Get(upstream, "setName").String?;
    var inRange := minutes.Some? && 0 < minutes.value <= 1440;
    Kept("saslSupportedMechs", Array([String("SCRAM-SHA-256")]), Get(request, "saslSupportedMechs") != Null) +
    (Kept("setName", String("vaulty"), named) +
     (Kept("secondary", Get(upstream, "secondary"), named && Get(upstream, "secondary").Bool?) +
      (Kept("msg", String("isdbgrid"), Get(upstream, "msg") == String("isdbgrid")) +
       (Kept("logicalSessionTimeoutMinutes", Int32(if inRange then minutes.value else 0), inRange) + []))))
  }

  lemma SomeLookup(upstream: Doc, request: Doc, key: string)
    ensures Get(SomeFields(upstream, request), key) == SomeTold(upstream, request, key)
  {
    hide Kept, AuthNumber;
    var minutes := AuthNumber(Get(upstream, "logicalSessionTimeoutMinutes"));
    var named := Get(upstream, "setName").String?;
    var inRange := minutes.Some? && 0 < minutes.value <= 1440;
    var e := Kept("logicalSessionTimeoutMinutes", Int32(if inRange then minutes.value else 0), inRange) + [];
    var d := Kept("msg", String("isdbgrid"), Get(upstream, "msg") == String("isdbgrid")) + e;
    var c := Kept("secondary", Get(upstream, "secondary"), named && Get(upstream, "secondary").Bool?) + d;
    var b := Kept("setName", String("vaulty"), named) + c;
    KeptLookup("logicalSessionTimeoutMinutes", Int32(if inRange then minutes.value else 0), inRange, [], key);
    KeptLookup("msg", String("isdbgrid"), Get(upstream, "msg") == String("isdbgrid"), e, key);
    KeptLookup("secondary", Get(upstream, "secondary"), named && Get(upstream, "secondary").Bool?, d, key);
    KeptLookup("setName", String("vaulty"), named, c, key);
    KeptLookup("saslSupportedMechs", Array([String("SCRAM-SHA-256")]), Get(request, "saslSupportedMechs") != Null, b,
               key);
    assert |"saslSupportedMechs"| == 18 && |"setName"| == 7 && |"secondary"| == 9 && |"msg"| == 3;
    assert |"logicalSessionTimeoutMinutes"| == 28;
    hide Get;
  }

  function Fixed(primary: bool): Doc
  {
    [Field("ok", ONE), Field("helloOk", Bool(true)), Field("isWritablePrimary", Bool(primary)),
     Field("ismaster", Bool(primary)), Field("minWireVersion", Int32(0)), Field("maxWireVersion", Int32(25)),
     Field("maxBsonObjectSize", Int32(16 * 1024 * 1024)), Field("maxMessageSizeBytes", Int32(48_000_000)),
     Field("maxWriteBatchSize", Int32(100000))]
  }

  lemma InOrder(fixed: Doc, a: Doc, b: Doc, c: Doc, d: Doc, e: Doc)
    ensures fixed + a + (b + c) + d + e == fixed + (a + (b + (c + (d + (e + [])))))
  {
  }

  lemma FixedIs(upstream: Doc)
    ensures var primary := Get(upstream, "isWritablePrimary") == Bool(true);
            Fixed(primary) ==
            [Field("ok", ONE), Field("helloOk", Bool(true)), Field("isWritablePrimary", Bool(primary)),
             Field("ismaster", Bool(primary)), Field("minWireVersion", Int32(0)), Field("maxWireVersion", Int32(25)),
             Field("maxBsonObjectSize", Int32(16 * 1024 * 1024)), Field("maxMessageSizeBytes", Int32(48_000_000)),
             Field("maxWriteBatchSize", Int32(100000))]
  {
  }

  lemma HelloInParts(upstream: Doc, request: Doc)
    ensures HelloReply(upstream, request) ==
            Fixed(Get(upstream, "isWritablePrimary") == Bool(true)) + SomeFields(upstream, request)
  {
    hide Get, AuthNumber, Fixed;
    var minutes := AuthNumber(Get(upstream, "logicalSessionTimeoutMinutes"));
    var named := Get(upstream, "setName").String?;
    var inRange := minutes.Some? && 0 < minutes.value <= 1440;
    var fixed := Fixed(Get(upstream, "isWritablePrimary") == Bool(true));
    var a := Kept("saslSupportedMechs", Array([String("SCRAM-SHA-256")]), Get(request, "saslSupportedMechs") != Null);
    var b := Kept("setName", String("vaulty"), named);
    var c := Kept("secondary", Get(upstream, "secondary"), named && Get(upstream, "secondary").Bool?);
    var d := Kept("msg", String("isdbgrid"), Get(upstream, "msg") == String("isdbgrid"));
    var e := Kept("logicalSessionTimeoutMinutes", Int32(if inRange then minutes.value else 0), inRange);
    InOrder(fixed, a, b, c, d, e);
    assert b + c == if named then [Field("setName", String("vaulty"))] + c else [];
    assert HelloReply(upstream, request) == fixed + a + (b + c) + d + e by { FixedIs(upstream); }
  }

  lemma LookupFrom(d: Doc, i: nat, key: string)
    requires i < |d|
    ensures Get(d[i..], key) == if d[i].key == key then d[i].value else Get(d[i + 1..], key)
  {
    assert d[i..][1..] == d[i + 1..] && d[i..][0] == d[i];
  }

  /** Looking up in the front of a document, field by field. */
  lemma FrontLookup(d: Doc, key: string)
    requires |d| >= 9
    ensures Get(d, key) ==
            if d[0].key == key then d[0].value
            else if d[1].key == key then d[1].value
            else if d[2].key == key then d[2].value
            else if d[3].key == key then d[3].value
            else if d[4].key == key then d[4].value
            else if d[5].key == key then d[5].value
            else if d[6].key == key then d[6].value
            else if d[7].key == key then d[7].value
            else if d[8].key == key then d[8].value
            else Get(d[9..], key)
  {
    hide Get;
    assert d[0..] == d;
    LookupFrom(d, 0, key);
    LookupFrom(d, 1, key);
    LookupFrom(d, 2, key);
    LookupFrom(d, 3, key);
    LookupFrom(d, 4, key);
    LookupFrom(d, 5, key);
    LookupFrom(d, 6, key);
    LookupFrom(d, 7, key);
    LookupFrom(d, 8, key);
  }

  lemma FixedLookup(primary: bool, rest: Doc, key: string)
    ensures Get(Fixed(primary) + rest, key) ==
            if key == "ok" then ONE
            else if key == "helloOk" then Bool(true)
            else if key == "isWritablePrimary" then Bool(primary)
            else if key == "ismaster" then Bool(primary)
            else if key == "minWireVersion" then Int32(0)
            else if key == "maxWireVersion" then Int32(25)
            else if key == "maxBsonObjectSize" then Int32(16_777_216)
            else if key == "maxMessageSizeBytes" then Int32(48_000_000)
            else if key == "maxWriteBatchSize" then Int32(100_000)
            else Get(rest, key)
  {
    hide Get;
    var fixed := Fixed(primary);
    var d := fixed + rest;
    assert forall i :: 0 <= i < 9 ==> d[i] == fixed[i];
    assert d[9..] == rest;
    FrontLookup(d, key);
  }

  /** Every lookup in the answer to a hello. */
  lemma HelloTells(upstream: Doc, request: Doc, key: string)
    ensures Get(HelloReply(upstream, request), key) == Told(upstream, request, key)
  {
    hide HelloReply, SomeFields, SomeTold, Fixed, Get;
    HelloInParts(upstream, request);
    FixedLookup(Get(upstream, "isWritablePrimary") == Bool(true), SomeFields(upstream, request), key);
    SomeLookup(upstream, request, key);
  }

  // ---------------------------------------------------------------- who gets an answer

  /** A hello that may be the first message: known fields, each with a value that the tunnel supports. */
  predicate Polite(doc: Doc)
  {
    && doc != [] && doc[0].key in ["hello", "isMaster", "ismaster"] && W.Between(doc[0].value, 1, 1)
    && W.OnlyKeys(doc, [doc[0].key, "$db", "helloOk", "client", "compression", "saslSupportedMechs",
                        "speculativeAuthenticate", "loadBalanced", "backpressure", "$readPreference", "maxTimeMS",
                        "lsid"])
    && (Get(doc, "$readPreference") == Null || W.ReadPreferenceRule(Get(doc, "$readPreference")))
    && (Get(doc, "lsid") == Null || W.Lsid(Get(doc, "lsid")))
    && (Get(doc, "maxTimeMS") == Null || W.Between(Get(doc, "maxTimeMS"), 0, 2147483647))
    && Get(doc, "backpressure") in {Null, String("2")} && Get(doc, "$db") in {Null, String("admin")}
    && Get(doc, "loadBalanced") in {Null, Bool(false)}
  }

  lemma HellosAgree(doc: Doc)
    ensures HelloRequest(doc) <==> Polite(doc)
  {
    hide Get, IntOf, SessionId, W.Lsid, ReadMode, W.ReadPreferenceRule;
    ReadModesAgree(Get(doc, "$readPreference"));
    ShapesAgree(Get(doc, "lsid"));
  }

  /** A backend that can be used: it answers with success, speaks wire version 25, and is of the named replica set. */
  predicate Usable(first: Opening)
  {
    && first.dialed.Some? && first.loggedIn
    && AuthNumber(Get(first.dialed.value, "ok")) == Some(1)
    && var least := AuthNumber(Get(first.dialed.value, "minWireVersion"));
    && var most := AuthNumber(Get(first.dialed.value, "maxWireVersion"));
    && least.Some? && most.Some? && 0 <= least.value <= 25 <= most.value
    && (first.replicaSet == "" || Get(first.dialed.value, "setName") == String(first.replicaSet))
  }

  /**
   * How a connection begins: the backend is dialed exactly for a tunnel with a token whose client opens with an
   * acceptable hello of at most a mebibyte; the client goes on exactly when that backend is usable and it got the
   * answer.
   */
  lemma HowItBegins(lib: Library, token: string, first: Opening)
    ensures var r := AfterRequests(lib, token, first, []);
            && (r.deeds != [] <==> token != "" && first.size <= 1_048_576 && first.responseTo == 0 && Polite(first.doc))
            && (!r.next.closed <==> r.deeds != [] && Usable(first) && first.delivered)
  {
    hide HelloRequest, Polite, HelloReply, ErrorReply, Get, AuthNumber;
    HellosAgree(first.doc);
  }

  /** A message is served exactly within the limits: a mebibyte before the login, 48,000,000 octets after it. */
  lemma TooLargeEnds(lib: Library, token: string, s: Server, i: Input)
    requires !s.closed
    ensures Taken(lib, token, s, i) ==
            if i.size > (if s.authed then 48_000_000 else 1_048_576) then Round(s.(closed := true), [])
            else Served(lib, token, s, i.responseTo, i.doc, i.world)
  {
  }

  // ------------------------------------------------------------------ how it logs in

  /** What both SASL commands share. */
  predicate SaslWords(doc: Doc)
    requires doc != []
  {
    && W.OnlyKeys(doc, if doc[0].key == "saslStart" then
                         ["saslStart", "mechanism", "payload", "autoAuthorize", "options", "$db", "$readPreference",
                          "maxTimeMS"]
                       else ["saslContinue", "payload", "conversationId", "$db", "$readPreference", "maxTimeMS"])
    && W.Between(doc[0].value, 1, 1) && Get(doc, "$db") == String("admin")
    && Get(doc, "payload").Binary? && Get(doc, "payload").subtype == 0 && |Get(doc, "payload").data| <= 16_384
    && (Get(doc, "$readPreference") == Null || W.ReadPreferenceRule(Get(doc, "$readPreference")))
    && (Get(doc, "maxTimeMS") == Null || W.Between(Get(doc, "maxTimeMS"), 0, 2147483647))
  }

  predicate OptionWords(options: Value)
  {
    || options == Null
    || (W.Object(options, ["skipEmptyExchange"]) &&
        (Get(options.fields, "skipEmptyExchange") == Null || Get(options.fields, "skipEmptyExchange").Bool?))
  }

  lemma SaslAgrees(doc: Doc)
    requires doc != []
    ensures SaslRequest(doc) <==> SaslWords(doc)
  {
    hide Get, IntOf, ReadMode, W.ReadPreferenceRule;
    ReadModesAgree(Get(doc, "$readPreference"));
  }

  /** The conversation makes a step: the first one on a saslStart for the one mechanism, the others by its number. */
  predicate Steps(lib: Library, token: string, s: Server, doc: Doc, w: World)
    requires doc != []
  {
    && SaslWords(doc) && !s.authed && !s.awaitingAck
    && if doc[0].key == "saslStart" then
         && s.conversation.None? && Get(doc, "mechanism") == String("SCRAM-SHA-256")
         && OptionWords(Get(doc, "options")) && w.salt.Some? && lib.prepare(token).Some?
       else s.conversation.Some? && Get(doc, "conversationId") == Int32(s.id)
  }

  lemma WhenSaslSteps(lib: Library, token: string, s: Server, doc: Doc, w: World)
    requires doc != []
    ensures ServedSasl(lib, token, s, doc, w).deeds != [] && ServedSasl(lib, token, s, doc, w).deeds[0].Stepped? <==>
            Steps(lib, token, s, doc, w)
  {
    hide SaslRequest, SaslWords, ServerStep, SaslReply, ErrorReply, Get;
    SaslAgrees(doc);
  }

  /** The question who is logged in, in the form that is answered. */
  predicate StatusWords(doc: Doc)
    requires doc != []
  {
    && W.OnlyKeys(doc, ["connectionStatus", "showPrivileges", "$db", "lsid", "maxTimeMS", "$readPreference"])
    && W.Between(doc[0].value, 1, 1) && Get(doc, "$db") == String("admin")
    && Get(doc, "showPrivileges") in {Null, Bool(false)}
    && (Get(doc, "$readPreference") == Null || W.ReadPreferenceRule(Get(doc, "$readPreference")))
    && (Get(doc, "maxTimeMS") == Null || W.Between(Get(doc, "maxTimeMS"), 0, 2147483647))
  }

  /** The answer names the tunnel's one user exactly when the client is logged in, and never a role. */
  lemma StatusTells(lib: Library, token: string, s: Server, doc: Doc, w: World)
    requires !s.closed && doc != [] && doc[0].key == "connectionStatus"
    ensures var r := Served(lib, token, s, 0, doc, w);
            var users := if s.authed then [Document([Field("user", String("vaulty")), Field("db", String("admin"))])]
                         else [];
            r == Round(s.(closed := !w.delivered), [Replied(
              if StatusWords(doc) then
                [Field("ok", Double(0x3FF0_0000_0000_0000)),
                 Field("authInfo", Document([Field("authenticatedUsers", Array(users)),
                                             Field("authenticatedUserRoles", Array([]))]))]
              else [Field("ok", Double(0)), Field("code", Int32(13)),
                    Field("errmsg", String("MongoDB identity option not supported"))])])
  {
    hide ServedHello, ServedSasl, ServedCommand, Get, IntOf, ReadMode, W.ReadPreferenceRule;
    ReadModesAgree(Get(doc, "$readPreference"));
    assert |"connectionStatus"| == 16 && |"saslContinue"| == 12 && |"saslStart"| == 9 && |"isMaster"| == 8;
    assert |"hello"| == 5 && |"ismaster"| == 8;
  }
}
