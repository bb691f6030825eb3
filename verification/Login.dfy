/** The proxy's own login to its backend, and what happens when that backend is another tunnel. */
module Login {
  import opened Values
  import opened Backends
  import opened Execute
  import opened Scram
  import opened TunnelServer

  // -------------------------------------------------------------- choosing a mechanism

  const SHA256 := "SCRAM-SHA-256"
  const SHA1 := "SCRAM-SHA-1"

  predicate AllText(items: seq<Value>)
  {
    forall i :: 0 <= i < |items| ==> items[i].String?
  }

  predicate Offers(items: seq<Value>, name: string) { String(name) in items }

  /**
   * The mechanism: the configured one; else the best the backend offers for the user, SHA-256 before SHA-1 in
   * whatever order they are listed; SHA-1 when it lists none. None when the list is malformed.
   */
  method ChooseMechanism(configured: string, hello: Doc) returns (mechanism: Option<string>)
    ensures configured != "" ==> mechanism == Some(configured)
    ensures configured == "" ==>
              var offered := Get(hello, "saslSupportedMechs");
              if offered == Null then mechanism == Some(SHA1)
              else if !offered.Array? || !AllText(offered.items) then mechanism == None
              else mechanism == Some(if Offers(offered.items, SHA256) then SHA256
                                     else if Offers(offered.items, SHA1) then SHA1 else "")
  {
    if configured != "" {
      return Some(configured);
    }
    var offered := Get(hello, "saslSupportedMechs");
    if offered == Null {
      return Some(SHA1);
    }
    if !offered.Array? {
      return None;
    }
    var items := offered.items;
    var best := "";
    for k := 0 to |items|
      invariant AllText(items[..k])
      invariant best == if Offers(items[..k], SHA256) then SHA256
                        else if Offers(items[..k], SHA1) then SHA1 else ""
    {
      assert items[..k + 1] == items[..k] + [items[k]];
      if !items[k].String? {
        return None;
      }
      if items[k].text == SHA256 {
        best := SHA256;
      } else if items[k].text == SHA1 && best == "" {
        best := SHA1;
      }
    }
    assert items[..|items|] == items;
    return Some(best);
  }

  // ------------------------------------------------------------------ the client's loop

  datatype Status = Trying | LoggedIn | GaveUp

  datatype Attempt = Attempt(status: Status, conv: ClientSide, request: Doc, round: nat, id: int32)

  function StartRequest(mechanism: string, payload: bytes, source: string): Doc
  {
    [Field("saslStart", Int32(1)), Field("mechanism", String(mechanism)), Field("payload", Binary(0, payload)),
     Field("autoAuthorize", Int32(1)), Field("$db", String(source))]
  }

  function ContinueRequest(id: int32, payload: bytes, source: string): Doc
  {
    [Field("saslContinue", Int32(1)), Field("conversationId", Int32(id)), Field("payload", Binary(0, payload)),
     Field("$db", String(source))]
  }

  /** The attempt before its first request; the password is the prepared one. */
  function Begun(lib: Library, user: string, secret: string, own: string, mechanism: string, source: string): Attempt
  {
    var r := ClientStep(lib, FreshClient(user, secret, own), []);
    Attempt(Trying, r.next, StartRequest(mechanism, r.response.value, source), 0, 0)
  }

  /** A well-formed successful reply: its conversation, whether it says done, and its payload. */
  datatype Parsed = Parsed(id: int32, done: bool, data: bytes)

  function ParseReply(answer: Option<Doc>): Option<Parsed>
  {
    if answer.None? || !Succeeded(answer.value) then None
    else
      var reply := answer.value;
      var id, done, payload := Get(reply, "conversationId"), Get(reply, "done"), Get(reply, "payload");
      if id.Int32? && done.Bool? && payload.Binary? && payload.subtype == 0 && |payload.data| <= 0x10_0000 then
        Some(Parsed(id.small, done.flag, payload.data))
      else None
  }

  /** An answer counts, in words: success, a 32-bit number, a flag, and at most a mebibyte of generic binary. */
  lemma AnswersInWords(answer: Option<Doc>, id: int32, done: bool, data: bytes)
    ensures ParseReply(answer) == Some(Parsed(id, done, data)) <==>
            && answer.Some? && AuthNumber(Get(answer.value, "ok")) == Some(1)
            && Get(answer.value, "conversationId") == Int32(id) && Get(answer.value, "done") == Bool(done)
            && Get(answer.value, "payload") == Binary(0, data) && |data| <= 1_048_576
  {
    hide AuthNumber, Get;
  }

  /** One round of the loop, given the answer to its request. */
  function Advanced(lib: Library, a: Attempt, source: string, answer: Option<Doc>): Attempt
  {
    var p := ParseReply(answer);
    var fail := a.(status := GaveUp);
    if a.status != Trying then a
    else if p.None? || (a.round > 0 && p.value.id != a.id) then fail
    else if Done(a.conv.stage) && (!p.value.done || p.value.data != [] || !a.conv.valid) then fail
    else
      var r := if Done(a.conv.stage) then Reaction(a.conv, Some([])) else ClientStep(lib, a.conv, p.value.data);
      if r.response.None? then fail
      else if p.value.done then
        a.(conv := r.next, status := if Done(r.next.stage) && r.next.valid then LoggedIn else GaveUp)
      else
        Attempt(if a.round == 2 then GaveUp else Trying, r.next,
                ContinueRequest(p.value.id, r.response.value, source), a.round + 1, p.value.id)
  }

  function AfterAnswers(lib: Library, a: Attempt, source: string, answers: seq<Option<Doc>>): Attempt
    decreases |answers|
  {
    if answers == [] then a
    else Advanced(lib, AfterAnswers(lib, a, source, answers[..|answers| - 1]), source, answers[|answers| - 1])
  }

  lemma OneMoreAnswer(lib: Library, a: Attempt, source: string, answers: seq<Option<Doc>>, answer: Option<Doc>)
    ensures AfterAnswers(lib, a, source, answers + [answer]) ==
            Advanced(lib, AfterAnswers(lib, a, source, answers), source, answer)
  {
    hide Advanced;
    assert (answers + [answer])[..|answers|] == answers;
  }

  /** authenticate, from the chosen mechanism and prepared password on: at most three exchanges. */
  method Authenticate(lib: Library, backend: Backend, user: string, secret: string, own: string, mechanism: string,
                      source: string)
    returns (ok: bool, ghost answers: seq<Option<Doc>>)
    modifies backend
    ensures |answers| <= 3 && |backend.sent| == |old(backend.sent)| + |answers|
    ensures AfterAnswers(lib, Begun(lib, user, secret, own, mechanism, source), source, answers).status ==
            if ok then LoggedIn else GaveUp
    ensures forall k :: 0 <= k < |answers| ==>
              backend.sent[|old(backend.sent)| + k] ==
              AfterAnswers(lib, Begun(lib, user, secret, own, mechanism, source), source, answers[..k]).request
  {
    hide AfterAnswers, ClientStep, Succeeded, ContinueRequest, StartRequest;
    ghost var start := Begun(lib, user, secret, own, mechanism, source);
    NoAnswerYet(lib, start, source);
    answers := [];
    BegunResponds(lib, user, secret, own);
    var first := ClientStep(lib, FreshClient(user, secret, own), []);
    var conv := first.next;
    var request := StartRequest(mechanism, first.response.value, source);
    var id: int32 := 0;
    for step := 0 to 3
      invariant |answers| == step && |backend.sent| == |old(backend.sent)| + step
      invariant forall k :: 0 <= k < step ==>
                  backend.sent[|old(backend.sent)| + k] == AfterAnswers(lib, start, source, answers[..k]).request
      invariant AfterAnswers(lib, start, source, answers) ==
                Attempt(if step == 3 then GaveUp else Trying, conv, request, step, id)
    {
      ghost var at := AfterAnswers(lib, start, source, answers);
      var answer := backend.Command(request);
      OneMoreAnswer(lib, start, source, answers, answer);
      ghost var before := answers;
      answers := answers + [answer];
      assert answers[..step] == before;
      assert forall k :: 0 <= k < step ==> answers[..k] == before[..k];
      var p := ParseReply(answer);
      if p.None? || (step > 0 && p.value.id != id) {
        return false, answers;
      }
      id := p.value.id;
      var next := [];
      if Done(conv.stage) {
        if !p.value.done || p.value.data != [] || !conv.valid {
          return false, answers;
        }
      } else {
        var r := ClientStep(lib, conv, p.value.data);
        if r.response.None? {
          return false, answers;
        }
        conv, next := r.next, r.response.value;
      }
      if p.value.done {
        return Done(conv.stage) && conv.valid, answers;
      }
      request := ContinueRequest(id, next, source);
    }
    return false, answers;
  }

  lemma NoAnswerYet(lib: Library, a: Attempt, source: string)
    ensures AfterAnswers(lib, a, source, []) == a
  {
  }

  lemma BegunResponds(lib: Library, user: string, secret: string, own: string)
    ensures ClientStep(lib, FreshClient(user, secret, own), []).response.Some?
  {
  }

  // ------------------------------------------------------------------- both parties

  datatype Pair = Pair(client: Attempt, server: Server)

  function LastReply(r: Round): Option<Doc>
  {
    if r.deeds != [] && r.deeds[|r.deeds| - 1].Replied? then Some(r.deeds[|r.deeds| - 1].reply) else None
  }

  /** One exchange: the server serves the client's request, the client takes the answer if it arrives. */
  function Exchanged(lib: Library, token: string, source: string, p: Pair, w: World): Pair
  {
    if p.client.status != Trying then p
    else
      var r := Served(lib, token, p.server, 0, p.client.request, w);
      Pair(Advanced(lib, p.client, source, if w.delivered then LastReply(r) else None), r.next)
  }

  function ExchangedAll(lib: Library, token: string, source: string, p: Pair, worlds: seq<World>): Pair
    decreases |worlds|
  {
    if worlds == [] then p
    else
      var before := ExchangedAll(lib, token, source, p, worlds[..|worlds| - 1]);
      Exchanged(lib, token, source, before, worlds[|worlds| - 1])
  }
}
