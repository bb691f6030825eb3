/**
 * Many calls of execute share one registry. Each critical section, each backend exchange and each local decision
 * is one step; between two steps of a call any other call may move and time may pass. The log is a history
 * variable: no step reads it.
 */
module Interleaving {
  import opened Values
  import opened Policy
  import opened Namespaces
  import opened Registry
  import opened Execute
  import opened Reply

  /** execute is called with a non-empty body only. */
  type Request = d: Doc | d != [] witness [Field("ping", Null)]

  datatype Outcome = Answer(reply: Doc, shown: Doc) | Denial | Failure

  datatype Phase =
    | Looking                          // looking up the cursors named by the request
    | Asking(asked: nat)               // asking whether each namespace is a plain collection or none
    | Sending
    | Waiting                          // for the backend
    | Acting(reply: Doc, done: nat)    // updating the registry
    | Over(outcome: Outcome)

  datatype Call = Call(scope: Scope, doc: Request, owners: seq<Cursor>, phase: Phase)

  datatype Deed =
    | Looked(id: int, cursor: Cursor, at: Time)
    | Asked(ns: Namespace, verdictOf: Doc)
    | Forwarded(owners: seq<Cursor>, sent: Doc)
    | Received(owners: seq<Cursor>, reply: Doc)
    | Kept(owners: seq<Cursor>, reply: Doc, id: int, cursor: Cursor)
    | Answered(owners: seq<Cursor>, reply: Doc, shown: Doc)

  datatype Event = Event(call: nat, scope: Scope, doc: Request, deed: Deed)

  datatype System = System(cursors: Cursors, now: Time, calls: seq<Call>, log: seq<Event>)

  datatype Choice =
    | Tick(elapsed: nat)
    | Begin(scope: Scope, doc: Request)
    | Advance(call: nat, answer: Option<Doc>)    // None: the backend failed; ignored where none is awaited

  // --------------------------------------------------------------------- steps

  function Move(s: System, p: nat, call: Call): System
    requires p < |s.calls|
  {
    s.(calls := s.calls[p := call])
  }

  function Record(s: System, p: nat, deed: Deed): System
    requires p < |s.calls|
  {
    s.(log := s.log + [Event(p, s.calls[p].scope, s.calls[p].doc, deed)])
  }

  function Finish(s: System, p: nat, outcome: Outcome): System
    requires p < |s.calls|
  {
    Move(s, p, s.calls[p].(phase := Over(outcome)))
  }

  predicate Cleared(doc: Request, owners: seq<Cursor>)
  {
    CommandOK(Checked(doc, owners))
  }

  function Look(s: System, p: nat): System
    requires p < |s.calls|
  {
    var call := s.calls[p];
    var ids := TargetIds(call.doc);
    if Targets(call.doc).None? then Finish(s, p, Denial)
    else if |call.owners| < |ids| then
      var id := ids[|call.owners|];
      var found := Lookup(s.cursors, call.scope, id, TargetNamespace(call.doc), Session(call.doc), s.now);
      if found.None? then Finish(s, p, Denial)
      else Move(Record(s, p, Looked(id, found.value, s.now)), p, call.(owners := call.owners + [found.value]))
    else if !Cleared(call.doc, call.owners) then Finish(s, p, Denial)
    else Move(s, p, call.(phase := if Metadata(call.owners) then Sending else Asking(0)))
  }

  function Ask(s: System, p: nat, answer: Option<Doc>): System
    requires p < |s.calls| && s.calls[p].phase.Asking?
  {
    var call := s.calls[p];
    var asked, list := call.phase.asked, NamespaceList(call.doc);
    if asked >= |list| then Move(s, p, call.(phase := Sending))
    else if answer.None? || Judge(answer.value, list[asked]) == Malformed then Finish(s, p, Failure)
    else if Judge(answer.value, list[asked]) == Refused then Finish(s, p, Denial)
    else Move(Record(s, p, Asked(list[asked], answer.value)), p, call.(phase := Asking(asked + 1)))
  }

  function Send(s: System, p: nat): System
    requires p < |s.calls|
  {
    var call := s.calls[p];
    Move(Record(s, p, Forwarded(call.owners, ForwardDoc(call.doc))), p, call.(phase := Waiting))
  }

  function Receive(s: System, p: nat, answer: Option<Doc>): System
    requires p < |s.calls|
  {
    var call := s.calls[p];
    if answer.None? || BadCursor(call.doc, answer.value) then Finish(s, p, Failure)
    else
      Move(Record(s, p, Received(call.owners, answer.value)), p, call.(phase := Acting(answer.value, 0)))
  }

  function Shown(call: Call, reply: Doc): Doc { PublicReply(PublicVerb(call.doc, call.owners), reply) }

  function Act(s: System, p: nat): System
    requires p < |s.calls| && s.calls[p].phase.Acting?
  {
    var call := s.calls[p];
    var reply, done := call.phase.reply, call.phase.done;
    var actions := Actions(call.doc, call.owners, reply);
    if done >= |actions| then
      Finish(Record(s, p, Answered(call.owners, reply, Shown(call, reply))), p, Answer(reply, Shown(call, reply)))
    else
      var a := actions[done];
      var t := s.(cursors := Applied(s.cursors, call.scope, a, s.now));
      if !Fits(s.cursors, call.scope, a, s.now) then Finish(t, p, Failure)
      else
        var u := if a.Keep? then Record(t, p, Kept(call.owners, reply, a.id, a.cursor.(used := s.now))) else t;
        Move(u, p, call.(phase := Acting(reply, done + 1)))
  }

  function Step(s: System, p: nat, answer: Option<Doc>): System
    requires p < |s.calls|
  {
    match s.calls[p].phase
    case Looking => Look(s, p)
    case Asking(_) => Ask(s, p, answer)
    case Sending => Send(s, p)
    case Waiting => Receive(s, p, answer)
    case Acting(_, _) => Act(s, p)
    case Over(_) => s
  }

  function Next(s: System, c: Choice): System
  {
    match c
    case Tick(elapsed) => s.(now := s.now + elapsed)
    case Begin(scope, doc) => s.(calls := s.calls + [Call(scope, doc, [], Looking)])
    case Advance(p, answer) => if p < |s.calls| then Step(s, p, answer) else s
  }

  function RunFrom(s: System, run: seq<Choice>): System
    decreases |run|
  {
    if run == [] then s else Next(RunFrom(s, run[..|run| - 1]), run[|run| - 1])
  }

  const START := System(map[], 0, [], [])

  /** The state after a run: every interleaving of calls is some sequence of choices. */
  function Run(run: seq<Choice>): System { RunFrom(START, run) }

  lemma RunSnoc(run: seq<Choice>, c: Choice)
    ensures Run(run + [c]) == Next(Run(run), c)
  {
    hide Next;
    assert (run + [c])[..|run|] == run;
  }

  // ------------------------------------------------- what the history must look like

  /** The event that last stored the entry `k`, and what it stored. */
  predicate Stores(e: Event, k: Key) { e.deed.Kept? && e.scope == k.scope && e.deed.id == k.id }

  ghost predicate LastStored(log: seq<Event>, m: nat, k: Key, c: Cursor)
  {
    && m < |log| && Stores(log[m], k) && log[m].deed.cursor == c
    && forall j :: m < j < |log| ==> !Stores(log[j], k)
  }

  /** A lookup found the latest entry, stored for the same scope, session and namespace, and fresh enough. */
  ghost predicate FoundInRegistry(log: seq<Event>, e: Event)
    requires e.deed.Looked?
  {
    var c := e.deed.cursor;
    && (exists m :: LastStored(log, m, Key(e.scope, e.deed.id), c))
    && c.namespace == TargetNamespace(e.doc) && c.session == Session(e.doc)
    && 0 <= e.deed.at - c.used <= IDLE_LIMIT
    && e.deed.id in TargetIds(e.doc)
  }

  ghost predicate WasLooked(log: seq<Event>, call: nat, scope: Scope, doc: Request, id: int, c: Cursor)
  {
    exists at :: Event(call, scope, doc, Looked(id, c, at)) in log
  }

  ghost predicate AllLooked(log: seq<Event>, call: nat, scope: Scope, doc: Request, owners: seq<Cursor>)
  {
    && |owners| <= |TargetIds(doc)|
    && forall i :: 0 <= i < |owners| ==> WasLooked(log, call, scope, doc, TargetIds(doc)[i], owners[i])
  }

  ghost predicate WasAllowed(log: seq<Event>, call: nat, scope: Scope, doc: Request, ns: Namespace)
  {
    exists reply :: Event(call, scope, doc, Asked(ns, reply)) in log && Judge(reply, ns) == Allowed
  }

  ghost predicate AllAllowed(log: seq<Event>, call: nat, scope: Scope, doc: Request, list: seq<Namespace>)
  {
    forall i :: 0 <= i < |list| ==> WasAllowed(log, call, scope, doc, list[i])
  }

  /** What must have happened before a command is forwarded. */
  ghost predicate Entitled(log: seq<Event>, call: nat, scope: Scope, doc: Request, owners: seq<Cursor>)
  {
    && Targets(doc).Some? && |owners| == |TargetIds(doc)|
    && AllLooked(log, call, scope, doc, owners)
    && Cleared(doc, owners)
    && (!Metadata(owners) ==> AllAllowed(log, call, scope, doc, NamespaceList(doc)))
  }

  ghost predicate Justified(log: seq<Event>, e: Event)
  {
    match e.deed
    case Looked(_, _, _) => FoundInRegistry(log, e)
    case Asked(ns, reply) => Judge(reply, ns) == Allowed && ns in NamespaceList(e.doc)
    case Forwarded(owners, sent) => sent == ForwardDoc(e.doc) && Entitled(log, e.call, e.scope, e.doc, owners)
    case Received(owners, reply) =>
      !BadCursor(e.doc, reply) && e.(deed := Forwarded(owners, ForwardDoc(e.doc))) in log
    case Kept(owners, reply, id, c) =>
      && e.(deed := Received(owners, reply)) in log
      && HasCursor(reply) && id != 0 && AuthNumber(Subfield(reply, "id")) == Some(id)
      && c == NewCursor(e.doc, owners, reply).(used := c.used)
    case Answered(owners, reply, shown) =>
      && e.(deed := Received(owners, reply)) in log
      && shown == PublicReply(PublicVerb(e.doc, owners), reply)
  }

  /** Every event is justified by the events before it. */
  ghost predicate Lawful(log: seq<Event>)
  {
    forall n :: 0 <= n < |log| ==> Justified(log[..n], log[n])
  }

  // ------------------------------------------------------------------ the invariant

  ghost predicate CallOk(log: seq<Event>, p: nat, call: Call)
  {
    match call.phase
    case Looking => AllLooked(log, p, call.scope, call.doc, call.owners)
    case Asking(asked) =>
      && Targets(call.doc).Some? && |call.owners| == |TargetIds(call.doc)|
      && AllLooked(log, p, call.scope, call.doc, call.owners)
      && Cleared(call.doc, call.owners) && !Metadata(call.owners)
      && asked <= |NamespaceList(call.doc)|
      && AllAllowed(log, p, call.scope, call.doc, NamespaceList(call.doc)[..asked])
    case Sending => Entitled(log, p, call.scope, call.doc, call.owners)
    case Waiting => Event(p, call.scope, call.doc, Forwarded(call.owners, ForwardDoc(call.doc))) in log
    case Acting(reply, _) => Event(p, call.scope, call.doc, Received(call.owners, reply)) in log
    case Over(_) => true
  }

  ghost predicate CallsOk(s: System)
  {
    forall p :: 0 <= p < |s.calls| ==> CallOk(s.log, p, s.calls[p])
  }

  ghost predicate EntryOk(log: seq<Event>, k: Key, c: Cursor, now: Time)
  {
    && k.id != 0 && c.used <= now
    && exists m :: LastStored(log, m, k, c)
  }

  ghost predicate RegistryOk(s: System)
  {
    forall k :: k in s.cursors ==> EntryOk(s.log, k, s.cursors[k], s.now)
  }

  ghost predicate Inv(s: System)
  {
    Lawful(s.log) && CallsOk(s) && RegistryOk(s) && WithinLimits(s.cursors)
  }
}
