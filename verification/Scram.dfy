/**
 * The SCRAM conversations of RFC 5802, section 3, as their two state machines. The cryptography is symbolic: a proof
 * or a signature is made from the prepared password and the transcript, and only from them.
 */
module Scram {
  import opened Values
  import opened Policy

  datatype Transcript = Transcript(user: string, clientNonce: string, nonce: string, salt: bytes, rounds: nat)

  datatype Evidence = Evidence(secret: string, transcript: Transcript)

  datatype Message =
    | ClientFirst(user: string, nonce: string)
    | ServerFirst(nonce: string, salt: bytes, rounds: nat)
    | ClientFinal(nonce: string, proof: Evidence)
    | ServerFinal(signature: Evidence)
    | Unreadable

  /** How messages become octets and back; SASLprep gives None for a password that cannot be prepared. */
  datatype Library = Library(read: bytes -> Message, write: Message -> bytes, prepare: string -> Option<string>)

  /** What is written can be read back. */
  ghost predicate Faithful(lib: Library)
  {
    forall m: Message {:trigger lib.write(m)} :: m != Unreadable ==> lib.read(lib.write(m)) == m
  }

  datatype Stage = Starting | First | Final | Complete

  const ROUNDS := 4096

  // ------------------------------------------------------------------------- server

  datatype ServerSide = ServerSide(stage: Stage, valid: bool, secret: string, salt: bytes, own: string,
                                   transcript: Transcript)

  datatype Reaction<T> = Reaction(next: T, response: Option<bytes>)   // None: an error

  function FreshServer(secret: string, salt: bytes, own: string): ServerSide
  {
    ServerSide(First, false, secret, salt, own, Transcript("", "", "", [], 0))
  }

  predicate Done(stage: Stage) { stage == Complete }

  function ServerStep(lib: Library, s: ServerSide, data: bytes): Reaction<ServerSide>
  {
    var m := lib.read(data);
    match s.stage
    case First =>
      var next := s.(stage := Final);
      if m.ClientFirst? && m.user == "vaulty" then
        var t := Transcript(m.user, m.nonce, m.nonce + s.own, s.salt, ROUNDS);
        Reaction(next.(transcript := t), Some(lib.write(ServerFirst(t.nonce, t.salt, t.rounds))))
      else Reaction(next, None)
    case Final =>
      var next := s.(stage := Complete);
      if m.ClientFinal? && m.nonce == s.transcript.nonce && m.proof == Evidence(s.secret, s.transcript) then
        Reaction(next.(valid := true), Some(lib.write(ServerFinal(Evidence(s.secret, s.transcript)))))
      else Reaction(next, None)
    case _ => Reaction(s, None)
  }

  // ------------------------------------------------------------------------- client

  datatype ClientSide = ClientSide(stage: Stage, valid: bool, user: string, secret: string, own: string,
                                   transcript: Transcript)

  function FreshClient(user: string, secret: string, own: string): ClientSide
  {
    ClientSide(Starting, false, user, secret, own, Transcript("", "", "", [], 0))
  }

  function ClientStep(lib: Library, c: ClientSide, data: bytes): Reaction<ClientSide>
  {
    var m := lib.read(data);
    match c.stage
    case Starting => Reaction(c.(stage := First), Some(lib.write(ClientFirst(c.user, c.own))))
    case First =>
      var next := c.(stage := Final);
      if m.ServerFirst? && HasPrefix(m.nonce, c.own) && m.rounds >= ROUNDS then
        var t := Transcript(c.user, c.own, m.nonce, m.salt, m.rounds);
        Reaction(next.(transcript := t), Some(lib.write(ClientFinal(t.nonce, Evidence(c.secret, t)))))
      else Reaction(next, None)
    case Final =>
      var next := c.(stage := Complete);
      if m.ServerFinal? && m.signature == Evidence(c.secret, c.transcript) then
        Reaction(next.(valid := true), Some([]))
      else Reaction(next, None)
    case Complete => Reaction(c, None)
  }
}
