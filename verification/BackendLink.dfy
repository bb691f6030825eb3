/** The proxy's commands to its backend: request identifiers, and the matching of replies. */
module BackendLink {
  import opened Values
  import opened Wire
  import opened WireLoops

  /** The next request identifier: 32-bit, wrapping around, never zero. */
  function NextId(id: int32): (n: int32)
    ensures n != 0
  {
    var n := if id == TWO_31 - 1 then -TWO_31 else id + 1;
    if n == 0 then 1 else n
  }

  function IdAfter(id: int32, n: nat): int32
  {
    if n == 0 then id else NextId(IdAfter(id, n - 1))
  }

  /** The identifiers as unsigned numbers, where they run through 1 to 2^32 - 1 in a circle. */
  function Turn(id: int32): int { if id < 0 then id + TWO_32 else id }

  const CIRCLE := TWO_32 - 1

  lemma {:induction false} IdsGoRound(id: int32, n: nat)
    requires id != 0 && n < CIRCLE
    ensures Turn(IdAfter(id, n)) == Turn(id) + n - (if Turn(id) + n > CIRCLE then CIRCLE else 0)
  {
    if n > 0 { IdsGoRound(id, n - 1); }
  }

  lemma {:induction false} IdsCompose(id: int32, m: nat, n: nat)
    ensures IdAfter(id, m + n) == IdAfter(IdAfter(id, m), n)
  {
    if n > 0 {
      IdsCompose(id, m, n - 1);
      assert IdAfter(id, m + n) == NextId(IdAfter(id, m + n - 1));
    }
  }

  lemma IdsDiffer(id: int32, i: nat, j: nat)
    requires i < j < i + CIRCLE
    ensures IdAfter(id, i + 1) != IdAfter(id, j + 1)
  {
    IdsCompose(id, i + 1, j - i);
    IdsGoRound(IdAfter(id, i + 1), j - i);
  }

  /** A reply to the command with this identifier. */
  predicate Answers(m: Message, id: int32) { m.opCode == OP_MSG && m.responseTo == id }

  /**
   * A reply to one command is never taken for the reply to another of the 2^32 - 2 commands before or after it.
   */
  lemma LateReplyRefused(id: int32, i: nat, j: nat, m: Message)
    requires i != j && i < j + CIRCLE && j < i + CIRCLE
    requires Answers(m, IdAfter(id, i + 1))
    ensures !Answers(m, IdAfter(id, j + 1))
  {
    hide IdAfter;
    if i < j { IdsDiffer(id, i, j); } else { IdsDiffer(id, j, i); }
  }

  class Link {
    const crc: bytes -> word32
    var nextId: int32
    var closed: bool

    constructor (crc: bytes -> word32)
      ensures this.crc == crc && nextId == 0 && !closed
    {
      this.crc, nextId, closed := crc, 0, false;
    }

    /**
     * One command: it succeeds exactly when its bytes go out in full and the message that arrives answers it; any
     * failure closes the connection for good.
     */
    method Command(body: Doc, out: Connection, incoming: bytes) returns (reply: Option<Doc>)
      modifies this`nextId, this`closed, out
      ensures old(closed) ==> reply == None && closed && nextId == old(nextId)
      ensures !old(closed) ==> nextId == NextId(old(nextId))
      ensures closed <==> reply.None?
      ensures !old(closed) ==>
                var frame := CommandBytes(nextId, body);
                var m := ReadMessage(incoming, MAX_MESSAGE, crc);
                && (reply.Some? <==> frame.Some? && Carries(old(out.schedule), |frame.value|) &&
                                     m.Some? && m.value.0.opCode == 2013 &&
                                     m.value.0.responseTo == nextId)
                && (reply.Some? ==> reply.value == m.value.0.body && out.delivered == old(out.delivered) + frame.value)
    {
      hide CommandBytes, ReadMessage;
      if closed {
        return None;
      }
      nextId := if nextId == TWO_31 - 1 then -TWO_31 else nextId + 1;
      if nextId == 0 {
        nextId := nextId + 1;
      }
      var frame := EncodeCommand(nextId, body);
      if frame.None? {
        closed := true;
        return None;
      }
      var sent := out.WriteAll(frame.value);
      if !sent {
        closed := true;
        return None;
      }
      var m := ReceiveMessage(incoming, MAX_MESSAGE, crc);
      if m.None? || m.value.0.opCode != OP_MSG || m.value.0.responseTo != nextId {
        closed := true;
        return None;
      }
      return Some(m.value.0.body);
    }
  }
}
