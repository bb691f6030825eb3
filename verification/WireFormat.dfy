/** The frames of the wire protocol octet by octet: lengths, operation codes, flags and counts, in numbers. */
module WireFormat {
  import opened Values
  import opened Octets
  import opened BsonTree
  import opened BsonCodec
  import opened BsonLayout
  import opened Wire

  /** Octets k to k + 3 hold this number. */
  predicate NumberAt(frame: bytes, k: nat, n: int) { k + 4 <= |frame| && Four(frame[k..]) == n }

  predicate ZeroAt(frame: bytes, k: nat, size: nat)
  {
    k + size <= |frame| && forall i :: k <= i < k + size ==> frame[i] == 0
  }

  lemma NumberThere(before: bytes, n: nat, rest: bytes)
    requires n < 0x1_0000_0000
    ensures NumberAt(before + (Le4(n) + rest), |before|, n)
  {
    hide Le4, Le;
    var frame := before + (Le4(n) + rest);
    assert frame[|before|..] == Le4(n) + rest;
    LittleEndian(n);
    assert forall i :: 0 <= i < 4 ==> frame[|before|..][i] == Le4(n)[i];
  }

  lemma {:induction false} LeZeros(k: nat)
    ensures |Le(0, k)| == k && forall i :: 0 <= i < k ==> Le(0, k)[i] == 0
  {
    if k > 0 {
      LeZeros(k - 1);
    }
  }

  /** What every frame begins with: its length, its number, and the number of the message it answers. */
  predicate Headed(frame: bytes, id: int32, responseTo: int32, code: int)
  {
    && |frame| <= 48_000_000 && NumberAt(frame, 0, |frame|)
    && NumberAt(frame, 4, if id < 0 then 0x1_0000_0000 + id else id)
    && NumberAt(frame, 8, if responseTo < 0 then 0x1_0000_0000 + responseTo else responseTo)
    && NumberAt(frame, 12, code)
  }

  lemma HeaderThere(frame: bytes, size: nat, id: int32, responseTo: int32, code: nat, rest: bytes)
    requires size == |frame| <= 48_000_000 && code < 0x1_0000_0000
    requires frame == Le4(size) + (Le4(Word32(id)) + (Le4(Word32(responseTo)) + (Le4(code) + rest)))
    ensures Headed(frame, id, responseTo, code) && |frame| == 16 + |rest| && frame[16..] == rest
  {
    hide Le4, NumberAt;
    var a, b, c, d := Le4(size), Le4(Word32(id)), Le4(Word32(responseTo)), Le4(code);
    NumberThere([], size, b + (c + (d + rest)));
    assert [] + frame == frame;
    NumberThere(a, Word32(id), c + (d + rest));
    NumberThere(a + b, Word32(responseTo), d + rest);
    assert frame == (a + b) + (c + (d + rest));
    NumberThere(a + b + c, code, rest);
    assert frame == (a + b + c) + (d + rest);
    assert frame == (a + b + c + d) + rest;
  }

  /** A modern message: code 2013, no flags, and the body as a section of kind 0; then the batch, if any. */
  lemma ModernFrame(id: int32, responseTo: int32, body: Doc, sequence: Option<bytes>)
    requires MessageBytes(id, responseTo, false, body, sequence).Some?
    ensures var frame := MessageBytes(id, responseTo, false, body, sequence).value;
            && Headed(frame, id, responseTo, 2013) && ZeroAt(frame, 16, 5)
            && frame[21..] == Print(ToTree(body)) + if sequence.Some? then sequence.value else []
  {
    hide Le, Le4, Print, MarshalableDoc, NumberAt;
    var frame := MessageBytes(id, responseTo, false, body, sequence).value;
    var inner := Print(ToTree(body)) + if sequence.Some? then sequence.value else [];
    LeZeros(5);
    HeaderThere(frame, |frame|, id, responseTo, 2013, Le(0, 5) + inner);
    assert frame[21..] == frame[16..][5..] == inner;
    assert forall i :: 16 <= i < 21 ==> frame[i] == frame[16..][i - 16] == Le(0, 5)[i - 16];
  }

  /** A legacy reply: code 1, no flags, no cursor, starting from zero, one document, and then the document. */
  lemma LegacyReply(id: int32, responseTo: int32, body: Doc)
    requires MessageBytes(id, responseTo, true, body, None).Some?
    ensures var frame := MessageBytes(id, responseTo, true, body, None).value;
            && Headed(frame, id, responseTo, 1) && ZeroAt(frame, 16, 16) && NumberAt(frame, 32, 1)
            && frame[36..] == Print(ToTree(body))
  {
    hide Le, Le4, Print, MarshalableDoc, NumberAt;
    var frame := MessageBytes(id, responseTo, true, body, None).value;
    var inner := Print(ToTree(body)) + [];
    LeZeros(16);
    var tail := Le4(1) + inner;
    HeaderThere(frame, |frame|, id, responseTo, 1, Le(0, 16) + tail);
    assert frame[32..] == frame[16..][16..] == tail;
    assert frame == frame[..32] + (Le4(1) + inner);
    NumberThere(frame[..32], 1, inner);
    assert forall i :: 16 <= i < 32 ==> frame[i] == frame[16..][i - 16] == Le(0, 16)[i - 16];
    assert frame[36..] == tail[4..] == inner == Print(ToTree(body));
  }

  // ------------------------------------------------------------------ what is read

  /** The octets at k are those of this text, and a zero. */
  predicate TextAt(frame: bytes, k: nat, s: string)
  {
    && k + |s| < |frame| && frame[k + |s|] == 0
    && forall i :: 0 <= i < |s| ==> frame[k + i] as int == s[i] as int
  }

  /** A legacy frame that is read: flags 0 or 4, the command namespace, no skipping, and one reply wanted. */
  predicate HandshakeFrame(frame: bytes)
  {
    && (NumberAt(frame, 16, 0) || NumberAt(frame, 16, 4))
    && TextAt(frame, 20, "admin.$cmd") && NumberAt(frame, 31, 0)
    && (NumberAt(frame, 35, 1) || NumberAt(frame, 35, 0xFFFF_FFFF))
  }

  lemma TextThere(p: bytes, s: string)
    requires Text(p[..NulIndex(p)]) == s && NulIndex(p) < |p|
    ensures TextAt(p, 0, s) && NulIndex(p) == |s|
  {
    var end := NulIndex(p);
    assert |p[..end]| == end;
    forall i | 0 <= i < |s| ensures p[i] as int == s[i] as int {
      assert Text(p[..end])[i] as int == p[..end][i] as int;
    }
  }

  lemma NumberFrom(frame: bytes, k: nat)
    requires k + 4 <= |frame|
    ensures NumberAt(frame, k, U32(frame[k..]))
  {
    hide U32;
    FourIsU32(frame[k..]);
  }

  lemma HandshakeOnly(frame: bytes, crc: bytes -> word32)
    requires |frame| >= 20 && Decode(frame, crc).Some? && NumberAt(frame, 12, 2004)
    ensures HandshakeFrame(frame)
    ensures Decode(frame, crc).value.body != [] &&
            Decode(frame, crc).value.body[0].key in ["hello", "isMaster", "ismaster"]
  {
    hide U32, Four, NulIndex, Text, ReadDocument;
    FourIsU32(frame[12..]);
    FourIsU32(frame[16..]);
    var p := frame[20..];
    assert frame[16..][4..] == p;
    var end := NulIndex(p);
    TextThere(p, "admin.$cmd");
    assert |"admin.$cmd"| == 10;
    assert p[end + 1..] == frame[31..];
    assert frame[31..][4..] == frame[35..];
    NumberFrom(frame, 31);
    NumberFrom(frame, 35);
    assert forall i :: 0 <= i <= 10 ==> frame[20 + i] == p[i];
  }

  /** What is read, in numbers: within the limit, and a modern message without unknown flags, or a handshake. */
  lemma ReadInNumbers(input: bytes, limit: int, crc: bytes -> word32)
    requires ReadMessage(input, limit, crc).Some?
    ensures |input| >= 20 && 20 <= Four(input) <= |input| && Four(input) <= limit <= 48_000_000
    ensures var frame := input[..Four(input)];
            var body := ReadMessage(input, limit, crc).value.0.body;
            || (NumberAt(frame, 12, 2013) && (NumberAt(frame, 16, 0) || NumberAt(frame, 16, 1)))
            || (NumberAt(frame, 12, 2004) && HandshakeFrame(frame) && body != [] &&
                body[0].key in ["hello", "isMaster", "ismaster"])
  {
    hide U32, Four, LegacyBody, HandshakeFrame, SectionsBody;
    FourIsU32(input);
    var frame := input[..U32(input)];
    FourIsU32(frame[12..]);
    FourIsU32(frame[16..]);
    if U32(frame[12..]) == 2004 {
      HandshakeOnly(frame, crc);
    }
  }

  /** The octets of a legacy handshake. */
  function HandshakeBytes(flags: nat, count: nat, d: Doc): bytes
  {
    Le4(flags) + (Raw("admin.$cmd") + [0] + (Le4(0) + (Le4(count) + Print(ToTree(d)))))
  }

  lemma HandshakeBody(d: Doc, count: nat)
    requires RepresentableDoc(d) && MarshalableDoc(d) && |Print(ToTree(d))| < TWO_32
    requires d != [] && d[0].key in ["hello", "isMaster", "ismaster"] && count in {1, 0xFFFF_FFFF}
    ensures LegacyBody(Raw("admin.$cmd") + [0] + (Le4(0) + (Le4(count) + Print(ToTree(d))))) ==
            if Nesting(d) <= 100 && UniqueKeys(d) then Some(d) else None
  {
    hide Le, Unsigned, Raw, Text, NulIndex, ReadDocument, Print, RepresentableDoc, MarshalableDoc;
    var enc := Print(ToTree(d));
    var q := Le4(0) + (Le4(count) + enc);
    var p := Raw("admin.$cmd") + [0] + q;
    assert IsText("admin.$cmd") && '\0' !in "admin.$cmd";
    RawNul("admin.$cmd");
    TextRaw("admin.$cmd");
    NulIndexAfter(Raw("admin.$cmd"), q);
    assert p[..|Raw("admin.$cmd")|] == Raw("admin.$cmd");
    assert p[|Raw("admin.$cmd")| + 1..] == q;
    U32Le4(0, Le4(count) + enc);
    assert q[4..] == Le4(count) + enc;
    U32Le4(count, enc);
    assert q[8..] == enc + [];
    ReadDocumentPrinted(d, []);
  }

  /** A legacy handshake in any of its forms is read, with its number and its document. */
  lemma HandshakeIsRead(id: int32, flags: nat, count: nat, d: Doc, frame: bytes, rest: bytes, limit: int,
                        crc: bytes -> word32)
    requires RepresentableDoc(d) && MarshalableDoc(d) && flags in {0, 4} && count in {1, 0xFFFF_FFFF}
    requires d != [] && d[0].key in ["hello", "isMaster", "ismaster"]
    requires |frame| <= limit <= 48_000_000
    requires frame == Le4(|frame|) + (Le4(Word32(id)) + (Le4(0) + (Le4(2004) + HandshakeBytes(flags, count, d))))
    ensures ReadMessage(frame + rest, limit, crc) ==
            if Nesting(d) <= 100 && UniqueKeys(d) then Some((Message(id, 0, 2004, flags, d), rest)) else None
  {
    hide Le, Le4, U32, Unsigned, Raw, Print, RepresentableDoc, MarshalableDoc, LegacyBody;
    var body := HandshakeBytes(flags, count, d);
    var p := body[4..];
    assert p == Raw("admin.$cmd") + [0] + (Le4(0) + (Le4(count) + Print(ToTree(d))));
    HandshakeBody(d, count);
    var p12 := Le4(2004) + body;
    var p8 := Le4(0) + p12;
    var p4 := Le4(Word32(id)) + p8;
    U32Le4(|frame|, p4 + rest);
    assert frame + rest == Le4(|frame|) + (p4 + rest);
    assert (frame + rest)[..|frame|] == frame && (frame + rest)[|frame|..] == rest;
    Peel(Le4(|frame|), p4);
    Peel(Le4(Word32(id)), p8);
    Peel(Le4(0), p12);
    Peel(Le4(2004), body);
    assert frame[8..] == frame[4..][4..] && frame[12..] == frame[8..][4..] && frame[16..] == frame[12..][4..];
    HeaderWord(id, p8);
    U32Le4(0, p12);
    U32Le4(2004, body);
    U32Le4(flags, p);
    assert body == Le4(flags) + p;
    assert |Print(ToTree(d))| < |frame|;
  }

  // ------------------------------------------------------------------ how much is written

  function Size(v: Value): nat { if v.Document? then |Print(ToTree(v.fields))| else 0 }

  function Sizes(items: seq<Value>): nat { if items == [] then 0 else Size(items[0]) + Sizes(items[1..]) }

  /** A document that a batch may carry: of at most 16,777,216 octets. */
  predicate Carried(v: Value)
  {
    v.Document? && MarshalableDoc(v.fields) && Size(v) <= 16_777_216 && Parse(Print(ToTree(v.fields)), 1).Some?
  }

  predicate AllCarried(items: seq<Value>) { forall i :: 0 <= i < |items| ==> Carried(items[i]) }

  lemma OneMoreCarried(items: seq<Value>)
    requires items != []
    ensures AllCarried(items) <==> Carried(items[0]) && AllCarried(items[1..])
  {
    hide Carried;
    assert forall i :: 0 < i < |items| ==> items[i] == items[1..][i - 1];
  }

  lemma BatchUnfolds(items: seq<Value>, used: nat)
    requires items != []
    ensures var more := BatchBytes(items[1..], used + Size(items[0]));
            && (BatchBytes(items, used).Some? <==>
                Carried(items[0]) && used + Size(items[0]) <= 47_999_979 && more.Some?)
            && (BatchBytes(items, used).Some? ==>
                |BatchBytes(items, used).value| == Size(items[0]) + |more.value|)
  {
    hide Parse, Print, ToTree, MarshalableDoc;
  }

  /** A batch is written exactly when each of its documents may be carried and together they fit into the frame. */
  lemma {:induction false} BatchFits(items: seq<Value>, used: nat)
    ensures BatchBytes(items, used).Some? <==> AllCarried(items) && (items == [] || used + Sizes(items) <= 47_999_979)
    ensures BatchBytes(items, used).Some? ==> |BatchBytes(items, used).value| == Sizes(items)
    decreases |items|
  {
    hide AllCarried, Carried, Size, BatchBytes;
    if items != [] {
      BatchUnfolds(items, used);
      OneMoreCarried(items);
      BatchFits(items[1..], used + Size(items[0]));
    } else {
      NothingCarried(used);
    }
  }

  lemma NothingCarried(used: nat)
    ensures AllCarried([]) && BatchBytes([], used) == Some([])
  {
  }

  /** And the body beside a batch is written only up to the same size; without a batch only the frame limits it. */
  lemma FrameFits(id: int32, responseTo: int32, body: Doc, sequence: Option<bytes>)
    ensures MessageBytes(id, responseTo, false, body, sequence).Some? <==>
            && MarshalableDoc(body)
            && var size := |Print(ToTree(body))|;
            && (sequence.Some? ==> size <= 16_777_216)
            && 21 + size + (if sequence.Some? then |sequence.value| else 0) <= 48_000_000
  {
    hide Print, ToTree, MarshalableDoc, Le;
  }

  /** The array that travels beside the body, for the three bulk commands. */
  function BatchName(name: string): string
  {
    if name == "insert" then "documents" else if name == "update" then "updates"
    else if name == "delete" then "deletes" else ""
  }

  lemma BatchNames(body: Doc)
    ensures BulkField(body) == if body == [] then "" else BatchName(body[0].key)
  {
  }

  /** A section of kind 1 with this name and these octets. */
  predicate BatchSection(p: bytes, name: string, batch: bytes)
  {
    p == [1] + Le4(5 + |name| + |batch|) + Raw(name) + [0] + batch
  }

  /**
   * What a written command holds behind its flags: the whole body, or for insert, update and delete the body without
   * its one array of that name, and then the documents of that array as a section of kind 1.
   */
  lemma CommandInWords(id: int32, body: Doc)
    requires body != [] && CommandBytes(id, body).Some?
    ensures var name, frame := BatchName(body[0].key), CommandBytes(id, body).value;
            && |frame| >= 21
            && if name == "" then frame[21..] == Print(ToTree(body))
               else
                 && CountKey(body, name) == 1 && Get(body, name).Array?
                 && exists batch, tail :: BatchBytes(Get(body, name).items, 6 + |name|) == Some(batch) &&
                      BatchSection(tail, name, batch) && frame[21..] == Print(ToTree(Without(body, name))) + tail
  {
    hide Print, BatchBytes, MessageBytes, BatchName, BulkField, Le, Raw, CountKey, Without;
    BatchNames(body);
    var name := BatchName(body[0].key);
    if name == "" {
      ModernFrame(id, 0, body, None);
      assert Print(ToTree(body)) + [] == Print(ToTree(body));
    } else {
      var sequence := SequenceBytes(name, Get(body, name).items);
      ModernFrame(id, 0, Without(body, name), sequence);
      var batch := BatchBytes(Get(body, name).items, 6 + |name|).value;
      assert BatchSection(sequence.value, name, batch);
    }
  }
}
