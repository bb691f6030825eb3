/** OP_MSG and the legacy handshake query: the reader of frames and the writer of commands and replies. */
module Wire {
  import opened Values
  import opened Octets
  import opened BsonTree
  import opened BsonCodec

  const MAX_MESSAGE := 48_000_000
  const MAX_DOCUMENT := 16 * 1024 * 1024
  const OP_MSG := 2013
  const OP_QUERY := 2004

  datatype Message = Message(id: int32, responseTo: int32, opCode: int32, flags: word32, body: Doc)

  // ----------------------------------------------------------- reading one document

  /** The document at the front of p and its size; top-level keys are unique. */
  function ReadDocument(p: bytes): (r: Option<(Doc, nat)>)
    ensures r.Some? ==> 5 <= r.value.1 <= |p| && UniqueKeys(r.value.0)
  {
    if |p| < 5 then None
    else
      var n := U32(p);
      if n < 5 || n > |p| then None
      else
        match Parse(p[..n], 1)
        case None => None
        case Some(t) =>
          ParseSound(p[..n], 1);
          match FromElements(t.elements)
          case None => None
          case Some(d) => if UniqueKeys(d) then Some((d, n)) else None
  }

  /** What a written document reads back as, whatever follows it. */
  lemma ReadDocumentPrinted(d: Doc, rest: bytes)
    requires RepresentableDoc(d) && MarshalableDoc(d) && |Print(ToTree(d))| < TWO_32
    ensures var enc := Print(ToTree(d));
            ReadDocument(enc + rest) ==
            if Nesting(d) <= DEPTH_LIMIT && UniqueKeys(d) then Some((d, |enc|)) else None
  {
    hide Le, Unsigned, ToElements, FromElements, PrintElements, ElementsHeight, Parse, RepresentableDoc, MarshalableDoc;
    var t := ToTree(d);
    var enc := Print(t);
    var p := PrintElements(ToElements(d));
    assert enc + rest == Le4(|enc|) + (p + [0] + rest);
    U32Le4(|enc|, p + [0] + rest);
    assert (enc + rest)[..|enc|] == enc;
    ElementsRoundTrip(d);
    ParsePrinted(t, 1);
  }

  // ---------------------------------------------------------------- UTF-8 (RFC 3629)

  predicate Continuation(b: byte) { 0x80 <= b <= 0xBF }

  /** The length of the well-formed UTF-8 sequence at the front; zero when there is none. */
  function Utf8Size(p: bytes): (n: nat)
    requires p != []
    ensures n <= |p|
  {
    if p[0] < 0x80 then 1
    else if |p| >= 2 && 0xC2 <= p[0] <= 0xDF && Continuation(p[1]) then 2
    else if |p| >= 3 && 0xE0 <= p[0] <= 0xEF && Continuation(p[1]) && Continuation(p[2])
      && (p[0] == 0xE0 ==> p[1] >= 0xA0) && (p[0] == 0xED ==> p[1] <= 0x9F) then 3
    else if |p| >= 4 && 0xF0 <= p[0] <= 0xF4 && Continuation(p[1]) && Continuation(p[2]) && Continuation(p[3])
      && (p[0] == 0xF0 ==> p[1] >= 0x90) && (p[0] == 0xF4 ==> p[1] <= 0x8F) then 4
    else 0
  }

  predicate ValidUtf8(p: bytes)
    decreases |p|
  {
    p == [] || (Utf8Size(p) > 0 && ValidUtf8(p[Utf8Size(p)..]))
  }

  lemma {:induction false} AsciiIsUtf8(p: bytes)
    requires forall i :: 0 <= i < |p| ==> p[i] < 0x80
    ensures ValidUtf8(p)
  {
    if p != [] {
      AsciiIsUtf8(p[1..]);
    }
  }

  // --------------------------------------------------------------------- sections

  datatype Section = BodySection(doc: Doc) | Sequence(name: string, docs: seq<Doc>)

  /** A section with the bytes it came from. */
  datatype Span = Span(section: Section, raw: bytes)

  function ReadDocuments(p: bytes): Option<seq<Doc>>
    decreases |p|
  {
    if p == [] then Some([])
    else
      match ReadDocument(p)
      case None => None
      case Some((d, n)) =>
        match ReadDocuments(p[n..])
        case None => None
        case Some(docs) => Some([d] + docs)
  }

  /** The content of a kind-1 section after its size. */
  function ReadSequence(p: bytes): Option<Section>
  {
    var end := NulIndex(p);
    if end == 0 || end == |p| || !ValidUtf8(p[..end]) || '.' in Text(p[..end]) then None
    else
      match ReadDocuments(p[end + 1..])
      case None => None
      case Some(docs) => Some(Sequence(Text(p[..end]), docs))
  }

  /** The section at the front of p, with its bytes. */
  function ReadSection(p: bytes): (r: Option<Span>)
    requires p != []
    ensures r.Some? ==> 0 < |r.value.raw| <= |p| && r.value.raw == p[..|r.value.raw|]
  {
    if p[0] == 0 then
      match ReadDocument(p[1..])
      case None => None
      case Some((d, n)) => Some(Span(BodySection(d), p[..n + 1]))
    else if p[0] == 1 && |p| >= 6 && 5 <= U32(p[1..]) <= |p| - 1 then
      match ReadSequence(p[5..U32(p[1..]) + 1])
      case None => None
      case Some(s) => Some(Span(s, p[..U32(p[1..]) + 1]))
    else None
  }

  function ReadSections(p: bytes): Option<seq<Span>>
    decreases |p|
  {
    if p == [] then Some([])
    else
      match ReadSection(p)
      case None => None
      case Some(s) =>
        match ReadSections(p[|s.raw|..])
        case None => None
        case Some(ss) => Some([s] + ss)
  }

  // ---------------------------------------------------------- from sections to a body

  function Bodies(ss: seq<Span>): nat
  {
    if ss == [] then 0 else (if ss[0].section.BodySection? then 1 else 0) + Bodies(ss[1..])
  }

  /** The fields of the kind-0 section; with several, those of the last. */
  function BodyOf(ss: seq<Span>): Doc
  {
    if ss == [] then []
    else if Bodies(ss[1..]) > 0 then BodyOf(ss[1..])
    else if ss[0].section.BodySection? then ss[0].section.doc
    else []
  }

  function DocumentValues(docs: seq<Doc>): (vs: seq<Value>)
    ensures |vs| == |docs| && forall i :: 0 <= i < |docs| ==> vs[i] == Document(docs[i])
  {
    seq(|docs|, i requires 0 <= i < |docs| => Document(docs[i]))
  }

  /** One array field for each kind-1 section, in wire order. */
  function SequenceFields(ss: seq<Span>): Doc
  {
    if ss == [] then []
    else
      match ss[0].section
      case BodySection(_) => SequenceFields(ss[1..])
      case Sequence(name, docs) => [Field(name, Array(DocumentValues(docs)))] + SequenceFields(ss[1..])
  }

  /** The command: the kind-0 fields, then the sequences; one body, and no key twice. */
  function Assemble(ss: seq<Span>): Option<Doc>
  {
    if Bodies(ss) == 1 && UniqueKeys(BodyOf(ss) + SequenceFields(ss)) then Some(BodyOf(ss) + SequenceFields(ss))
    else None
  }

  function Concat(ss: seq<Span>): bytes
  {
    if ss == [] then [] else ss[0].raw + Concat(ss[1..])
  }

  predicate AllSequences(ss: seq<Span>) { forall i :: 0 <= i < |ss| ==> ss[i].section.Sequence? }

  /** Accepted sections tile the payload, and each is a complete section by itself. */
  lemma {:induction false} SectionsTile(p: bytes)
    requires ReadSections(p).Some?
    ensures var ss := ReadSections(p).value;
            Concat(ss) == p && Complete(ss)
    decreases |p|
  {
    hide ReadSection;
    if p != [] {
      var s := ReadSection(p).value;
      SectionAlone(p);
      SectionsTile(p[|s.raw|..]);
      assert p == s.raw + p[|s.raw|..];
    }
  }

  lemma SectionAlone(p: bytes)
    requires p != [] && ReadSection(p).Some?
    ensures var s := ReadSection(p).value; ReadSection(s.raw) == Some(s)
  {
    hide ReadSequence, Unsigned, ReadDocument;
    var raw := ReadSection(p).value.raw;
    if p[0] == 0 {
      var n := ReadDocument(p[1..]).value.1;
      assert raw[1..] == p[1..][..n];
      assert raw[..n + 1] == raw;
      ReadDocumentAlone(p[1..]);
    } else {
      assert raw[1..][..4] == p[1..][..4];
      assert U32(raw[1..]) == |raw| - 1;
      assert raw[5..|raw|] == p[5..|raw|];
      assert raw[..|raw|] == raw;
    }
  }

  lemma ReadDocumentAlone(p: bytes)
    requires ReadDocument(p).Some?
    ensures ReadDocument(p[..ReadDocument(p).value.1]) == ReadDocument(p)
  {
    hide Parse, Unsigned, FromElements;
    var n := ReadDocument(p).value.1;
    assert p[..n][..4] == p[..4];
    assert p[..n][..n] == p[..n];
  }

  /** A section that is complete by itself is read in front of anything. */
  lemma SectionInFront(raw: bytes, rest: bytes)
    requires raw != [] && ReadSection(raw).Some? && ReadSection(raw).value.raw == raw
    ensures ReadSection(raw + rest) == ReadSection(raw)
  {
    hide ReadSequence, Unsigned, ReadDocument;
    var p := raw + rest;
    if raw[0] == 0 {
      var n := ReadDocument(raw[1..]).value.1;
      assert |raw| == n + 1;
      assert p[1..] == raw[1..] + rest;
      ReadDocumentInFront(raw[1..], rest);
      assert p[..n + 1] == raw[..n + 1];
    } else {
      assert p[1..][..4] == raw[1..][..4];
      assert U32(p[1..]) == U32(raw[1..]) == |raw| - 1;
      assert p[5..|raw|] == raw[5..|raw|];
      assert p[..|raw|] == raw;
    }
  }

  lemma ReadDocumentInFront(p: bytes, rest: bytes)
    requires ReadDocument(p).Some?
    ensures ReadDocument(p + rest) == ReadDocument(p)
  {
    hide Parse, Unsigned, FromElements;
    var n := ReadDocument(p).value.1;
    assert (p + rest)[..4] == p[..4];
    assert (p + rest)[..n] == p[..n];
  }

  /** Sections of their own: each reads back from its bytes alone. */
  predicate Complete(ss: seq<Span>)
  {
    forall i :: 0 <= i < |ss| ==> ss[i].raw != [] && ReadSection(ss[i].raw) == Some(ss[i])
  }

  /** The converse of the tiling: complete sections in a row are a payload that reads as those sections. */
  lemma {:induction false} TilesRead(ss: seq<Span>)
    requires Complete(ss)
    ensures ReadSections(Concat(ss)) == Some(ss)
  {
    hide ReadSection;
    if ss != [] {
      var s, rest := ss[0], Concat(ss[1..]);
      TilesRead(ss[1..]);
      SectionInFront(s.raw, rest);
      assert (s.raw + rest)[|s.raw|..] == rest;
      assert ss == [s] + ss[1..];
    }
  }

  /**
   * Payload bytes: moving the kind-0 section among the kind-1 sections of a payload leaves the command the same, or
   * leaves it refused.
   */
  lemma BodyMovesFreely(before: seq<Span>, body: Span, after: seq<Span>)
    requires Complete(before) && Complete([body]) && Complete(after)
    requires AllSequences(before) && AllSequences(after) && body.section.BodySection?
    ensures SectionsBody(Concat(before + [body] + after)) == SectionsBody(Concat([body] + before + after))
  {
    hide ReadSection, ReadSections, Concat, Assemble;
    assert [body][0] == body;
    TilesRead(before + [body] + after);
    TilesRead([body] + before + after);
    BodyPlaceIsFree(before, body, after);
  }

  /** The kind-0 section may stand anywhere among the others without changing the command. */
  lemma {:induction false} BodyPlaceIsFree(before: seq<Span>, body: Span, after: seq<Span>)
    requires AllSequences(before) && AllSequences(after) && body.section.BodySection?
    ensures var ss := before + [body] + after;
            && Bodies(ss) == 1 && BodyOf(ss) == body.section.doc
            && SequenceFields(ss) == SequenceFields(before + after)
            && Assemble(ss) == Assemble([body] + before + after)
  {
    BodyPlace([], body, before + after);
    assert [] + [body] + (before + after) == [body] + before + after;
    BodyPlace(before, body, after);
  }

  lemma {:induction false} BodyPlace(before: seq<Span>, body: Span, after: seq<Span>)
    requires AllSequences(before) && AllSequences(after) && body.section.BodySection?
    ensures var ss := before + [body] + after;
            Bodies(ss) == 1 && BodyOf(ss) == body.section.doc && SequenceFields(ss) == SequenceFields(before + after)
    decreases |before|
  {
    if before == [] {
      NoBody(after);
      assert ([body] + after)[1..] == after;
      assert [] + [body] + after == [body] + after;
      assert [] + after == after;
    } else {
      assert (before + [body] + after)[1..] == before[1..] + [body] + after;
      assert (before + after)[1..] == before[1..] + after;
      BodyPlace(before[1..], body, after);
    }
  }

  lemma {:induction false} NoBody(ss: seq<Span>)
    requires AllSequences(ss)
    ensures Bodies(ss) == 0
  {
    if ss != [] {
      NoBody(ss[1..]);
    }
  }

  // ----------------------------------------------------------------- reading a frame

  predicate HandshakeName(key: string) { key == "hello" || key == "isMaster" || key == "ismaster" }

  /** The body of a legacy query, after the flags: only the handshake commands. */
  function LegacyBody(p: bytes): Option<Doc>
  {
    var end := NulIndex(p);
    if end == |p| || Text(p[..end]) != "admin.$cmd" then None
    else
      var q := p[end + 1..];
      if |q| < 8 || U32(q) != 0 then None
      else if U32(q[4..]) != TWO_32 - 1 && U32(q[4..]) != 1 then None
      else
        match ReadDocument(q[8..])
        case None => None
        case Some((d, used)) =>
          if used == |q| - 8 && d != [] && HandshakeName(d[0].key) then Some(d) else None
  }

  /** Sections of a modern message, as one command. */
  function SectionsBody(p: bytes): Option<Doc>
  {
    match ReadSections(p)
    case None => None
    case Some(ss) => Assemble(ss)
  }

  /** The body of an OP_MSG: p starts with the flag bits and ends with the checksum when they announce one. */
  function ModernBody(header: bytes, p: bytes, crc: bytes -> word32): Option<Doc>
    requires |p| >= 4
  {
    if U32(p) > 1 then None
    else if U32(p) == 0 then SectionsBody(p[4..])
    else if |p| < 8 || crc(header + p[..|p| - 4]) != U32(p[|p| - 4..]) then None
    else SectionsBody(p[4..|p| - 4])
  }

  /** A whole frame, header included. */
  function Decode(frame: bytes, crc: bytes -> word32): Option<Message>
    requires |frame| >= 20
  {
    var op := Signed32(Word(frame[12..]));
    var p := frame[16..];
    var body := if op == OP_QUERY then if U32(p) == 0 || U32(p) == 4 then LegacyBody(p[4..]) else None
                else if op == OP_MSG then ModernBody(frame[..16], p, crc)
                else None;
    match body
    case None => None
    case Some(d) => Some(Message(Signed32(Word(frame[4..])), Signed32(Word(frame[8..])), op, Word(p), d))
  }

  /** mongoReadMessageLimit: the message at the front of the stream, and what follows it. */
  function ReadMessage(input: bytes, limit: int, crc: bytes -> word32): Option<(Message, bytes)>
  {
    if limit <= 0 || limit > MAX_MESSAGE || |input| < 16 then None
    else
      var n := U32(input);
      if n < 20 || n > limit || n > |input| then None
      else
        match Decode(input[..n], crc)
        case None => None
        case Some(m) => Some((m, input[n..]))
  }

  /** A set checksum bit with the right checksum changes nothing but the flags. */
  lemma ChecksumIsTransparent(header: bytes, sections: bytes, crc: bytes -> word32)
    ensures var plain := Le4(0) + sections;
            var flagged := Le4(1) + sections;
            ModernBody(header, flagged + Le4(crc(header + flagged)), crc) == ModernBody(header, plain, crc)
    ensures forall wrong: word32 :: wrong != crc(header + (Le4(1) + sections)) ==>
              ModernBody(header, Le4(1) + sections + Le4(wrong), crc) == None
  {
    hide Le, Unsigned, SectionsBody;
    var flagged := Le4(1) + sections;
    U32Le4(0, sections);
    assert (Le4(0) + sections)[4..] == sections;
    forall sum: word32
      ensures ModernBody(header, flagged + Le4(sum), crc) ==
              if sum == crc(header + flagged) then SectionsBody(sections) else None
    {
      var p := flagged + Le4(sum);
      assert p == Le4(1) + (sections + Le4(sum));
      U32Le4(1, sections + Le4(sum));
      assert p[|p| - 4..] == Le4(sum) + [];
      U32Le4(sum, []);
      assert p[..|p| - 4] == flagged;
      assert p[4..|p| - 4] == sections;
    }
  }

  // ---------------------------------------------------------------- writing a message

  /** The bytes of one message: OP_MSG, or the legacy reply; None when it does not fit. */
  function MessageBytes(id: int32, responseTo: int32, legacy: bool, body: Doc, sequence: Option<bytes>): Option<bytes>
  {
    match Marshal(body)
    case None => None
    case Some(d) =>
      var tail := if sequence.Some? then sequence.value else [];
      var prefix := if legacy then 36 else 21;
      if sequence.Some? && |d| > MAX_DOCUMENT then None
      else if |d| > MAX_MESSAGE - prefix - |tail| then None
      else
        Some(Le4(prefix + |d| + |tail|) + (Le4(Word32(id)) + (Le4(Word32(responseTo)) +
             if legacy then Le4(1) + (Le(0, 16) + (Le4(1) + (d + tail))) else Le4(OP_MSG) + (Le(0, 5) + (d + tail)))))
  }

  /** The array that a bulk write carries outside its body. */
  function BulkField(body: Doc): string
  {
    if body == [] then ""
    else if body[0].key == "insert" then "documents"
    else if body[0].key == "update" then "updates"
    else if body[0].key == "delete" then "deletes"
    else ""
  }

  function Without(d: Doc, key: string): Doc
  {
    if d == [] then [] else (if d[0].key == key then [] else [d[0]]) + Without(d[1..], key)
  }

  function CountKey(d: Doc, key: string): nat
  {
    if d == [] then 0 else (if d[0].key == key then 1 else 0) + CountKey(d[1..], key)
  }

  /** The documents of a bulk write one after the other, `used` bytes of the section being taken already. */
  function BatchBytes(items: seq<Value>, used: nat): Option<bytes>
  {
    if items == [] then Some([])
    else if !items[0].Document? then None
    else
      match Marshal(items[0].fields)
      case None => None
      case Some(enc) =>
        if |enc| > MAX_DOCUMENT || |enc| > MAX_MESSAGE - 21 - used || Parse(enc, 1).None? then None
        else
          match BatchBytes(items[1..], used + |enc|)
          case None => None
          case Some(more) => Some(enc + more)
  }

  function SequenceBytes(name: string, items: seq<Value>): Option<bytes>
  {
    match BatchBytes(items, 6 + |name|)
    case None => None
    case Some(batch) => Some([1] + Le4(5 + |name| + |batch|) + Raw(name) + [0] + batch)
  }

  /** mongoWriteCommand: a bulk write's array travels as a kind-1 section. */
  function CommandBytes(id: int32, body: Doc): Option<bytes>
  {
    var field := BulkField(body);
    if field == "" then MessageBytes(id, 0, false, body, None)
    else if CountKey(body, field) != 1 || !Get(body, field).Array? then None
    else
      match SequenceBytes(field, Get(body, field).items)
      case None => None
      case Some(sequence) => MessageBytes(id, 0, false, Without(body, field), Some(sequence))
  }

  /** The command as it comes out of the reader: the bulk array, if any, moved to the end. */
  function Reordered(body: Doc): Doc
  {
    var field := BulkField(body);
    if field == "" then body else Without(body, field) + [Field(field, Get(body, field))]
  }

  // ------------------------------------------------------------------------ round trip

  predicate BatchUnique(items: seq<Value>)
  {
    forall i :: 0 <= i < |items| && items[i].Document? ==> UniqueKeys(items[i].fields)
  }

  /** What the reader asks beyond what the writer already checked: unique keys, and the nesting of the body. */
  predicate Readable(body: Doc)
  {
    var field := BulkField(body);
    && UniqueKeys(body)
    && Nesting(if field == "" then body else Without(body, field)) <= DEPTH_LIMIT
    && (field != "" && Get(body, field).Array? ==> BatchUnique(Get(body, field).items))
  }

  function FieldsOf(items: seq<Value>): (docs: seq<Doc>)
    requires forall i :: 0 <= i < |items| ==> items[i].Document?
    ensures |docs| == |items| && forall i :: 0 <= i < |items| ==> docs[i] == items[i].fields
  {
    seq(|items|, i requires 0 <= i < |items| => items[i].fields)
  }

  lemma {:induction false} BatchReadsBack(items: seq<Value>, used: nat)
    requires BatchBytes(items, used).Some? && Representable(Array(items))
    ensures forall i :: 0 <= i < |items| ==> items[i].Document?
    ensures var batch := BatchBytes(items, used).value;
            && |batch| + used <= Max(MAX_MESSAGE - 21, used)
            && ReadDocuments(batch) ==
               if BatchUnique(items) then Some(FieldsOf(items)) else None
    decreases |items|
  {
    hide Parse, Le, Unsigned, ReadDocument, Print, Representable, MarshalableDoc;
    if items == [] {
      assert FieldsOf(items) == [];
    } else {
      var d := items[0].fields;
      var enc := Marshal(d).value;
      var more := BatchBytes(items[1..], used + |enc|).value;
      RepresentableItem(items, 0);
      RepresentableTail(items);
      BatchReadsBack(items[1..], used + |enc|);
      ParsePrintedDoc(d);
      ReadDocumentPrinted(d, more);
      assert (enc + more)[|enc|..] == more;
      assert BatchUnique(items) <==> UniqueKeys(d) && BatchUnique(items[1..]) by {
        assert forall i :: 0 < i < |items| ==> items[i] == items[1..][i - 1];
      }
      assert FieldsOf(items) == [d] + FieldsOf(items[1..]);
    }
  }

  lemma RepresentableItem(items: seq<Value>, i: nat)
    requires Representable(Array(items)) && i < |items| && items[i].Document?
    ensures RepresentableDoc(items[i].fields)
  {
    assert Representable(items[i]);
  }

  lemma RepresentableTail(items: seq<Value>)
    requires Representable(Array(items)) && items != []
    ensures Representable(Array(items[1..]))
  {
  }

  lemma ParsePrintedDoc(d: Doc)
    requires RepresentableDoc(d) && MarshalableDoc(d) && |Print(ToTree(d))| < TWO_32
    ensures Parse(Print(ToTree(d)), 1).Some? <==> Nesting(d) <= DEPTH_LIMIT
  {
    hide Le, Unsigned, ToElements, FromElements, PrintElements, ElementsHeight, Parse;
    ElementsRoundTrip(d);
    ParsePrinted(ToTree(d), 1);
  }

  lemma HeaderWord(n: int32, rest: bytes)
    ensures Signed32(Word(Le4(Word32(n)) + rest)) == n
  {
    hide Le, Unsigned;
    U32Le4(Word32(n), rest);
  }

  lemma Peel(front: bytes, rest: bytes)
    ensures (front + rest)[|front|..] == rest
  {
  }

  /** The bytes after the flags of a written OP_MSG. */
  function SectionBytes(body: Doc, sequence: Option<bytes>): bytes
    requires Marshal(body).Some?
  {
    [0] + (Marshal(body).value + (if sequence.Some? then sequence.value else []))
  }

  lemma FrameLayout(id: int32, responseTo: int32, body: Doc, sequence: Option<bytes>)
    requires MessageBytes(id, responseTo, false, body, sequence).Some?
    ensures Marshal(body).Some?
    ensures var frame := MessageBytes(id, responseTo, false, body, sequence).value;
            && 21 <= |frame| <= MAX_MESSAGE
            && frame == Le4(|frame|) + frame[4..]
            && frame[4..] == Le4(Word32(id)) + frame[8..]
            && frame[8..] == Le4(Word32(responseTo)) + frame[12..]
            && frame[12..] == Le4(OP_MSG) + frame[16..]
            && frame[16..] == Le4(0) + SectionBytes(body, sequence)
  {
    hide Le, Marshal, Word32;
    var frame := MessageBytes(id, responseTo, false, body, sequence).value;
    var rest := Marshal(body).value + (if sequence.Some? then sequence.value else []);
    FiveZeros();
    assert Le(0, 5) + rest == Le4(0) + ([0] + rest);
    var p16 := Le4(0) + ([0] + rest);
    var p12 := Le4(OP_MSG) + p16;
    var p8 := Le4(Word32(responseTo)) + p12;
    var p4 := Le4(Word32(id)) + p8;
    Peel(Le4(|frame|), p4);
    Peel(Le4(Word32(id)), p8);
    Peel(Le4(Word32(responseTo)), p12);
    Peel(Le4(OP_MSG), p16);
    assert frame[8..] == frame[4..][4..] && frame[12..] == frame[8..][4..] && frame[16..] == frame[12..][4..];
  }

  /** A written OP_MSG frame, as its reader sees it. */
  lemma FrameReadsBack(id: int32, responseTo: int32, body: Doc, sequence: Option<bytes>, crc: bytes -> word32)
    requires MessageBytes(id, responseTo, false, body, sequence).Some?
    ensures Marshal(body).Some?
    ensures var frame := MessageBytes(id, responseTo, false, body, sequence).value;
            && 21 <= |frame| <= MAX_MESSAGE && U32(frame) == |frame|
            && Decode(frame, crc) ==
               match SectionsBody(SectionBytes(body, sequence))
               case None => None
               case Some(d) => Some(Message(id, responseTo, OP_MSG, 0, d))
  {
    hide Le, Le4, U32, Unsigned, Marshal, SectionsBody, MessageBytes, Word32, LegacyBody, SectionBytes;
    var frame := MessageBytes(id, responseTo, false, body, sequence).value;
    FrameLayout(id, responseTo, body, sequence);
    var sections := SectionBytes(body, sequence);
    U32Le4(|frame|, frame[4..]);
    HeaderWord(id, frame[8..]);
    HeaderWord(responseTo, frame[12..]);
    U32Le4(OP_MSG, frame[16..]);
    U32Le4(0, sections);
    Peel(Le4(0), sections);
  }

  lemma FiveZeros()
    ensures Le(0, 5) == Le4(0) + [0]
  {
    assert Le(0, 1) == [0];
    assert Le(0, 2) == [0, 0];
    assert Le(0, 3) == [0, 0, 0];
    assert Le(0, 4) == [0, 0, 0, 0];
  }

  lemma LoneBody(span: Span)
    requires span.section.BodySection?
    ensures Bodies([span]) == 1 && BodyOf([span]) == span.section.doc && SequenceFields([span]) == []
  {
    assert [span][1..] == [];
    assert Bodies([span]) == 1;
    assert BodyOf([span]) == span.section.doc;
    assert SequenceFields([span]) == [];
  }

  /** A body section with nothing after it. */
  lemma PlainSections(body: Doc)
    requires RepresentableDoc(body) && MarshalableDoc(body) && |Print(ToTree(body))| < TWO_32
    ensures SectionsBody(SectionBytes(body, None)) ==
            if Nesting(body) <= DEPTH_LIMIT && UniqueKeys(body) then Some(body) else None
  {
    hide Unsigned, ReadDocument, Print, RepresentableDoc, MarshalableDoc, Height, ReadSection;
    var enc := Print(ToTree(body));
    var p := SectionBytes(body, None);
    BodyThenTail(body, []);
    if Nesting(body) <= DEPTH_LIMIT && UniqueKeys(body) {
      var span := Span(BodySection(body), p[..|enc| + 1]);
      assert p[|span.raw|..] == [];
      assert ReadSections(p) == Some([span] + []);
      assert [span] + [] == [span];
      LoneBody(span);
      assert body + [] == body;
    }
  }

  /** A body section followed by one batch. */
  lemma BulkSections(control: Doc, name: string, items: seq<Value>)
    requires RepresentableDoc(control) && MarshalableDoc(control) && |Print(ToTree(control))| < TWO_32
    requires Representable(Array(items)) && SequenceBytes(name, items).Some? && BulkName(name)
    ensures SectionsBody(SectionBytes(control, SequenceBytes(name, items))) ==
            if Nesting(control) <= DEPTH_LIMIT && BatchUnique(items)
              && UniqueKeys(control + [Field(name, Array(items))])
            then Some(control + [Field(name, Array(items))]) else None
  {
    hide Unsigned, ReadDocument, Print, RepresentableDoc, MarshalableDoc, Height, ReadSection, SequenceBytes,
         BatchUnique, Representable, BulkName;
    var enc := Print(ToTree(control));
    var tail := SequenceBytes(name, items).value;
    var p := SectionBytes(control, Some(tail));
    BodyThenTail(control, tail);
    SequenceReadsBack(name, items);
    OneSequence(name, items);
    if Nesting(control) <= DEPTH_LIMIT && UniqueKeys(control) {
      var span := Span(BodySection(control), p[..|enc| + 1]);
      assert p[|span.raw|..] == tail;
      if BatchUnique(items) {
        var second := Span(Sequence(name, FieldsOf(items)), tail);
        assert ReadSections(p) == Some([span] + [second]);
        TwoSections(span, second);
        assert DocumentValues(FieldsOf(items)) == items;
      }
    }
    if UniqueKeys(control + [Field(name, Array(items))]) {
      UniqueFront(control, Field(name, Array(items)));
    }
  }

  lemma OneSequence(name: string, items: seq<Value>)
    requires Representable(Array(items)) && SequenceBytes(name, items).Some? && BulkName(name)
    ensures var tail := SequenceBytes(name, items).value;
            ReadSections(tail) ==
            if BatchUnique(items) && (forall i :: 0 <= i < |items| ==> items[i].Document?)
            then Some([Span(Sequence(name, FieldsOf(items)), tail)]) else None
  {
    hide Unsigned, ReadDocument, ReadSection, SequenceBytes, BatchUnique, Representable, BulkName;
    var tail := SequenceBytes(name, items).value;
    SequenceReadsBack(name, items);
    assert tail[|tail|..] == [];
    if BatchUnique(items) {
      var span := Span(Sequence(name, FieldsOf(items)), tail);
      assert ReadSections(tail) == Some([span] + []);
      assert [span] + [] == [span];
    }
  }

  lemma UniqueFront(d: Doc, f: Field)
    requires UniqueKeys(d + [f])
    ensures UniqueKeys(d)
  {
    forall i, j | 0 <= i < j < |d| ensures d[i].key != d[j].key {
      assert (d + [f])[i] == d[i] && (d + [f])[j] == d[j];
    }
  }

  lemma BodyThenTail(control: Doc, tail: bytes)
    requires RepresentableDoc(control) && MarshalableDoc(control) && |Print(ToTree(control))| < TWO_32
    ensures var enc := Print(ToTree(control));
            var p: bytes := [0] + (enc + tail);
            ReadSection(p) == if Nesting(control) <= DEPTH_LIMIT && UniqueKeys(control)
                              then Some(Span(BodySection(control), p[..|enc| + 1])) else None
  {
    hide Unsigned, ReadDocument, Print, RepresentableDoc, MarshalableDoc, Height;
    var enc := Print(ToTree(control));
    var p: bytes := [0] + (enc + tail);
    assert p[1..] == enc + tail;
    ReadDocumentPrinted(control, tail);
  }

  lemma TwoSections(a: Span, b: Span)
    requires a.section.BodySection? && b.section.Sequence?
    ensures var ss := [a] + [b];
            && Bodies(ss) == 1 && BodyOf(ss) == a.section.doc
            && SequenceFields(ss) == [Field(b.section.name, Array(DocumentValues(b.section.docs)))]
  {
    assert ([a] + [b])[1..] == [b];
    assert [b][1..] == [];
    assert Bodies([b]) == 0;
    assert SequenceFields([b]) == [Field(b.section.name, Array(DocumentValues(b.section.docs)))] + SequenceFields([]);
  }

  predicate BulkName(name: string) { name == "documents" || name == "updates" || name == "deletes" }

  predicate Letters(s: string) { forall i :: 0 <= i < |s| ==> 'a' <= s[i] <= 'z' }

  lemma DocumentsLetters()
    ensures Letters("documents")
  {
  }

  lemma BulkNameLetters(name: string)
    requires BulkName(name)
    ensures Letters(name) && 0 < |name| < 10
  {
    DocumentsLetters();
    assert Letters("updates") && Letters("deletes");
  }

  lemma BulkNameOctets(name: string)
    requires BulkName(name)
    ensures IsText(name) && '\0' !in name && '.' !in name && 0 < |name| < 10
    ensures forall i :: 0 <= i < |name| ==> Raw(name)[i] < 0x80
  {
    hide BulkName;
    BulkNameLetters(name);
  }

  /** Where the parts of a kind-1 section stand. */
  lemma SequenceLayout(name: string, batch: bytes, size: nat)
    requires size == 5 + |name| + |batch| && size < TWO_32
    ensures var tail := [1] + Le4(size) + Raw(name) + [0] + batch;
            && |tail| == size + 1 && tail[0] == 1 && U32(tail[1..]) == size
            && tail[5..size + 1] == Raw(name) + [0] + batch && tail[..size + 1] == tail
  {
    hide Le, Unsigned, Raw;
    var inner := Raw(name) + [0] + batch;
    var tail := [1] + Le4(size) + Raw(name) + [0] + batch;
    assert tail[1..] == Le4(size) + inner;
    U32Le4(size, inner);
    assert tail[5..size + 1] == inner;
  }

  /** What stands inside a kind-1 section. */
  lemma SequenceInside(name: string, batch: bytes)
    requires BulkName(name)
    ensures ReadSequence(Raw(name) + [0] + batch) ==
            match ReadDocuments(batch) case None => None case Some(docs) => Some(Sequence(name, docs))
  {
    hide Raw, Text, ReadDocuments, BulkName;
    BulkNameOctets(name);
    var inner := Raw(name) + [0] + batch;
    RawNul(name);
    NulIndexAfter(Raw(name), batch);
    assert inner[..|name|] == Raw(name);
    assert inner[|name| + 1..] == batch;
    AsciiIsUtf8(Raw(name));
    TextRaw(name);
  }

  lemma SequenceReadsBack(name: string, items: seq<Value>)
    requires Representable(Array(items)) && SequenceBytes(name, items).Some? && BulkName(name)
    ensures var tail := SequenceBytes(name, items).value;
            && tail != []
            && (BatchUnique(items) ==> forall i :: 0 <= i < |items| ==> items[i].Document?)
            && ReadSection(tail) ==
              if BatchUnique(items) then Some(Span(Sequence(name, FieldsOf(items)), tail)) else None
  {
    hide Le, Unsigned, ReadDocument, Raw, Text, Representable, BatchUnique, BatchBytes, ReadDocuments, BulkName,
         ReadSequence;
    var batch := BatchBytes(items, 6 + |name|).value;
    BatchReadsBack(items, 6 + |name|);
    BulkNameOctets(name);
    SequenceLayout(name, batch, 5 + |name| + |batch|);
    SequenceInside(name, batch);
  }

  // ----------------------------------------------------- taking the bulk array out of a body

  lemma {:induction false} WithoutAbsent(d: Doc, key: string)
    requires CountKey(d, key) == 0
    ensures Without(d, key) == d && !Present(d, key)
  {
    if d != [] {
      WithoutAbsent(d[1..], key);
      assert d == [d[0]] + d[1..];
    }
  }

  /** Where the only field with that key stands. */
  lemma {:induction false} WithoutOne(d: Doc, key: string) returns (i: nat)
    requires CountKey(d, key) == 1
    ensures i < |d| && d[i].key == key && Get(d, key) == d[i].value && Without(d, key) == d[..i] + d[i + 1..]
    ensures !Present(Without(d, key), key)
  {
    if d[0].key == key {
      i := 0;
      WithoutAbsent(d[1..], key);
    } else {
      var j := WithoutOne(d[1..], key);
      i := j + 1;
      assert d[..i] == [d[0]] + d[1..][..j];
      assert d[i + 1..] == d[1..][j + 1..];
      assert Without(d, key) == [d[0]] + Without(d[1..], key);
    }
  }

  lemma UniqueWithout(d: Doc, key: string)
    requires CountKey(d, key) == 1
    ensures UniqueKeys(d) <==> UniqueKeys(Without(d, key) + [Field(key, Get(d, key))])
  {
    var k := WithoutOne(d, key);
    var w := Without(d, key);
    var r := w + [Field(key, Get(d, key))];
    if UniqueKeys(d) {
      forall i, j | 0 <= i < j < |r| ensures r[i].key != r[j].key {
        var a := if i < k then i else i + 1;
        assert r[i] == d[a];
        if j < |w| {
          var b := if j < k then j else j + 1;
          assert r[j] == d[b] && a < b;
        }
      }
    }
    if UniqueKeys(r) {
      forall a, b | 0 <= a < b < |d| ensures d[a].key != d[b].key {
        if a == k {
          assert d[b] == w[b - 1] && w[b - 1].key != key;
        } else if b == k {
          assert d[a] == w[a] && w[a].key != key;
        } else {
          var i, j := if a < k then a else a - 1, if b < k then b else b - 1;
          assert r[i] == d[a] && r[j] == d[b] && i < j;
        }
      }
    }
  }

  lemma WithoutFits(body: Doc, key: string)
    requires CountKey(body, key) == 1 && RepresentableDoc(body)
    ensures RepresentableDoc(Without(body, key)) && Representable(Get(body, key))
  {
    hide Representable;
    var i := WithoutOne(body, key);
    assert forall k :: 0 <= k < |Without(body, key)| ==> Without(body, key)[k] in body;
  }

  /**
   * Writing a command and reading the stream back gives the same id and the same command, with only a bulk
   * write's array moved to the end; it does so exactly when the keys of the body and of each batch document are
   * unique and the body is nested no deeper than the limit. What follows the frame is left in the stream, and
   * the length header equals the bytes written.
   */
  lemma RoundTrip(id: int32, body: Doc, rest: bytes, limit: int, crc: bytes -> word32)
    requires RepresentableDoc(body) && CommandBytes(id, body).Some?
    requires |CommandBytes(id, body).value| <= limit <= MAX_MESSAGE
    ensures var frame := CommandBytes(id, body).value;
            && U32(frame) == |frame| <= 48_000_000
            && ReadMessage(frame + rest, limit, crc) ==
               if Readable(body) then Some((Message(id, 0, OP_MSG, 0, Reordered(body)), rest)) else None
  {
    hide Le, Unsigned, MessageBytes, Marshal, SequenceBytes, SectionsBody, RepresentableDoc, Height, Decode,
         BatchUnique, Representable, MarshalableDoc;
    var frame := CommandBytes(id, body).value;
    var field := BulkField(body);
    if field == "" {
      FrameReadsBack(id, 0, body, None, crc);
      BodyFits(id, body, None);
      PlainSections(body);
    } else {
      var control, items := Without(body, field), Get(body, field).items;
      var tail := SequenceBytes(field, items);
      FrameReadsBack(id, 0, control, tail, crc);
      BodyFits(id, control, tail);
      WithoutFits(body, field);
      BulkSections(control, field, items);
      UniqueWithout(body, field);
    }
    assert (frame + rest)[..|frame|] == frame;
    assert (frame + rest)[|frame|..] == rest;
    assert (frame + rest)[..4] == frame[..4];
  }

  lemma BodyFits(id: int32, body: Doc, sequence: Option<bytes>)
    requires MessageBytes(id, 0, false, body, sequence).Some?
    ensures MarshalableDoc(body) && |Print(ToTree(body))| < TWO_32
  {
    hide Le, Print, MarshalableDoc;
  }

  /** Every frame written, a legacy reply included, announces its own length. */
  lemma LengthHeader(id: int32, responseTo: int32, legacy: bool, body: Doc, sequence: Option<bytes>)
    requires MessageBytes(id, responseTo, legacy, body, sequence).Some?
    ensures var frame := MessageBytes(id, responseTo, legacy, body, sequence).value;
            4 <= |frame| <= MAX_MESSAGE && U32(frame) == |frame|
  {
    hide Le, Unsigned, Marshal, Word32;
    var frame := MessageBytes(id, responseTo, legacy, body, sequence).value;
    assert frame[..4] == Le4(|frame|);
    U32Le4(|frame|, frame[4..]);
  }

  /** An accepted section list: tiled exactly, one body, no key twice, sequences after the body in wire order. */
  lemma AcceptedSectionsAreCanonical(p: bytes)
    requires SectionsBody(p).Some?
    ensures ReadSections(p).Some?
    ensures var ss := ReadSections(p).value;
            && Concat(ss) == p && Bodies(ss) == 1
            && (forall i :: 0 <= i < |ss| ==> ss[i].raw != [] && ReadSection(ss[i].raw) == Some(ss[i]))
            && SectionsBody(p).value == BodyOf(ss) + SequenceFields(ss)
            && UniqueKeys(SectionsBody(p).value)
  {
    hide ReadSection, ReadSections;
    SectionsTile(p);
  }
}
