/** The reader and the writer as the tunnel runs them, loop by loop, against the functions of module Wire. */
module WireLoops {
  import opened Values
  import opened Octets
  import opened BsonTree
  import opened BsonCodec
  import opened Wire

  // ----------------------------------------------------------------------- reading

  function KeySet(d: Doc): set<string> { set k | 0 <= k < |d| :: d[k].key }

  lemma KeySetAppend(d: Doc, f: Field)
    ensures KeySet(d + [f]) == KeySet(d) + {f.key}
    ensures UniqueKeys(d + [f]) <==> UniqueKeys(d) && f.key !in KeySet(d)
  {
    var all := d + [f];
    assert all[|d|] == f;
    assert forall k :: 0 <= k < |d| ==> all[k] == d[k];
    assert forall key :: key in KeySet(d) ==> key in KeySet(all);
  }

  /** The duplicate check of a decoded document: one pass with the keys seen so far. */
  method HasUniqueKeys(d: Doc, more: Doc) returns (ok: bool)
    requires UniqueKeys(d)
    ensures ok <==> UniqueKeys(d + more)
  {
    var seen := KeySet(d);
    assert d + more[..0] == d;
    for i := 0 to |more|
      invariant seen == KeySet(d + more[..i])
      invariant UniqueKeys(d + more[..i])
    {
      KeySetAppend(d + more[..i], more[i]);
      assert d + more[..i + 1] == d + more[..i] + [more[i]];
      if more[i].key in seen {
        assert d + more == d + more[..i + 1] + more[i + 1..];
        if UniqueKeys(d + more) {
          UniquePrefix(d + more[..i + 1], more[i + 1..]);
        }
        return false;
      }
      seen := seen + {more[i].key};
    }
    assert d + more[..|more|] == d + more;
    return true;
  }

  lemma UniquePrefix(d: Doc, more: Doc)
    requires UniqueKeys(d + more)
    ensures UniqueKeys(d)
  {
    assert forall k :: 0 <= k < |d| ==> (d + more)[k] == d[k];
  }

  /** mongoReadDocument: validate the announced bytes, decode them, refuse duplicate keys. */
  method ReadOneDocument(p: bytes) returns (r: Option<(Doc, nat)>)
    ensures r == ReadDocument(p)
  {
    hide Unsigned;
    if |p| < 5 {
      return None;
    }
    var n := U32(p);
    if n < 5 || n > |p| {
      return None;
    }
    var valid := ValidateBSON(p[..n], 1);
    if !valid {
      return None;
    }
    ParseSound(p[..n], 1);
    var d := FromElements(Parse(p[..n], 1).value.elements);
    if d.None? {
      return None;
    }
    var unique := HasUniqueKeys([], d.value);
    assert [] + d.value == d.value;
    return if unique then Some((d.value, n)) else None;
  }

  method ReadBatch(section: bytes) returns (r: Option<seq<Doc>>)
    ensures r == ReadDocuments(section)
  {
    hide ReadDocument;
    var docs: seq<Doc> := [];
    var p := section;
    assert forall more: seq<Doc> :: docs + more == more;
    while p != []
      invariant ReadDocuments(section) ==
                match ReadDocuments(p)
                case None => None
                case Some(more) => Some(docs + more)
      decreases |p|
    {
      var next := ReadOneDocument(p);
      if next.None? {
        return None;
      }
      var (d, used) := next.value;
      assert forall more: seq<Doc> :: docs + ([d] + more) == docs + [d] + more;
      docs := docs + [d];
      p := p[used..];
    }
    assert docs + [] == docs;
    return Some(docs);
  }

  lemma {:induction false} BodiesAppend(a: seq<Span>, b: seq<Span>)
    ensures Bodies(a + b) == Bodies(a) + Bodies(b)
  {
    if a == [] {
      assert a + b == b;
    } else {
      assert (a + b)[1..] == a[1..] + b;
      BodiesAppend(a[1..], b);
    }
  }

  lemma {:induction false} SequenceFieldsAppend(a: seq<Span>, b: seq<Span>)
    ensures SequenceFields(a + b) == SequenceFields(a) + SequenceFields(b)
  {
    if a == [] {
      assert a + b == b;
    } else {
      assert (a + b)[1..] == a[1..] + b;
      SequenceFieldsAppend(a[1..], b);
    }
  }

  lemma {:induction false} BodyOfAppend(a: seq<Span>, s: Span)
    ensures BodyOf(a + [s]) == if s.section.BodySection? then s.section.doc else BodyOf(a)
  {
    if a == [] {
      assert a + [s] == [s];
      assert [s][1..] == [];
    } else {
      assert (a + [s])[1..] == a[1..] + [s];
      BodiesAppend(a[1..], [s]);
      assert [s][1..] == [];
      BodyOfAppend(a[1..], s);
    }
  }

  /** What the loop knows after reading the sections `ss`. */
  ghost predicate Collected(ss: seq<Span>, body: Doc, found: bool, sequences: Doc)
  {
    && Bodies(ss) == (if found then 1 else 0) && BodyOf(ss) == body && UniqueKeys(body)
    && SequenceFields(ss) == sequences
  }

  lemma CollectedStep(ss: seq<Span>, body: Doc, found: bool, sequences: Doc, s: Span)
    requires Collected(ss, body, found, sequences)
    requires s.section.BodySection? ==> !found && UniqueKeys(s.section.doc)
    ensures match s.section
            case BodySection(doc) => Collected(ss + [s], doc, true, sequences)
            case Sequence(name, docs) =>
              Collected(ss + [s], body, found, sequences + [Field(name, Array(DocumentValues(docs)))])
  {
    BodiesAppend(ss, [s]);
    BodyOfAppend(ss, s);
    SequenceFieldsAppend(ss, [s]);
    assert [s][1..] == [];
    assert Bodies([s]) == if s.section.BodySection? then 1 else 0;
    if s.section.Sequence? {
      assert SequenceFields([s]) == [Field(s.section.name, Array(DocumentValues(s.section.docs)))] + SequenceFields([]);
    }
  }

  lemma NothingCollected()
    ensures Collected([], [], false, [])
  {
  }

  lemma CollectedMeans(ss: seq<Span>, body: Doc, found: bool, sequences: Doc)
    requires Collected(ss, body, found, sequences)
    ensures Assemble(ss) == if found && UniqueKeys(body + sequences) then Some(body + sequences) else None
    ensures UniqueKeys(body)
  {
  }

  /** Once a body has been read, a second kind-0 section refuses the message whatever it holds. */
  lemma SecondBody(payload: bytes, p: bytes, ss: seq<Span>, body: Doc, sequences: Doc)
    requires Collected(ss, body, true, sequences) && p != [] && p[0] == 0
    requires ReadSections(payload) ==
             match ReadSections(p)
             case None => None
             case Some(more) => Some(ss + more)
    ensures SectionsBody(payload) == None
  {
    hide ReadDocument, Unsigned, NulIndex, ReadSequence;
    if ReadSections(p).Some? {
      var more := ReadSections(p).value;
      assert more[0].section.BodySection?;
      BodiesAppend(ss, more);
    }
  }

  /** One section: what it holds and how many bytes it takes. */
  method ReadOneSection(p: bytes) returns (r: Option<(Section, nat)>)
    requires p != []
    ensures r == match ReadSection(p)
                 case None => None
                 case Some(s) => Some((s.section, |s.raw|))
  {
    hide ReadDocument, Unsigned, NulIndex, ValidUtf8, Text, ReadDocuments;
    var rest := p[1..];
    if p[0] == 0 {
      var doc := ReadOneDocument(rest);
      if doc.None? {
        return None;
      }
      return Some((BodySection(doc.value.0), doc.value.1 + 1));
    } else if p[0] == 1 {
      if |rest| < 5 {
        return None;
      }
      var size := U32(rest);
      if size < 5 || size > |rest| {
        return None;
      }
      var section := rest[4..size];
      assert section == p[5..size + 1];
      var found := IndexOfNul(section);
      if found.None? {
        return None;
      }
      var end := found.value;
      if end == 0 || !ValidUtf8(section[..end]) || '.' in Text(section[..end]) {
        return None;
      }
      var docs := ReadBatch(section[end + 1..]);
      if docs.None? {
        return None;
      }
      return Some((Sequence(Text(section[..end]), docs.value), size + 1));
    } else {
      return None;
    }
  }

  /** The section loop of mongoReadMessageLimit and the merge after it. */
  method CollectSections(payload: bytes) returns (r: Option<Doc>)
    ensures r == SectionsBody(payload)
  {
    hide ReadSection, Collected, Assemble;
    var p := payload;
    var body, found, sequences: Doc := [], false, [];
    ghost var ss: seq<Span> := [];
    NothingCollected();
    assert forall more: seq<Span> :: ss + more == more;
    while p != []
      invariant Collected(ss, body, found, sequences)
      invariant ReadSections(payload) ==
                match ReadSections(p)
                case None => None
                case Some(more) => Some(ss + more)
      decreases |p|
    {
      if p[0] == 0 && found {
        SecondBody(payload, p, ss, body, sequences);
        return None;
      }
      var section := ReadOneSection(p);
      if section.None? {
        return None;
      }
      ghost var s := ReadSection(p).value;
      SectionForm(p);
      CollectedStep(ss, body, found, sequences, s);
      match section.value.0 {
        case BodySection(doc) =>
          body, found := doc, true;
        case Sequence(name, docs) =>
          sequences := sequences + [Field(name, Array(DocumentValues(docs)))];
      }
      assert forall more: seq<Span> :: ss + ([s] + more) == ss + [s] + more;
      ss := ss + [s];
      p := p[section.value.1..];
    }
    assert ss + [] == ss;
    CollectedMeans(ss, body, found, sequences);
    if !found {
      return None;
    }
    var unique := HasUniqueKeys(body, sequences);
    return if unique then Some(body + sequences) else None;
  }

  lemma SectionForm(p: bytes)
    requires p != [] && ReadSection(p).Some?
    ensures var s := ReadSection(p).value.section;
            (s.BodySection? <==> p[0] == 0) && (s.BodySection? ==> UniqueKeys(s.doc))
  {
    hide ReadDocument, Unsigned;
  }

  /** bytes.IndexByte for the zero byte: None when there is none. */
  method IndexOfNul(p: bytes) returns (end: Option<nat>)
    ensures end == if NulIndex(p) == |p| then None else Some(NulIndex(p))
  {
    for k := 0 to |p|
      invariant 0 !in p[..k]
    {
      if p[k] == 0 {
        FirstNul(p, k);
        return Some(k);
      }
    }
    FirstNul(p, |p|);
    return None;
  }

  lemma FirstNul(p: bytes, k: nat)
    requires k <= |p| && 0 !in p[..k] && (k < |p| ==> p[k] == 0)
    ensures NulIndex(p) == k
  {
    var e := NulIndex(p);
    forall i | 0 <= i < k ensures p[i] != 0 {
      assert p[..k][i] == p[i];
    }
    forall i | 0 <= i < e ensures p[i] != 0 {
      assert p[..e][i] == p[i];
    }
  }

  /** The legacy branch: the name, the two counters, and one document that fills the rest. */
  method ReceiveLegacy(query: bytes) returns (body: Option<Doc>)
    ensures body == LegacyBody(query)
  {
    hide ReadDocument, Unsigned, NulIndex, Text;
    var p := query;
    var end := IndexOfNul(p);
    if end.None? || Text(p[..end.value]) != "admin.$cmd" {
      return None;
    }
    p := p[end.value + 1..];
    if |p| < 8 || U32(p) != 0 {
      return None;
    }
    var count := Signed32(Word(p[4..]));
    if count != -1 && count != 1 {
      return None;
    }
    var doc := ReadOneDocument(p[8..]);
    if doc.None? || doc.value.1 != |p| - 8 || |doc.value.0| == 0 {
      return None;
    }
    var d := doc.value.0;
    if d[0].key != "hello" && d[0].key != "isMaster" && d[0].key != "ismaster" {
      return None;
    }
    return Some(d);
  }

  /** mongoReadMessageLimit. */
  method ReceiveMessage(input: bytes, limit: int, crc: bytes -> word32) returns (r: Option<(Message, bytes)>)
    ensures r == ReadMessage(input, limit, crc)
  {
    hide SectionsBody, Unsigned, LegacyBody;
    if limit <= 0 || limit > MAX_MESSAGE || |input| < 16 {
      return None;
    }
    var n := U32(input);
    if n < 16 || n > limit || n > |input| || n - 16 < 4 {
      return None;
    }
    var frame, header, p := input[..n], input[..16], input[16..n];
    assert frame[..16] == header && frame[16..] == p;
    var id, responseTo := Signed32(Word(frame[4..])), Signed32(Word(frame[8..]));
    var op, flags := Signed32(Word(frame[12..])), Word(p);
    var body: Option<Doc> := None;
    if op == OP_QUERY {
      if flags == 0 || flags == 4 {
        body := ReceiveLegacy(p[4..]);
      }
    } else if op == OP_MSG && flags <= 1 {
      var sections := p[4..];
      if flags == 1 {
        if |p| < 8 || crc(header + p[..|p| - 4]) != U32(p[|p| - 4..]) {
          return None;
        }
        sections := p[4..|p| - 4];
      }
      body := CollectSections(sections);
    }
    if body.None? {
      return None;
    }
    return Some((Message(id, responseTo, op, flags, body.value), input[n..]));
  }

  // ----------------------------------------------------------------------- writing

  /**
   * A connection that takes, of each write, as much as its schedule says; a scheduled zero or less is a failed
   * write.
   */
  class Connection {
    var delivered: bytes
    var schedule: seq<int>

    constructor (schedule: seq<int>)
      ensures delivered == [] && this.schedule == schedule
    {
      this.delivered, this.schedule := [], schedule;
    }

    method Write(p: bytes) returns (n: int)
      modifies this
      ensures n == (if old(schedule) == [] then 0 else if old(schedule[0]) < |p| then old(schedule[0]) else |p|)
      ensures delivered == old(delivered) + p[..if n < 0 then 0 else n]
      ensures schedule == if old(schedule) == [] then [] else old(schedule[1..])
    {
      n := if schedule == [] then 0 else if schedule[0] < |p| then schedule[0] else |p|;
      delivered := delivered + p[..if n < 0 then 0 else n];
      schedule := if schedule == [] then [] else schedule[1..];
    }

    /** The partial-write loop: success delivers exactly p; failure delivers a proper part of its front. */
    method WriteAll(p: bytes) returns (ok: bool)
      modifies this
      ensures ok ==> delivered == old(delivered) + p
      ensures !ok ==> exists k :: 0 <= k < |p| && delivered == old(delivered) + p[..k]
      ensures ok <==> Carries(old(schedule), |p|)
    {
      var rest := p;
      ghost var k := 0;
      assert p[..0] == [];
      while rest != []
        invariant 0 <= k <= |p| && rest == p[k..]
        invariant delivered == old(delivered) + p[..k]
        invariant Carries(old(schedule), |p|) <==> Carries(schedule, |rest|)
        decreases |rest|
      {
        var n := Write(rest);
        if n <= 0 || n > |rest| {
          return false;
        }
        assert p[..k] + rest[..n] == p[..k + n];
        rest := rest[n..];
        k := k + n;
      }
      assert p[..k] == p;
      return true;
    }
  }

  /** The schedule moves `size` bytes before it fails. */
  predicate Carries(schedule: seq<int>, size: nat)
    decreases |schedule|
  {
    size == 0 ||
    (schedule != [] && schedule[0] > 0 && (schedule[0] >= size || Carries(schedule[1..], size - schedule[0])))
  }

  method EncodeBatch(items: seq<Value>, used: nat) returns (r: Option<bytes>)
    ensures r == BatchBytes(items, used)
  {
    hide Marshal, Parse;
    var batch: bytes := [];
    assert forall more: bytes :: batch + more == more;
    for k := 0 to |items|
      invariant BatchBytes(items, used) ==
                match BatchBytes(items[k..], used + |batch|)
                case None => None
                case Some(more) => Some(batch + more)
    {
      assert items[k..][1..] == items[k + 1..];
      if !items[k].Document? {
        return None;
      }
      var enc := Marshal(items[k].fields);
      if enc.None? || |enc.value| > MAX_DOCUMENT || |enc.value| > MAX_MESSAGE - 21 - (used + |batch|) {
        return None;
      }
      var valid := ValidateBSON(enc.value, 1);
      if !valid {
        return None;
      }
      assert forall more: bytes :: batch + (enc.value + more) == batch + enc.value + more;
      batch := batch + enc.value;
    }
    assert items[|items|..] == [];
    assert batch + [] == batch;
    return Some(batch);
  }

  lemma {:induction false} CountKeyAppend(d: Doc, f: Field, key: string)
    ensures CountKey(d + [f], key) == CountKey(d, key) + (if f.key == key then 1 else 0)
    ensures Without(d + [f], key) == Without(d, key) + (if f.key == key then [] else [f])
    ensures CountKey(d, key) == 0 && f.key == key ==> Get(d + [f], key) == f.value
    ensures CountKey(d, key) > 0 ==> Get(d + [f], key) == Get(d, key)
  {
    if d == [] {
      assert d + [f] == [f];
      assert [f][1..] == [];
    } else {
      assert (d + [f])[1..] == d[1..] + [f];
      CountKeyAppend(d[1..], f, key);
    }
  }

  lemma {:induction false} CountKeyGrows(d: Doc, more: Doc, key: string)
    ensures CountKey(d + more, key) >= CountKey(d, key)
    ensures CountKey(d, key) > 0 ==> Get(d + more, key) == Get(d, key)
  {
    if d != [] {
      assert (d + more)[1..] == d[1..] + more;
      CountKeyGrows(d[1..], more, key);
    }
  }

  /** mongoWriteCommand up to the bytes: the split of a bulk write, its batch, and the frame. */
  method EncodeCommand(id: int32, body: Doc) returns (r: Option<bytes>)
    ensures r == CommandBytes(id, body)
  {
    hide MessageBytes, BatchBytes, BulkField, Raw, Le;
    var field := BulkField(body);
    if field == "" {
      return MessageBytes(id, 0, false, body, None);
    }
    var control: Doc, docs: seq<Value>, found := [], [], false;
    for k := 0 to |body|
      invariant control == Without(body[..k], field)
      invariant CountKey(body[..k], field) == if found then 1 else 0
      invariant found ==> Get(body[..k], field) == Array(docs)
    {
      CountKeyAppend(body[..k], body[k], field);
      assert body[..k + 1] == body[..k] + [body[k]];
      assert body == body[..k + 1] + body[k + 1..];
      if body[k].key != field {
        control := control + [body[k]];
      } else {
        CountKeyGrows(body[..k + 1], body[k + 1..], field);
        if found || !body[k].value.Array? {
          return None;
        }
        docs, found := body[k].value.items, true;
      }
    }
    assert body[..|body|] == body;
    if !found {
      return None;
    }
    var batch := EncodeBatch(docs, 6 + |field|);
    if batch.None? {
      return None;
    }
    var sequence := [1] + Le4(5 + |field| + |batch.value|) + Raw(field) + [0] + batch.value;
    return MessageBytes(id, 0, false, control, Some(sequence));
  }
}
