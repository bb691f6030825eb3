/** Values to BSON and back: the driver's Marshal and Unmarshal, for the values of module Values. */
module BsonCodec {
  import opened Values
  import opened Octets
  import opened BsonTree

  // ------------------------------------------------------------------- what fits

  function KindTag(kind: ScalarKind): byte
  {
    match kind
    case Undefined => 6
    case ObjectId => 7
    case DateTime => 9
    case DbPointer => 12
    case JavaScript => 13
    case Symbol => 14
    case Decimal128 => 19
    case MinKey => 255
    case MaxKey => 127
  }

  predicate NulFree(s: string) { '\0' !in s }

  /** True of every value a Go program holds: strings are octets, opaque payloads have their type's size. */
  predicate Representable(v: Value)
    decreases v, 0
  {
    match v
    case String(s) => IsText(s)
    case Document(d) => RepresentableDoc(d)
    case Array(items) => forall i :: 0 <= i < |items| ==> Representable(items[i])
    case Regex(p, o) => IsText(p) && IsText(o)
    case CodeWithScope(code, scope) => IsText(code) && RepresentableDoc(scope)
    case Scalar(kind, payload) => ValueSize(KindTag(kind), payload) == Some(|payload|)
    case _ => true
  }

  predicate RepresentableDoc(d: Doc)
    decreases d, 0
  {
    forall i :: 0 <= i < |d| ==> IsText(d[i].key) && Representable(d[i].value)
  }

  /** What the driver can write: names and regular expressions are zero-terminated, so they hold no zero. */
  predicate Marshalable(v: Value)
    decreases v, 0
  {
    match v
    case Document(d) => MarshalableDoc(d)
    case Array(items) => forall i :: 0 <= i < |items| ==> Marshalable(items[i])
    case Regex(p, o) => NulFree(p) && NulFree(o)
    case CodeWithScope(_, scope) => MarshalableDoc(scope)
    case _ => true
  }

  predicate MarshalableDoc(d: Doc)
    decreases d, 0
  {
    forall i :: 0 <= i < |d| ==> NulFree(d[i].key) && Marshalable(d[i].value)
  }

  // -------------------------------------------------------------------- encoding

  function TagOf(v: Value): byte
  {
    match v
    case Double(_) => 1
    case String(_) => 2
    case Document(_) => 3
    case Array(_) => 4
    case Binary(_, _) => 5
    case Bool(_) => 8
    case Null => 10
    case Regex(_, _) => 11
    case CodeWithScope(_, _) => CODE_TAG
    case Int32(_) => 16
    case Timestamp(_) => 17
    case Int64(_) => 18
    case Scalar(kind, _) => KindTag(kind)
  }

  function PlainBytes(v: Value): bytes
  {
    match v
    case Double(bits) => Le(bits, 8)
    case String(s) => Le4(|s| + 1) + Raw(s) + [0]
    case Binary(subtype, data) => Le4(|data|) + ([subtype] + data)
    case Bool(b) => [if b then 1 else 0]
    case Regex(p, o) => Raw(p) + [0] + (Raw(o) + [0])
    case Int32(n) => Le4(Word32(n))
    case Timestamp(w) => Le(w, 8)
    case Int64(n) => Le(Word64(n), 8)
    case Scalar(_, payload) => payload
    case _ => []
  }

  function ToBody(v: Value): Body
    decreases v, 0
  {
    match v
    case Document(d) => Nested(ToTree(d))
    case Array(items) => Nested(Tree(ItemElements(items, 0)))
    case CodeWithScope(code, scope) => Scoped(Raw(code), ToTree(scope))
    case _ => Plain(PlainBytes(v))
  }

  function ToTree(d: Doc): Tree
    decreases d, 1
  {
    Tree(ToElements(d))
  }

  function ToElements(d: Doc): seq<Element>
    decreases d, 0
  {
    if d == [] then []
    else [Element(TagOf(d[0].value), Raw(d[0].key), ToBody(d[0].value))] + ToElements(d[1..])
  }

  function ItemElements(items: seq<Value>, first: nat): seq<Element>
    decreases items, 0
  {
    if items == [] then []
    else [Element(TagOf(items[0]), Raw(Decimal(first)), ToBody(items[0]))] + ItemElements(items[1..], first + 1)
  }

  /** bson.Marshal. */
  function Marshal(d: Doc): Option<bytes>
  {
    if MarshalableDoc(d) then Some(Print(ToTree(d))) else None
  }

  // -------------------------------------------------------------------- decoding

  function U64(p: bytes): word64
    requires |p| == 8
  {
    LeUnsigned(p);
    assert Pow256(8) == TWO_64;
    Unsigned(p)
  }

  function Word(p: bytes): word32
    requires |p| >= 4
  {
    FourBytes(p);
    U32(p)
  }

  function ScalarOf(tag: byte, data: bytes): Option<Value>
  {
    if tag == 6 then Some(Scalar(Undefined, data))
    else if tag == 7 then Some(Scalar(ObjectId, data))
    else if tag == 9 then Some(Scalar(DateTime, data))
    else if tag == 12 then Some(Scalar(DbPointer, data))
    else if tag == 13 then Some(Scalar(JavaScript, data))
    else if tag == 14 then Some(Scalar(Symbol, data))
    else if tag == 19 then Some(Scalar(Decimal128, data))
    else if tag == 255 then Some(Scalar(MinKey, data))
    else if tag == 127 then Some(Scalar(MaxKey, data))
    else None
  }

  function FromPlain(tag: byte, p: bytes): Option<Value>
    requires !IsDocumentTag(tag) && tag != CODE_TAG && ValueSize(tag, p) == Some(|p|)
  {
    if tag == 1 then Some(Double(U64(p)))
    else if tag == 2 then Some(String(Text(p[4..|p| - 1])))
    else if tag == 5 then Some(Binary(p[4], p[5..]))
    else if tag == 8 then if p[0] <= 1 then Some(Bool(p[0] == 1)) else None
    else if tag == 10 then Some(Null)
    else if tag == 11 then
      var k := NulIndex(p);
      Some(Regex(Text(p[..k]), Text(p[k + 1..|p| - 1])))
    else if tag == 16 then Some(Int32(Signed32(Word(p))))
    else if tag == 17 then Some(Timestamp(U64(p)))
    else if tag == 18 then Some(Int64(Signed64(U64(p))))
    else ScalarOf(tag, p)
  }

  function FromBody(tag: byte, b: Body): Option<Value>
    requires BodyWellFormed(tag, b)
    decreases b, 0
  {
    match b
    case Plain(p) => FromPlain(tag, p)
    case Nested(doc) =>
      (match FromElements(doc.elements)
       case None => None
       case Some(d) => if tag == 3 then Some(Document(d)) else Some(Array(ValuesOf(d))))
    case Scoped(code, scope) =>
      (match FromElements(scope.elements)
       case None => None
       case Some(d) => Some(CodeWithScope(Text(code), d)))
  }

  function FromElements(es: seq<Element>): Option<Doc>
    requires ElementsWellFormed(es)
    decreases es, 0
  {
    if es == [] then Some([])
    else
      match FromBody(es[0].tag, es[0].body)
      case None => None
      case Some(v) =>
        match FromElements(es[1..])
        case None => None
        case Some(d) => Some([Field(Text(es[0].name), v)] + d)
  }

  /** An array's element names are dropped. */
  function ValuesOf(d: Doc): (items: seq<Value>)
    ensures |items| == |d| && forall i :: 0 <= i < |d| ==> items[i] == d[i].value
  {
    seq(|d|, i requires 0 <= i < |d| => d[i].value)
  }

  // ------------------------------------------------------------------- round trip

  lemma {:induction false} BodyRoundTrip(v: Value)
    requires Representable(v) && Marshalable(v) && |PrintBody(ToBody(v))| < TWO_32
    ensures BodyWellFormed(TagOf(v), ToBody(v)) && FromBody(TagOf(v), ToBody(v)) == Some(v)
    decreases v, 0
  {
    hide Le, Unsigned, Raw, Text, FromPlain, PlainBytes, ValueSize;
    match v
    case Document(d) =>
      ElementsRoundTrip(d);
    case Array(items) =>
      ItemsRoundTrip(items, 0);
    case CodeWithScope(code, scope) =>
      TextRaw(code);
      ElementsRoundTrip(scope);
    case _ =>
      PlainRoundTrip(v);
  }

  lemma {:induction false} ElementsRoundTrip(d: Doc)
    requires RepresentableDoc(d) && MarshalableDoc(d) && |PrintElements(ToElements(d))| < TWO_32
    ensures ElementsWellFormed(ToElements(d)) && FromElements(ToElements(d)) == Some(d)
    decreases d, 1
  {
    hide Le, Unsigned, Raw, Text, BodyWellFormed, FromBody, ToBody, PrintBody, Representable, Marshalable;
    if d != [] {
      TextRaw(d[0].key);
      RawNul(d[0].key);
      assert ToElements(d)[1..] == ToElements(d[1..]);
      BodyRoundTrip(d[0].value);
      ElementsRoundTrip(d[1..]);
      assert d == [d[0]] + d[1..];
    }
  }

  lemma {:induction false} ItemsRoundTrip(items: seq<Value>, first: nat)
    requires Representable(Array(items)) && Marshalable(Array(items))
    requires |PrintElements(ItemElements(items, first))| < TWO_32
    ensures ElementsWellFormed(ItemElements(items, first))
    ensures FromElements(ItemElements(items, first)).Some?
    ensures ValuesOf(FromElements(ItemElements(items, first)).value) == items
    decreases items, 1
  {
    hide Le, Unsigned, Raw, Text, BodyWellFormed, FromBody, ToBody, PrintBody;
    if items != [] {
      assert ItemElements(items, first)[1..] == ItemElements(items[1..], first + 1);
      BodyRoundTrip(items[0]);
      ItemsRoundTrip(items[1..], first + 1);
      RawNul(Decimal(first));
    }
  }

  lemma StringRoundTrip(s: string)
    requires IsText(s) && |s| + 5 < TWO_32
    ensures var p := PlainBytes(String(s)); ValueSize(2, p) == Some(|p|) && FromPlain(2, p) == Some(String(s))
  {
    hide Le, Unsigned, NulIndex, Raw, Text;
    var p := PlainBytes(String(s));
    assert p == Le4(|s| + 1) + (Raw(s) + [0]);
    U32Le4(|s| + 1, Raw(s) + [0]);
    TextRaw(s);
    assert p[4..|p| - 1] == Raw(s);
  }

  lemma RegexRoundTrip(a: string, o: string)
    requires IsText(a) && IsText(o) && NulFree(a) && NulFree(o)
    ensures var p := PlainBytes(Regex(a, o)); ValueSize(11, p) == Some(|p|) && FromPlain(11, p) == Some(Regex(a, o))
  {
    hide Le, Unsigned, NulIndex, Raw, Text;
    var p := PlainBytes(Regex(a, o));
    RawNul(a);
    RawNul(o);
    RegexLayout(Raw(a), Raw(o), []);
    assert p == Raw(a) + [0] + (Raw(o) + [0] + []);
    TextRaw(a);
    TextRaw(o);
    assert p[..|a|] == Raw(a);
    assert p[|a| + 1..|p| - 1] == Raw(o);
  }

  predicate ReadsBack(v: Value)
  {
    ValueSize(TagOf(v), PlainBytes(v)) == Some(|PlainBytes(v)|) && FromPlain(TagOf(v), PlainBytes(v)) == Some(v)
  }

  lemma NumberRoundTrip(v: Value)
    requires v.Double? || v.Timestamp? || v.Int64? || v.Int32?
    ensures ReadsBack(v)
  {
    hide Le, Unsigned, NulIndex, Raw, Text;
    match v
    case Double(bits) => EightBytes(bits);
    case Timestamp(w) => EightBytes(w);
    case Int64(n) => EightBytes(Word64(n));
    case Int32(n) =>
      U32Le4(Word32(n), []);
      assert Le4(Word32(n)) + [] == Le4(Word32(n));
  }

  lemma BinaryRoundTrip(subtype: byte, data: bytes)
    requires |data| + 5 < TWO_32
    ensures ReadsBack(Binary(subtype, data))
  {
    hide Le, Unsigned, NulIndex, Raw, Text;
    U32Le4(|data|, [subtype] + data);
    assert PlainBytes(Binary(subtype, data))[5..] == data;
  }

  lemma ScalarRoundTrip(kind: ScalarKind, payload: bytes)
    requires Representable(Scalar(kind, payload))
    ensures ReadsBack(Scalar(kind, payload))
  {
    hide Le, Unsigned, NulIndex, Raw, Text;
  }

  lemma PlainRoundTrip(v: Value)
    requires Representable(v) && Marshalable(v) && |PlainBytes(v)| < TWO_32
    requires !v.Document? && !v.Array? && !v.CodeWithScope?
    ensures ReadsBack(v)
  {
    hide Le, Unsigned, NulIndex, Raw, Text, ValueSize, FromPlain, ScalarOf, KindTag;
    match v
    case String(s) => StringRoundTrip(s);
    case Regex(a, o) => RegexRoundTrip(a, o);
    case Binary(subtype, data) => BinaryRoundTrip(subtype, data);
    case Scalar(kind, payload) => ScalarRoundTrip(kind, payload);
    case Double(_) | Timestamp(_) | Int64(_) | Int32(_) => NumberRoundTrip(v);
    case Bool(_) => FlagRoundTrip(v);
    case Null => FlagRoundTrip(v);
  }

  lemma FlagRoundTrip(v: Value)
    requires v.Bool? || v.Null?
    ensures ReadsBack(v)
  {
    hide Le, Unsigned, NulIndex, Raw, Text;
  }

  lemma EightBytes(w: word64)
    ensures U64(Le(w, 8)) == w
  {
    assert Pow256(8) == TWO_64;
    UnsignedLe(w, 8);
  }

  /** Nesting of a document as the validator counts it. */
  function Nesting(d: Doc): nat { Height(ToTree(d)) }
}
