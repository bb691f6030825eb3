/** BSON in numbers: the tags of the types, the sizes of their values, and little-endian integers byte by byte. */
module BsonLayout {
  import opened Values
  import opened Octets
  import opened BsonTree
  import opened BsonCodec

  // --------------------------------------------------------------------- integers

  /** The number that four octets denote, least significant first. */
  function Four(p: bytes): int
    requires |p| >= 4
  {
    p[0] as int + 256 * p[1] as int + 65536 * p[2] as int + 16777216 * p[3] as int
  }

  lemma FourIsU32(p: bytes)
    requires |p| >= 4
    ensures U32(p) == Four(p)
  {
    var q := p[..4];
    assert q[1..][0] == p[1] && q[1..][1..][0] == p[2] && q[1..][1..][1..][0] == p[3];
    assert q[1..][1..][1..][1..] == [];
    assert Unsigned(q[1..][1..][1..]) == p[3] as int;
    assert Unsigned(q[1..][1..]) == p[2] as int + 256 * p[3] as int;
    assert Unsigned(q[1..]) == p[1] as int + 256 * (p[2] as int + 256 * p[3] as int);
  }

  lemma LittleEndian(n: nat)
    requires n < 0x1_0000_0000
    ensures Four(Le4(n)) == n
  {
    U32Le4(n, []);
    assert Le4(n) + [] == Le4(n);
    FourIsU32(Le4(n));
  }

  // -------------------------------------------------------------------- value sizes

  /** A string: its length with the closing zero, the octets, the zero. */
  predicate StringValue(v: bytes) { |v| >= 5 && Four(v) == |v| - 4 && v[|v| - 1] == 0 }

  /** Two texts, each closed by its first zero. */
  ghost predicate TwoTexts(v: bytes)
  {
    exists k :: 0 <= k < |v| - 1 && v[k] == 0 && v[|v| - 1] == 0 && 0 !in v[..k] && 0 !in v[k + 1..|v| - 1]
  }

  /** The octets are one value of the type with this tag, documents and code with scope aside. */
  ghost predicate Sized(tag: byte, v: bytes)
  {
    if tag == 1 then |v| == 8                             // double
    else if tag == 2 then StringValue(v)
    else if tag == 5 then |v| >= 5 && Four(v) == |v| - 5  // binary: length, subtype, octets
    else if tag == 6 || tag == 10 then v == []            // undefined, null
    else if tag == 7 then |v| == 12                       // object id
    else if tag == 8 then |v| == 1                        // boolean
    else if tag == 9 then |v| == 8                        // date
    else if tag == 11 then TwoTexts(v)                    // regular expression
    else if tag == 12 then |v| >= 17 && StringValue(v[..|v| - 12]) // pointer: a name and an object id
    else if tag == 13 || tag == 14 then StringValue(v)    // code, symbol
    else if tag == 16 then |v| == 4                       // int32
    else if tag == 17 || tag == 18 then |v| == 8          // timestamp, int64
    else if tag == 19 then |v| == 16                      // decimal
    else (tag == 255 || tag == 127) && v == []            // least and greatest key
  }

  lemma StringSized(v: bytes)
    ensures StringSize(v) == Some(|v|) <==> StringValue(v)
  {
    if |v| >= 4 {
      FourIsU32(v);
    }
  }

  lemma TextsHaveSize(v: bytes, k: nat)
    requires k < |v| - 1 && v[k] == 0 && v[|v| - 1] == 0 && 0 !in v[..k] && 0 !in v[k + 1..|v| - 1]
    ensures RegexSize(v) == Some(|v|)
  {
    hide NulIndex;
    var first, second := v[..k], v[k + 1..|v| - 1];
    RegexLayout(first, second, []);
    assert v == first + [0] + (second + [0] + []);
  }

  lemma TextsSized(v: bytes)
    ensures RegexSize(v) == Some(|v|) <==> TwoTexts(v)
  {
    hide NulIndex;
    if RegexSize(v) == Some(|v|) {
      var k := NulIndex(v);
      var m := NulIndex(v[k + 1..]);
      assert v[k + 1..][..m] == v[k + 1..|v| - 1];
      assert v[k + 1..][m] == v[|v| - 1];
    }
    hide RegexSize;
    if TwoTexts(v) {
      var k :| 0 <= k < |v| - 1 && v[k] == 0 && v[|v| - 1] == 0 && 0 !in v[..k] && 0 !in v[k + 1..|v| - 1];
      TextsHaveSize(v, k);
    }
  }

  lemma PointerSized(v: bytes)
    ensures ValueSize(12, v) == Some(|v|) <==> |v| >= 17 && StringValue(v[..|v| - 12])
  {
    if |v| >= 16 {
      var name := v[..|v| - 12];
      FourIsU32(v);
      FourIsU32(name);
      assert name[..4] == v[..4];
      assert StringValue(name) ==> name[|name| - 1] == v[|v| - 13];
    }
  }

  lemma SizesAreSizes(tag: byte, v: bytes)
    requires tag !in {3, 4, 15}
    ensures ValueSize(tag, v) == Some(|v|) <==> Sized(tag, v)
  {
    hide U32, StringSize, StringValue, RegexSize, TwoTexts;
    StringSized(v);
    TextsSized(v);
    PointerSized(v);
    if |v| >= 4 {
      FourIsU32(v);
    }
  }

  // ------------------------------------------------------------- documents of one element

  /** Size, tag, name, zero, value, zero. */
  function Single(tag: byte, name: bytes, v: bytes): (d: bytes)
    ensures |d| == |name| + |v| + 7
  {
    Le4(|name| + |v| + 7) + ([tag] + name + [0] + v) + [0]
  }

  lemma SingleParts(tag: byte, name: bytes, v: bytes, depth: nat)
    requires 0 !in name && |name| + |v| + 7 < 0x1_0000_0000 && depth <= 100
    ensures var p := [tag] + name + [0] + v;
            && p != [] && p[0] == tag && NulIndex(p[1..]) == |name| && p[|name| + 2..] == v
            && p[1..][..|name|] == name
            && (Parse(Single(tag, name, v), depth).Some? <==> ParseElements(p, depth).Some?)
            && (ParseElements(p, depth).Some? ==>
                  Parse(Single(tag, name, v), depth) == Some(Tree(ParseElements(p, depth).value)))
  {
    hide Le, Unsigned, NulIndex, ParseElements;
    var p := [tag] + name + [0] + v;
    var d := Single(tag, name, v);
    assert p[1..] == name + [0] + v;
    NulIndexAfter(name, v);
    U32Le4(|d|, p + [0]);
    assert d == Le4(|d|) + (p + [0]);
    assert d[4..|d| - 1] == p;
  }

  lemma NoMoreElements(depth: nat)
    ensures ParseElements([], depth) == Some([])
  {
  }

  lemma OneElementParses(tag: byte, name: bytes, v: bytes, depth: nat)
    requires 0 !in name
    requires var p := [tag] + name + [0] + v;
             p[0] == tag && NulIndex(p[1..]) == |name| && p[|name| + 2..] == v && p[1..][..|name|] == name
    ensures var p := [tag] + name + [0] + v;
            && (ValueSize(tag, v) == Some(|v|) ==>
                  ParseElements(p, depth) ==
                  if ParseBody(tag, v, depth).None? then None
                  else Some([Element(tag, name, ParseBody(tag, v, depth).value)]))
            && (ValueSize(tag, v).None? ==> ParseElements(p, depth).None?)
            && (forall n :: ValueSize(tag, v) == Some(n) && n < |v| && ParseElements(p, depth).Some? ==>
                  |ParseElements(p, depth).value| >= 1 &&
                  ParseBody(tag, v[..n], depth).Some? &&
                  ParseElements(p, depth).value[0] == Element(tag, name, ParseBody(tag, v[..n], depth).value))
  {
    hide NulIndex, ValueSize, ParseBody;
    var p := [tag] + name + [0] + v;
    if ValueSize(tag, v).Some? {
      var n := ValueSize(tag, v).value;
      assert ElementSize(p) == Some(|name| + 2 + n);
      assert p[|name| + 2..|name| + 2 + n] == v[..n];
      assert ParseElement(p, depth) ==
        match ParseBody(tag, v[..n], depth) case None => None case Some(b) => Some(Element(tag, name, b));
      if n == |v| {
        assert v[..n] == v;
        assert p[|name| + 2 + n..] == [];
        NoMoreElements(depth);
        assert forall e: Element :: [e] + [] == [e];
      }
    }
  }

  /**
   * For any name without a zero and any octets: the document of one element parses to just that element exactly when
   * the octets are a value of the tag's type, of the size that type has.
   */
  lemma OneValue(tag: byte, name: bytes, v: bytes)
    requires 0 !in name && |name| + |v| + 7 < 0x1_0000_0000 && tag !in {3, 4, 15}
    ensures Parse(Single(tag, name, v), 1) == Some(Tree([Element(tag, name, Plain(v))])) <==> Sized(tag, v)
  {
    hide Parse, ParseElements, ValueSize, Sized, NulIndex, Single;
    SingleParts(tag, name, v, 1);
    OneElementParses(tag, name, v, 1);
    SizesAreSizes(tag, v);
    assert ParseBody(tag, v, 1) == Some(Plain(v));
  }

  lemma SizeOfFront(tag: byte, v: bytes, n: nat)
    requires n <= |v| && tag !in {3, 4, 15}
    ensures ValueSize(tag, v) == Some(n) <==> Sized(tag, v[..n])
  {
    hide ValueSize, Sized;
    SizesAreSizes(tag, v[..n]);
    if ValueSize(tag, v) == Some(n) {
      ValueSizeTake(tag, v);
    }
    if ValueSize(tag, v[..n]) == Some(n) {
      assert v[..n] + v[n..] == v;
      ValueSizePrefix(tag, v[..n], v[n..]);
    }
  }

  lemma ElementsUnfold(p: bytes, depth: nat)
    requires p != []
    ensures ParseElements(p, depth).Some? <==>
            && ElementSize(p).Some? && ParseElement(p, depth).Some?
            && ParseElements(p[ElementSize(p).value..], depth).Some?
  {
  }

  /** And the document is accepted exactly when the octets begin with such a value and go on with more elements. */
  lemma ValueAccepted(tag: byte, name: bytes, v: bytes)
    requires 0 !in name && |name| + |v| + 7 < 0x1_0000_0000 && tag !in {3, 4, 15}
    ensures Parse(Single(tag, name, v), 1).Some? <==>
            exists n :: 0 <= n <= |v| && Sized(tag, v[..n]) && ParseElements(v[n..], 1).Some?
  {
    hide Parse, ParseElements, ValueSize, Sized, NulIndex, Single;
    SingleParts(tag, name, v, 1);
    var p := [tag] + name + [0] + v;
    ElementsUnfold(p, 1);
    if ValueSize(tag, v).Some? {
      var n := ValueSize(tag, v).value;
      SizeOfFront(tag, v, n);
      assert ElementSize(p) == Some(|name| + 2 + n);
      assert p[|name| + 2 + n..] == v[n..];
      assert ParseElement(p, 1).Some?;
      if ParseElements(p, 1).Some? {
        assert Sized(tag, v[..n]) && ParseElements(v[n..], 1).Some?;
      }
    }
    if n :| 0 <= n <= |v| && Sized(tag, v[..n]) && ParseElements(v[n..], 1).Some? {
      SizeOfFront(tag, v, n);
    }
  }

  lemma DocumentSized(tag: byte, v: bytes)
    requires Parse(v, 2).Some? && tag in {3, 4}
    ensures ValueSize(tag, v) == Some(|v|)
  {
    hide ParseElements, Unsigned;
  }

  /** A document or an array inside: exactly when the octets are a document themselves, one level down. */
  lemma OneDocument(tag: byte, name: bytes, v: bytes, t: Tree)
    requires 0 !in name && |name| + |v| + 7 < 0x1_0000_0000 && tag in {3, 4}
    ensures Parse(Single(tag, name, v), 1) == Some(Tree([Element(tag, name, Nested(t))])) <==> Parse(v, 2) == Some(t)
  {
    hide Parse, ParseElements, ValueSize, NulIndex, Single;
    SingleParts(tag, name, v, 1);
    OneElementParses(tag, name, v, 1);
    assert ParseBody(tag, v, 1) == if Parse(v, 2).None? then None else Some(Nested(Parse(v, 2).value));
    if Parse(v, 2).Some? {
      DocumentSized(tag, v);
    }
    hide ParseBody;
    if Parse(Single(tag, name, v), 1) == Some(Tree([Element(tag, name, Nested(t))])) {
      NestedWhole(tag, name, v, t);
    }
  }

  lemma NestedWhole(tag: byte, name: bytes, v: bytes, t: Tree)
    requires Parse(Single(tag, name, v), 1) == Some(Tree([Element(tag, name, Nested(t))])) && tag in {3, 4}
    requires |name| + |v| + 7 < 0x1_0000_0000
    ensures Parse(v, 2) == Some(t)
  {
    hide Parse, Single, Print, Height, WellFormed;
    var whole := Tree([Element(tag, name, Nested(t))]);
    SoundSingle(Single(tag, name, v), whole);
    HeightOfOne(tag, name, t);
    PrintedInside(tag, name, v, t);
    ParsePrinted(t, 2);
  }

  lemma PrintedInside(tag: byte, name: bytes, v: bytes, t: Tree)
    requires Print(Tree([Element(tag, name, Nested(t))])) == Single(tag, name, v)
    ensures Print(t) == v
  {
    hide Print, Le4;
    PrintOfOne(tag, name, t);
    var head, a, b := [tag] + name + [0], Le4(|name| + |v| + 7), Le4(|name| + |Print(t)| + 7);
    assert Single(tag, name, v) == a + (head + v) + [0];
    SameInside(a, b, head, v, Print(t));
  }

  lemma SoundSingle(d: bytes, whole: Tree)
    requires Parse(d, 1) == Some(whole)
    ensures Print(whole) == d && WellFormed(whole) && Height(whole) <= 100
  {
    hide Parse, Print, Height, WellFormed;
    ParseSound(d, 1);
  }

  lemma SameInside(a: bytes, b: bytes, head: bytes, v: bytes, w: bytes)
    requires |a| == |b| == 4 && a + (head + v) + [0] == b + (head + w) + [0]
    ensures v == w
  {
    var d := a + (head + v) + [0];
    assert |v| == |w|;
    assert d[4 + |head|..|d| - 1] == v;
    assert (b + (head + w) + [0])[4 + |head|..|d| - 1] == w;
  }

  lemma PrintOfOne(tag: byte, name: bytes, t: Tree)
    ensures Print(Tree([Element(tag, name, Nested(t))])) ==
            Le4(|name| + |Print(t)| + 7) + ([tag] + name + [0] + Print(t)) + [0]
  {
    hide Le;
    var e := Element(tag, name, Nested(t));
    assert [e][1..] == [];
    assert PrintElements([e]) == PrintElement(e) + [];
    assert PrintElement(e) == [tag] + name + [0] + Print(t);
  }

  lemma HeightUnfolds(t: Tree)
    ensures Height(t) == 1 + ElementsHeight(t.elements)
  {
  }

  lemma HeightOfOne(tag: byte, name: bytes, t: Tree)
    ensures Height(Tree([Element(tag, name, Nested(t))])) == 1 + Height(t)
    ensures tag in {3, 4} && WellFormed(Tree([Element(tag, name, Nested(t))])) ==> WellFormed(t)
  {
    hide Height;
    var e := Element(tag, name, Nested(t));
    assert [e][1..] == [];
    assert ElementsHeight([e]) == Max(BodyHeight(e.body), ElementsHeight([]));
    assert ElementsHeight([]) == 0;
    assert BodyHeight(e.body) == Height(t);
    HeightUnfolds(Tree([e]));
    if tag in {3, 4} && ElementsWellFormed([e]) {
      assert BodyWellFormed(tag, Nested(t));
    }
  }

  // ------------------------------------------------------------------- types and tags

  lemma Scaled(a: nat, b: nat, d: nat)
    requires a <= b
    ensures a * d <= b * d
  {
    assert b * d == a * d + (b - a) * d;
  }

  lemma Quotient(n: nat, d: nat, s: nat, r: nat)
    requires d >= 1 && n == d * s + r && r < d
    ensures n / d == s
  {
    var q := n / d;
    assert n == d * q + n % d;
    if q < s {
      Scaled(q + 1, s, d);
    } else if q > s {
      Scaled(s + 1, q, d);
    }
  }

  lemma DivDiv(n: nat, b: nat)
    requires b >= 1
    ensures n / 256 / b == n / (256 * b)
  {
    var q, r := n / 256, n % 256;
    var s, t := q / b, q % b;
    assert n == 256 * (b * s + t) + r;
    assert n == (256 * b) * s + (256 * t + r);
    assert 256 * t + r < 256 * b;
    Quotient(n, 256 * b, s, 256 * t + r);
  }

  /** Octet i of a little-endian number is its digit of weight 256^i. */
  lemma {:induction false} LeAt(n: nat, k: nat, i: nat)
    requires i < k
    ensures Le(n, k)[i] as int == n / Pow256(i) % 256
    decreases k
  {
    if i > 0 {
      LeAt(n / 256, k - 1, i - 1);
      DivDiv(n, Pow256(i - 1));
      assert Pow256(i) == 256 * Pow256(i - 1);
    }
  }

  /** The octets of a whole number in `size` octets, by their weights; of a negative one, of its complement. */
  predicate Digits(p: bytes, n: int, size: nat)
  {
    |p| == size && forall i :: 0 <= i < size ==> p[i] as int == n / Pow256(i) % 256
  }

  lemma LeDigits(n: nat, size: nat)
    ensures Digits(Le(n, size), n, size)
  {
    forall i | 0 <= i < size ensures Le(n, size)[i] as int == n / Pow256(i) % 256 {
      LeAt(n, size, i);
    }
  }

  /** The octets p are the text s. */
  predicate TextOctets(p: bytes, s: string) { |p| == |s| && forall i :: 0 <= i < |s| ==> p[i] as int == s[i] as int }

  /** How a value of each type is written: its tag, and its octets. */
  predicate WrittenAs(v: Value, tag: byte, p: bytes)
  {
    match v
    case Double(bits) => tag == 1 && Digits(p, bits, 8)
    case String(s) =>
      && tag == 2 && |p| == |s| + 5 && Digits(p[..4], |s| + 1, 4) && TextOctets(p[4..|s| + 4], s) && p[|s| + 4] == 0
    case Binary(subtype, data) =>
      tag == 5 && |p| == |data| + 5 && Digits(p[..4], |data|, 4) && p[4] == subtype && p[5..] == data
    case Bool(b) => tag == 8 && p == [if b then 1 else 0]
    case Null => tag == 10 && p == []
    case Regex(pattern, options) =>
      && tag == 11 && |p| == |pattern| + |options| + 2 && TextOctets(p[..|pattern|], pattern) && p[|pattern|] == 0
      && TextOctets(p[|pattern| + 1..|p| - 1], options) && p[|p| - 1] == 0
    case Int32(n) => tag == 16 && Digits(p, if n < 0 then 4294967296 + n else n, 4)
    case Timestamp(stamp) => tag == 17 && Digits(p, stamp, 8)
    case Int64(n) => tag == 18 && Digits(p, if n < 0 then 18446744073709551616 + n else n, 8)
    case Scalar(kind, payload) => p == payload && ScalarTag(kind, tag)
    case _ => true
  }

  predicate ScalarTag(kind: ScalarKind, tag: byte)
  {
    match kind
    case Undefined => tag == 6
    case ObjectId => tag == 7
    case DateTime => tag == 9
    case DbPointer => tag == 12
    case JavaScript => tag == 13
    case Symbol => tag == 14
    case Decimal128 => tag == 19
    case MinKey => tag == 255
    case MaxKey => tag == 127
  }

  lemma RawIsOctets(s: string)
    requires IsText(s)
    ensures TextOctets(Raw(s), s)
  {
  }

  lemma TextWritten(s: string)
    requires IsText(s) && |s| + 1 < 0x1_0000_0000
    ensures WrittenAs(String(s), 2, PlainBytes(String(s)))
  {
    hide Le, Raw, Pow256;
    var p := PlainBytes(String(s));
    LeDigits(|s| + 1, 4);
    RawIsOctets(s);
    assert p[..4] == Le4(|s| + 1);
    assert p[4..|s| + 4] == Raw(s);
  }

  lemma RegexWritten(pattern: string, options: string)
    requires IsText(pattern) && IsText(options)
    ensures WrittenAs(Regex(pattern, options), 11, PlainBytes(Regex(pattern, options)))
  {
    hide Raw;
    var p := PlainBytes(Regex(pattern, options));
    RawIsOctets(pattern);
    RawIsOctets(options);
    assert p[..|pattern|] == Raw(pattern);
    assert p[|pattern| + 1..|p| - 1] == Raw(options);
  }

  lemma BinaryWritten(subtype: byte, data: bytes)
    requires |data| < 0x1_0000_0000
    ensures WrittenAs(Binary(subtype, data), 5, PlainBytes(Binary(subtype, data)))
  {
    hide Le, Pow256;
    var p := PlainBytes(Binary(subtype, data));
    LeDigits(|data|, 4);
    assert p[..4] == Le4(|data|);
    assert p[5..] == data;
  }

  lemma OneFieldTree(key: string, v: Value)
    ensures ToTree([Field(key, v)]) == Tree([Element(TagOf(v), Raw(key), ToBody(v))])
  {
    hide Raw, TagOf, ToBody;
    var d := [Field(key, v)];
    assert d[1..] == [];
    assert ToElements([]) == [];
  }

  /** Every value but documents, arrays and scoped code is written with the tag and the octets of its type. */
  lemma TypesInNumbers(key: string, v: Value)
    requires Representable(v) && !v.Document? && !v.Array? && !v.CodeWithScope?
    requires |PlainBytes(v)| < 0x1_0000_0000
    ensures ToTree([Field(key, v)]) == Tree([Element(TagOf(v), Raw(key), Plain(PlainBytes(v)))])
    ensures WrittenAs(v, TagOf(v), PlainBytes(v))
  {
    hide Le, Raw, Pow256, Digits, TextOctets, ToElements;
    OneFieldTree(key, v);
    match v
    case Double(bits) => LeDigits(bits, 8);
    case String(s) => TextWritten(s);
    case Binary(subtype, data) => BinaryWritten(subtype, data);
    case Regex(pattern, options) => RegexWritten(pattern, options);
    case Int32(n) => LeDigits(Word32(n), 4);
    case Timestamp(stamp) => LeDigits(stamp, 8);
    case Int64(n) => LeDigits(Word64(n), 8);
    case _ =>
  }

  /** One element for each item, in order, named by its number in decimal. */
  predicate Numbered(es: seq<Element>, items: seq<Value>, first: nat)
  {
    && |es| == |items|
    && forall i :: 0 <= i < |items| ==>
         es[i] == Element(TagOf(items[i]), Raw(Decimal(first + i)), ToBody(items[i]))
  }

  /** Documents have tag 3, arrays tag 4 with their items numbered from zero, code with scope tag 15. */
  lemma NestedTypesInNumbers(key: string, d: Doc, items: seq<Value>, code: string) returns (es: seq<Element>)
    ensures ToTree([Field(key, Document(d))]) == Tree([Element(3, Raw(key), Nested(ToTree(d)))])
    ensures ToTree([Field(key, CodeWithScope(code, d))]) == Tree([Element(15, Raw(key), Scoped(Raw(code), ToTree(d)))])
    ensures ToTree([Field(key, Array(items))]) == Tree([Element(4, Raw(key), Nested(Tree(es)))])
    ensures Numbered(es, items, 0)
  {
    hide Raw, ToTree, ToElements, Numbered, ItemElements;
    OneFieldTree(key, Document(d));
    OneFieldTree(key, CodeWithScope(code, d));
    OneFieldTree(key, Array(items));
    ItemsNumbered(items, 0);
    es := ItemElements(items, 0);
  }

  lemma {:induction false} ItemsNumbered(items: seq<Value>, first: nat)
    ensures Numbered(ItemElements(items, first), items, first)
    decreases |items|
  {
    hide Raw, Decimal, ToBody, TagOf;
    if items != [] {
      ItemsNumbered(items[1..], first + 1);
      var es, rest := ItemElements(items, first), ItemElements(items[1..], first + 1);
      assert forall i :: 0 < i < |es| ==> es[i] == rest[i - 1];
    }
  }
}
