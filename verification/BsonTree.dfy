/** The layout of BSON (bsonspec.org, version 1.1): what its bytes are, and the validator that bounds nesting. */
module BsonTree {
  import opened Values
  import opened Octets

  const DEPTH_LIMIT := 100

  /** A document as it lies in memory: elements with a type tag, a name and a body. */
  datatype Tree = Tree(elements: seq<Element>)

  datatype Element = Element(tag: byte, name: bytes, body: Body)

  datatype Body =
    | Plain(data: bytes)
    | Nested(doc: Tree)
    | Scoped(code: bytes, scope: Tree)

  // ----------------------------------------------------------------- what is written

  function Framed(interior: bytes): bytes
  {
    Le4(5 + |interior|) + interior + [0]
  }

  function Print(t: Tree): (d: bytes)
    ensures |d| >= 5
    decreases t, 0
  {
    Framed(PrintElements(t.elements))
  }

  function PrintElements(es: seq<Element>): bytes
    decreases es, 0
  {
    if es == [] then [] else PrintElement(es[0]) + PrintElements(es[1..])
  }

  function PrintElement(e: Element): bytes
    decreases e, 0
  {
    [e.tag] + e.name + [0] + PrintBody(e.body)
  }

  function PrintCode(code: bytes, scope: bytes): bytes
  {
    Le4(9 + |code| + |scope|) + Le4(|code| + 1) + code + [0] + scope
  }

  function PrintBody(b: Body): bytes
    decreases b, 0
  {
    match b
    case Plain(data) => data
    case Nested(doc) => Print(doc)
    case Scoped(code, scope) => PrintCode(code, Print(scope))
  }

  // ------------------------------------------------------------- nesting and sizes

  function Max(a: nat, b: nat): nat { if a < b then b else a }

  /** Nesting through documents, arrays and code scopes; a flat document has height one. */
  function Height(t: Tree): (h: nat)
    ensures h >= 1
    decreases t, 0
  {
    1 + ElementsHeight(t.elements)
  }

  function ElementsHeight(es: seq<Element>): nat
    decreases es, 0
  {
    if es == [] then 0 else Max(BodyHeight(es[0].body), ElementsHeight(es[1..]))
  }

  function BodyHeight(b: Body): nat
    decreases b, 0
  {
    match b
    case Plain(_) => 0
    case Nested(doc) => Height(doc)
    case Scoped(_, scope) => Height(scope)
  }

  predicate IsDocumentTag(tag: byte) { tag == 3 || tag == 4 }

  const CODE_TAG: byte := 15

  /** The length at the front of p, when it is at least `least` and p holds that much. */
  function Prefixed(p: bytes, extra: nat, least: nat): Option<nat>
  {
    if |p| < 4 then None
    else if U32(p) < least || U32(p) + extra > |p| then None
    else Some(U32(p) + extra)
  }

  function Fixed(p: bytes, n: nat): Option<nat> { if n <= |p| then Some(n) else None }

  /** A length-prefixed string: the length counts the terminating zero. */
  function StringSize(p: bytes): Option<nat>
  {
    match Prefixed(p, 4, 1)
    case Some(n) => if p[n - 1] == 0 then Some(n) else None
    case None => None
  }

  /** Two zero-terminated strings. */
  function RegexSize(p: bytes): (r: Option<nat>)
    ensures r.Some? ==> r.value <= |p|
  {
    var k := NulIndex(p);
    if k == |p| then None
    else
      var m := NulIndex(p[k + 1..]);
      if k + 1 + m == |p| then None else Some(k + m + 2)
  }

  /** The size of the value with this tag at the front of p. */
  function ValueSize(tag: byte, p: bytes): (r: Option<nat>)
    ensures r.Some? ==> r.value <= |p|
  {
    if tag == 3 || tag == 4 then Prefixed(p, 0, 5)
    else if tag == CODE_TAG then Prefixed(p, 0, 14)
    else if tag == 2 || tag == 13 || tag == 14 then StringSize(p)
    else if tag == 5 then Prefixed(p, 5, 0)
    else if tag == 6 || tag == 10 || tag == 255 || tag == 127 then Some(0)
    else if tag == 7 then Fixed(p, 12)
    else if tag == 8 then Fixed(p, 1)
    else if tag == 1 || tag == 9 || tag == 17 || tag == 18 then Fixed(p, 8)
    else if tag == 16 then Fixed(p, 4)
    else if tag == 19 then Fixed(p, 16)
    else if tag == 12 then
      match StringSize(p)
      case Some(n) => Fixed(p, n + 12)
      case None => None
    else if tag == 11 then RegexSize(p)
    else None
  }

  lemma U32Prefix(v: bytes, rest: bytes)
    requires |v| >= 4
    ensures U32(v + rest) == U32(v)
  {
    hide Unsigned;
    assert (v + rest)[..4] == v[..4];
  }

  lemma RegexSizePrefix(v: bytes, rest: bytes)
    requires RegexSize(v) == Some(|v|)
    ensures RegexSize(v + rest) == Some(|v|)
  {
    hide NulIndex;
    var k := NulIndex(v);
    var m := NulIndex(v[k + 1..]);
    RegexLayout(v[..k], v[k + 1..][..m], rest);
    assert v == v[..k] + [0] + (v[k + 1..][..m] + [0]);
    assert v + rest == v[..k] + [0] + (v[k + 1..][..m] + [0] + rest);
  }

  /** The size of a value depends on the value alone. */
  lemma ValueSizePrefix(tag: byte, v: bytes, rest: bytes)
    requires ValueSize(tag, v) == Some(|v|)
    ensures ValueSize(tag, v + rest) == Some(|v|)
  {
    hide U32, RegexSize;
    if |v| >= 4 {
      U32Prefix(v, rest);
    }
    if tag == 11 {
      RegexSizePrefix(v, rest);
    }
  }

  lemma RegexLayout(first: bytes, second: bytes, rest: bytes)
    requires 0 !in first && 0 !in second
    ensures var p := first + [0] + (second + [0] + rest);
            && NulIndex(p) == |first|
            && p[|first| + 1..] == second + [0] + rest
            && NulIndex(p[|first| + 1..]) == |second|
  {
    hide NulIndex;
    var p := first + [0] + (second + [0] + rest);
    NulIndexAfter(first, second + [0] + rest);
    assert p[|first| + 1..] == second + [0] + rest;
    NulIndexAfter(second, rest);
  }

  predicate WellFormed(t: Tree) { ElementsWellFormed(t.elements) }

  predicate ElementsWellFormed(es: seq<Element>)
    decreases es, 0
  {
    es == [] || (0 !in es[0].name && BodyWellFormed(es[0].tag, es[0].body) && ElementsWellFormed(es[1..]))
  }

  /** The body has the form that its tag announces. */
  predicate BodyWellFormed(tag: byte, b: Body)
    decreases b, 0
  {
    if IsDocumentTag(tag) then b.Nested? && ElementsWellFormed(b.doc.elements)
    else if tag == CODE_TAG then b.Scoped? && ElementsWellFormed(b.scope.elements)
    else b.Plain? && ValueSize(tag, b.data) == Some(|b.data|)
  }

  // --------------------------------------------------------------- what is accepted

  /** The document that d encodes, when d is one document nested no deeper than allowed from `depth`. */
  function Parse(d: bytes, depth: nat): Option<Tree>
    decreases |d|, 1
  {
    if depth > DEPTH_LIMIT || |d| < 5 || U32(d) != |d| || d[|d| - 1] != 0 then None
    else
      match ParseElements(d[4..|d| - 1], depth)
      case None => None
      case Some(es) => Some(Tree(es))
  }

  function ParseElements(p: bytes, depth: nat): Option<seq<Element>>
    decreases |p|, 1
  {
    if p == [] then Some([])
    else
      match ElementSize(p)
      case None => None
      case Some(n) =>
        match ParseElement(p, depth)
        case None => None
        case Some(e) =>
          match ParseElements(p[n..], depth)
          case None => None
          case Some(es) => Some([e] + es)
  }

  /** The size of the element at the front of p: tag, name, zero and value. */
  function ElementSize(p: bytes): (r: Option<nat>)
    requires p != []
    ensures r.Some? ==> NulIndex(p[1..]) + 2 <= r.value <= |p|
  {
    var k := NulIndex(p[1..]);
    if k == |p| - 1 then None
    else
      match ValueSize(p[0], p[k + 2..])
      case None => None
      case Some(n) => Some(k + 2 + n)
  }

  function ParseElement(p: bytes, depth: nat): Option<Element>
    requires p != [] && ElementSize(p).Some?
    decreases |p|, 0
  {
    var k := NulIndex(p[1..]);
    match ParseBody(p[0], p[k + 2..ElementSize(p).value], depth)
    case None => None
    case Some(b) => Some(Element(p[0], p[1..][..k], b))
  }

  function ParseBody(tag: byte, v: bytes, depth: nat): Option<Body>
    decreases |v|, 2
  {
    if IsDocumentTag(tag) then
      match Parse(v, depth + 1)
      case None => None
      case Some(doc) => Some(Nested(doc))
    else if tag == CODE_TAG then
      if |v| < 14 || U32(v) != |v| then None
      else
        var n := U32(v[4..]);
        if n < 1 || n > |v| - 8 || v[8 + n - 1] != 0 then None
        else
          match Parse(v[8 + n..], depth + 1)
          case None => None
          case Some(scope) => Some(Scoped(v[8..8 + n - 1], scope))
    else Some(Plain(v))
  }

  // ------------------------------------------- accepted bytes are exactly tiled

  lemma {:induction false} ParseSound(d: bytes, depth: nat)
    requires Parse(d, depth).Some?
    ensures var t := Parse(d, depth).value;
            Print(t) == d && WellFormed(t) && depth + Height(t) <= DEPTH_LIMIT + 1
    decreases |d|, 1
  {
    hide Le, Unsigned, ParseElements, PrintElements, ElementsHeight, ElementsWellFormed;
    var p := d[4..|d| - 1];
    ParseElementsSound(p, depth);
    FourBytes(d);
    assert d == d[..4] + p + [0];
  }

  lemma {:induction false} ParseElementsSound(p: bytes, depth: nat)
    requires depth <= DEPTH_LIMIT && ParseElements(p, depth).Some?
    ensures var es := ParseElements(p, depth).value;
            PrintElements(es) == p && ElementsWellFormed(es) && depth + ElementsHeight(es) <= DEPTH_LIMIT
    decreases |p|, 1
  {
    hide Le, Unsigned, NulIndex, ParseElement, PrintElement, BodyWellFormed, BodyHeight, ValueSize;
    if p != [] {
      var n := ElementSize(p).value;
      ParseElementSound(p, depth);
      ParseElementsSound(p[n..], depth);
      var es := ParseElements(p, depth).value;
      assert es[1..] == ParseElements(p[n..], depth).value;
      assert p == p[..n] + p[n..];
    }
  }

  lemma {:induction false} ParseElementSound(p: bytes, depth: nat)
    requires depth <= DEPTH_LIMIT && p != [] && ElementSize(p).Some? && ParseElement(p, depth).Some?
    ensures var e := ParseElement(p, depth).value;
            && PrintElement(e) == p[..ElementSize(p).value]
            && 0 !in e.name && BodyWellFormed(e.tag, e.body) && depth + BodyHeight(e.body) <= DEPTH_LIMIT
    decreases |p|, 0
  {
    hide Le, Unsigned, NulIndex, ParseBody, PrintBody, BodyWellFormed, BodyHeight, ValueSize;
    var k, n := NulIndex(p[1..]), ElementSize(p).value;
    assert p[..n] == [p[0]] + p[1..][..k] + [0] + p[k + 2..n];
    ValueSizeTake(p[0], p[k + 2..]);
    assert p[k + 2..][..n - (k + 2)] == p[k + 2..n];
    ParseBodySound(p[0], p[k + 2..n], depth);
  }

  lemma {:induction false} ParseBodySound(tag: byte, v: bytes, depth: nat)
    requires depth <= DEPTH_LIMIT && ParseBody(tag, v, depth).Some? && ValueSize(tag, v) == Some(|v|)
    ensures var b := ParseBody(tag, v, depth).value;
            PrintBody(b) == v && BodyWellFormed(tag, b) && depth + BodyHeight(b) <= DEPTH_LIMIT
    decreases |v|, 2
  {
    hide Le, Unsigned, NulIndex, Parse, Print, Height;
    if IsDocumentTag(tag) {
      ParseSound(v, depth + 1);
    } else if tag == CODE_TAG {
      var n := U32(v[4..]);
      ParseSound(v[8 + n..], depth + 1);
      FourBytes(v);
      FourBytes(v[4..]);
      assert v == v[..4] + v[4..][..4] + v[8..8 + n - 1] + [0] + v[8 + n..];
    }
  }

  lemma RegexSizeTake(p: bytes)
    requires RegexSize(p).Some?
    ensures var n := RegexSize(p).value; RegexSize(p[..n]) == Some(n)
  {
    hide NulIndex;
    var n := RegexSize(p).value;
    var k := NulIndex(p);
    var m := NulIndex(p[k + 1..]);
    RegexLayout(p[..k], p[k + 1..][..m], []);
    assert p[..n] == p[..k] + [0] + (p[k + 1..][..m] + [0] + []);
  }

  /** Cutting the bytes after a value does not change its size. */
  lemma ValueSizeTake(tag: byte, p: bytes)
    requires ValueSize(tag, p).Some?
    ensures var n := ValueSize(tag, p).value; ValueSize(tag, p[..n]) == Some(n)
  {
    hide U32, RegexSize;
    var n := ValueSize(tag, p).value;
    if n >= 4 {
      U32Prefix(p[..n], p[n..]);
      assert p == p[..n] + p[n..];
    }
    if tag == 11 {
      RegexSizeTake(p);
    }
  }

  // --------------------------------------- whatever is written is accepted, up to the limit

  /** Validation accepts the bytes of a well-formed document exactly when its nesting is within the limit. */
  lemma {:induction false} ParsePrinted(t: Tree, depth: nat)
    requires WellFormed(t) && |Print(t)| < TWO_32
    ensures Parse(Print(t), depth) == if depth + Height(t) <= DEPTH_LIMIT + 1 then Some(t) else None
    decreases t, 0
  {
    hide Le, Unsigned, ParseElements, PrintElements, ElementsHeight, ElementsWellFormed;
    var p := PrintElements(t.elements);
    var d := Print(t);
    U32Le4(|d|, p + [0]);
    assert d == Le4(|d|) + (p + [0]);
    assert d[4..|d| - 1] == p;
    if depth <= DEPTH_LIMIT {
      ParsePrintedElements(t.elements, depth);
    }
  }

  lemma {:induction false} ParsePrintedElements(es: seq<Element>, depth: nat)
    requires ElementsWellFormed(es) && |PrintElements(es)| < TWO_32 && depth <= DEPTH_LIMIT
    ensures ParseElements(PrintElements(es), depth) ==
            if depth + ElementsHeight(es) <= DEPTH_LIMIT then Some(es) else None
    decreases es, 0
  {
    hide Le, Unsigned, NulIndex, ParseElement, PrintElement, BodyWellFormed, BodyHeight, ElementSize;
    if es != [] {
      var first, rest := PrintElement(es[0]), PrintElements(es[1..]);
      var p := first + rest;
      ParsePrintedElement(es[0], rest, depth);
      ParsePrintedElements(es[1..], depth);
      assert p[|first|..] == rest;
      assert es == [es[0]] + es[1..];
    }
  }

  lemma {:induction false} ParsePrintedElement(e: Element, rest: bytes, depth: nat)
    requires 0 !in e.name && BodyWellFormed(e.tag, e.body) && |PrintElement(e)| < TWO_32 && depth <= DEPTH_LIMIT
    ensures var p := PrintElement(e) + rest;
            && ElementSize(p) == Some(|PrintElement(e)|)
            && ParseElement(p, depth) == if depth + BodyHeight(e.body) <= DEPTH_LIMIT then Some(e) else None
    decreases e, 0
  {
    hide Le, Unsigned, NulIndex, ParseBody, PrintBody, BodyWellFormed, BodyHeight, ValueSize;
    var v := PrintBody(e.body);
    var p := PrintElement(e) + rest;
    assert p[1..] == e.name + [0] + (v + rest);
    NulIndexAfter(e.name, v + rest);
    assert p[1..][..|e.name|] == e.name;
    assert p[|e.name| + 2..] == v + rest;
    PrintedBodySize(e.tag, e.body);
    ValueSizePrefix(e.tag, v, rest);
    assert p[|e.name| + 2..|PrintElement(e)|] == v;
    ParsePrintedBody(e.tag, e.body, depth);
  }

  lemma {:induction false} PrintedBodySize(tag: byte, b: Body)
    requires BodyWellFormed(tag, b) && |PrintBody(b)| < TWO_32
    ensures ValueSize(tag, PrintBody(b)) == Some(|PrintBody(b)|)
  {
    hide Le, Unsigned, NulIndex, WellFormed, PrintElements;
    var v := PrintBody(b);
    if b.Nested? {
      assert v == Le4(|v|) + (PrintElements(b.doc.elements) + [0]);
      U32Le4(|v|, v[4..]);
    } else if b.Scoped? {
      PrintedCode(b.code, Print(b.scope));
    }
  }

  lemma PrintedCode(code: bytes, scope: bytes)
    requires |PrintCode(code, scope)| < TWO_32 && |scope| >= 5
    ensures var v := PrintCode(code, scope);
            && |v| == 9 + |code| + |scope| && U32(v) == |v| && U32(v[4..]) == |code| + 1
            && v[8 + |code|] == 0 && v[8..8 + |code|] == code && v[9 + |code|..] == scope
  {
    hide Le, Unsigned;
    var v := PrintCode(code, scope);
    assert v == Le4(|v|) + (Le4(|code| + 1) + code + [0] + scope);
    U32Le4(|v|, Le4(|code| + 1) + code + [0] + scope);
    assert v[4..] == Le4(|code| + 1) + (code + [0] + scope);
    U32Le4(|code| + 1, code + [0] + scope);
  }

  lemma {:induction false} ParsePrintedBody(tag: byte, b: Body, depth: nat)
    requires BodyWellFormed(tag, b) && |PrintBody(b)| < TWO_32 && depth <= DEPTH_LIMIT
    ensures ParseBody(tag, PrintBody(b), depth) == if depth + BodyHeight(b) <= DEPTH_LIMIT then Some(b) else None
    decreases b, 0
  {
    hide Le, Unsigned, NulIndex, Parse, Print, Height, PrintCode, ValueSize;
    match b
    case Plain(_) =>
    case Nested(doc) => ParsePrinted(doc, depth + 1);
    case Scoped(code, scope) =>
      PrintedCode(code, Print(scope));
      ParsePrinted(scope, depth + 1);
  }

  /** mongoValidateBSON: the accepted byte strings are the printed documents within the depth limit, and only they. */
  lemma AcceptedIffPrinted(d: bytes, depth: nat)
    ensures Parse(d, depth).Some? <==>
            exists t: Tree :: WellFormed(t) && Print(t) == d && |d| < TWO_32 && depth + Height(t) <= 101
  {
    if Parse(d, depth).Some? {
      ParseSound(d, depth);
      FourBytes(d);
      var t := Parse(d, depth).value;
      assert WellFormed(t) && Print(t) == d;
    }
    if t: Tree :| WellFormed(t) && Print(t) == d && |d| < TWO_32 && depth + Height(t) <= DEPTH_LIMIT + 1 {
      ParsePrinted(t, depth);
    }
  }

  // ------------------------------------------------------------------ the validator

  /** mongoValidateBSON: one pass over the elements, recursion into documents, arrays and code scopes. */
  method ValidateBSON(d: bytes, depth: nat) returns (ok: bool)
    ensures ok <==> Parse(d, depth).Some?
    decreases |d|
  {
    hide Le, Unsigned, NulIndex, ValueSize;
    if depth > DEPTH_LIMIT || |d| < 5 || U32(d) != |d| || d[|d| - 1] != 0 {
      return false;
    }
    var used := 5;
    var p := d[4..|d| - 1];
    while p != []
      invariant used + |p| == |d| && |p| < |d|
      invariant Parse(d, depth).Some? <==> ParseElements(p, depth).Some?
      decreases |p|
    {
      var size := ElementSize(p);
      if size.None? {
        return false;
      }
      var v := p[NulIndex(p[1..]) + 2..size.value];
      assert ParseElement(p, depth).Some? <==> ParseBody(p[0], v, depth).Some?;
      if IsDocumentTag(p[0]) {
        var nested := ValidateBSON(v, depth + 1);
        if !nested {
          return false;
        }
      } else if p[0] == CODE_TAG {
        if |v| < 14 || U32(v) != |v| {
          return false;
        }
        var n := U32(v[4..]);
        if n < 1 || n > |v| - 8 || v[8 + n - 1] != 0 {
          return false;
        }
        var scope := ValidateBSON(v[8 + n..], depth + 1);
        if !scope {
          return false;
        }
      }
      used := used + size.value;
      p := p[size.value..];
    }
    return used == |d|;
  }
}
