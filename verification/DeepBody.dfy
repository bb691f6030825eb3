/** A body that the writer sends and the reader refuses: the writer does not count the nesting of the body. */
module DeepBody {
  import opened Values
  import opened Octets
  import opened BsonTree
  import opened BsonCodec
  import opened Wire

  /** Documents inside documents, each under the one key "a". */
  function Deep(n: nat): Doc
  {
    if n == 0 then [] else [Field("a", Document(Deep(n - 1)))]
  }

  lemma {:induction false} DeepIsMarshalable(n: nat)
    ensures RepresentableDoc(Deep(n)) && MarshalableDoc(Deep(n))
  {
    if n > 0 { DeepIsMarshalable(n - 1); }
  }

  lemma {:induction false} DeepSize(n: nat)
    ensures Nesting(Deep(n)) == n + 1 && |Print(ToTree(Deep(n)))| == 5 + 8 * n
  {
    hide Le, PrintElements, ElementsHeight;
    if n == 0 {
      NoElements();
      assert ToElements([]) == [];
    } else {
      DeepSize(n - 1);
      var e := Element(3, Raw("a"), Nested(ToTree(Deep(n - 1))));
      OneField(Deep(n)[0]);
      OneElement(e);
    }
  }

  lemma OneField(f: Field)
    ensures ToElements([f]) == [Element(TagOf(f.value), Raw(f.key), ToBody(f.value))]
  {
    hide TagOf, Raw, ToBody;
    assert [f][1..] == [];
    assert ToElements([]) == [];
  }

  lemma NoElements()
    ensures PrintElements([]) == [] && ElementsHeight([]) == 0
  {
  }

  lemma OneElement(e: Element)
    requires |e.name| == 1 && e.body.Nested?
    ensures |PrintElements([e])| == 3 + |Print(e.body.doc)|
    ensures ElementsHeight([e]) == Height(e.body.doc)
  {
    hide Print, Height;
    NoElements();
    assert [e][1..] == [];
    assert PrintBody(e.body) == Print(e.body.doc);
    assert |PrintElement(e)| == 3 + |Print(e.body.doc)|;
    assert PrintElements([e]) == PrintElement([e][0]) + PrintElements([e][1..]);
    assert BodyHeight(e.body) == Height(e.body.doc);
    assert ElementsHeight([e]) == Max(BodyHeight([e][0].body), ElementsHeight([e][1..]));
  }

  /**
   * All of them are written, as long as the frame fits; they are read back up to a nesting of 100 and refused from
   * 101 on.
   */
  lemma DeepBodies(id: int32, rest: bytes, crc: bytes -> word32, n: nat)
    requires 26 + 8 * n <= 48_000_000
    ensures var frame := CommandBytes(id, Deep(n));
            && frame.Some? && Nesting(Deep(n)) == n + 1
            && ReadMessage(frame.value + rest, 48_000_000, crc) ==
               if n < 100 then Some((Message(id, 0, OP_MSG, 0, Deep(n)), rest)) else None
  {
    hide Print, Le, ReadMessage, RepresentableDoc, MarshalableDoc, Nesting, BatchUnique;
    DeepIsMarshalable(n);
    DeepSize(n);
    DeepIsNoBulkWrite(n);
    LengthHeader(id, 0, false, Deep(n), None);
    RoundTrip(id, Deep(n), rest, 48_000_000, crc);
  }

  lemma DeepIsNoBulkWrite(n: nat)
    ensures BulkField(Deep(n)) == "" && UniqueKeys(Deep(n))
  {
  }
}
