/** UTF-8 as RFC 3629 defines it: what the reader takes for valid text is exactly the encoding of scalar values. */
module Utf8 {
  import opened Values
  import opened Wire
  import opened KvText

  /** A Unicode scalar value. */
  predicate IsScalar(c: int) { 0 <= c <= 0x10_FFFF && !(0xD800 <= c <= 0xDFFF) }

  /** Its octets, by the table of RFC 3629, section 3. */
  function Rune(c: int): bytes
    requires IsScalar(c)
  {
    if c < 0x80 then [c as byte]
    else if c < 0x800 then [(0xC0 + c / 64) as byte, (0x80 + c % 64) as byte]
    else if c < 0x1_0000 then [(0xE0 + c / 4096) as byte, (0x80 + c / 64 % 64) as byte, (0x80 + c % 64) as byte]
    else [(0xF0 + c / 262144) as byte, (0x80 + c / 4096 % 64) as byte, (0x80 + c / 64 % 64) as byte,
          (0x80 + c % 64) as byte]
  }

  predicate AllScalars(cs: seq<int>) { forall i :: 0 <= i < |cs| ==> IsScalar(cs[i]) }

  function Runes(cs: seq<int>): bytes
    requires AllScalars(cs)
  {
    if cs == [] then [] else Rune(cs[0]) + Runes(cs[1..])
  }

  lemma SizeInFront(p: bytes, rest: bytes)
    requires p != [] && Utf8Size(p) == |p|
    ensures Utf8Size(p + rest) == |p|
  {
    var q := p + rest;
    assert 1 <= |p| <= 4;
    assert forall i :: 0 <= i < |p| ==> q[i] == p[i];
  }

  lemma ShortRune(c: int)
    requires 0 <= c < 0x800
    ensures Rune(c) != [] && Utf8Size(Rune(c)) == |Rune(c)|
  {
  }

  lemma MiddleRune(c: int)
    requires 0x800 <= c < 0x1_0000 && IsScalar(c)
    ensures |Rune(c)| == 3 && Utf8Size(Rune(c)) == 3
  {
    var high, low := c / 4096, c / 64 % 64;
    assert c / 64 == 64 * high + low;
  }

  lemma LongRune(c: int)
    requires 0x1_0000 <= c && IsScalar(c)
    ensures |Rune(c)| == 4 && Utf8Size(Rune(c)) == 4
  {
    var high, low := c / 262144, c / 4096 % 64;
    assert c / 4096 == 64 * high + low;
  }

  lemma RuneInFront(c: int, rest: bytes)
    requires IsScalar(c)
    ensures Utf8Size(Rune(c) + rest) == |Rune(c)|
  {
    hide Rune, Utf8Size;
    if c < 0x800 {
      ShortRune(c);
    } else if c < 0x1_0000 {
      MiddleRune(c);
    } else {
      LongRune(c);
    }
    SizeInFront(Rune(c), rest);
  }

  lemma SixBits(high: nat, low: nat)
    requires low < 64
    ensures (64 * high + low) / 64 == high && (64 * high + low) % 64 == low
  {
  }

  /** The value of two, three and four octets, in groups of six bits. */
  lemma TwoOctets(a: byte, b: byte)
    requires 0xC2 <= a <= 0xDF && Continuation(b)
    ensures var c := 64 * (a as int - 0xC0) + (b as int - 0x80); IsScalar(c) && Rune(c) == [a, b]
  {
    SixBits(a as int - 0xC0, b as int - 0x80);
  }

  lemma ThreeOctets(a: byte, b: byte, d: byte)
    requires 0xE0 <= a <= 0xEF && Continuation(b) && Continuation(d)
    requires (a == 0xE0 ==> b >= 0xA0) && (a == 0xED ==> b <= 0x9F)
    ensures var c := 64 * (64 * (a as int - 0xE0) + (b as int - 0x80)) + (d as int - 0x80);
            IsScalar(c) && Rune(c) == [a, b, d]
  {
    var high := 64 * (a as int - 0xE0) + (b as int - 0x80);
    var c := 64 * high + (d as int - 0x80);
    SixBits(a as int - 0xE0, b as int - 0x80);
    SixBits(high, d as int - 0x80);
    assert c / 4096 == high / 64;
  }

  lemma FourOctets(a: byte, b: byte, d: byte, e: byte)
    requires 0xF0 <= a <= 0xF4 && Continuation(b) && Continuation(d) && Continuation(e)
    requires (a == 0xF0 ==> b >= 0x90) && (a == 0xF4 ==> b <= 0x8F)
    ensures var c := 64 * (64 * (64 * (a as int - 0xF0) + (b as int - 0x80)) + (d as int - 0x80)) + (e as int - 0x80);
            IsScalar(c) && Rune(c) == [a, b, d, e]
  {
    var top := 64 * (a as int - 0xF0) + (b as int - 0x80);
    var high := 64 * top + (d as int - 0x80);
    var c := 64 * high + (e as int - 0x80);
    SixBits(a as int - 0xF0, b as int - 0x80);
    SixBits(top, d as int - 0x80);
    SixBits(high, e as int - 0x80);
    assert c / 4096 == high / 64 && c / 262144 == top / 64;
  }

  /** The value that the octets at the front denote. */
  lemma FrontIsRune(p: bytes) returns (c: int)
    requires p != [] && Utf8Size(p) > 0
    ensures IsScalar(c) && p[..Utf8Size(p)] == Rune(c)
  {
    var n := Utf8Size(p);
    hide Rune, IsScalar;
    if n == 1 {
      c := p[0] as int;
      OneOctet(p[0]);
    } else if n == 2 {
      c := 64 * (p[0] as int - 0xC0) + (p[1] as int - 0x80);
      TwoOctets(p[0], p[1]);
      assert p[..2] == [p[0], p[1]];
    } else if n == 3 {
      c := 64 * (64 * (p[0] as int - 0xE0) + (p[1] as int - 0x80)) + (p[2] as int - 0x80);
      ThreeOctets(p[0], p[1], p[2]);
      assert p[..3] == [p[0], p[1], p[2]];
    } else {
      c := 64 * (64 * (64 * (p[0] as int - 0xF0) + (p[1] as int - 0x80)) + (p[2] as int - 0x80)) + (p[3] as int - 0x80);
      FourOctets(p[0], p[1], p[2], p[3]);
      assert p[..4] == [p[0], p[1], p[2], p[3]];
    }
  }

  lemma OneOctet(a: byte)
    requires a < 0x80
    ensures IsScalar(a as int) && Rune(a as int) == [a]
  {
  }

  lemma {:induction false} RunesAreValid(cs: seq<int>)
    requires AllScalars(cs)
    ensures ValidUtf8(Runes(cs))
  {
    hide Rune, Utf8Size;
    if cs != [] {
      RunesAreValid(cs[1..]);
      RuneInFront(cs[0], Runes(cs[1..]));
      NoRuneIsEmpty(cs[0]);
      assert (Rune(cs[0]) + Runes(cs[1..]))[|Rune(cs[0])|..] == Runes(cs[1..]);
    }
  }

  lemma NoRuneIsEmpty(c: int)
    requires IsScalar(c)
    ensures Rune(c) != []
  {
  }

  lemma {:induction false} ValidAreRunes(p: bytes) returns (cs: seq<int>)
    requires ValidUtf8(p)
    ensures AllScalars(cs) && Runes(cs) == p
    decreases |p|
  {
    hide Rune, Utf8Size, IsScalar;
    if p == [] {
      cs := [];
    } else {
      var n := Utf8Size(p);
      var c := FrontIsRune(p);
      var rest := ValidAreRunes(p[n..]);
      cs := [c] + rest;
      assert cs[1..] == rest;
      assert p == p[..n] + p[n..];
    }
  }

  /** Octets are valid exactly when they are the encoding of some scalar values, one after the other. */
  lemma ValidIffRunes(p: bytes)
    ensures ValidUtf8(p) <==> exists cs: seq<int> :: AllScalars(cs) && Runes(cs) == p
  {
    hide ValidUtf8, Runes, IsScalar;
    if ValidUtf8(p) {
      var cs := ValidAreRunes(p);
    }
    if cs: seq<int> :| AllScalars(cs) && Runes(cs) == p {
      RunesAreValid(cs);
    }
  }

  // ---------------------------------------------------------------------- white space

  /** The octets as a Go string holds them. */
  function Chars(p: bytes): string { seq(|p|, i requires 0 <= i < |p| => p[i] as char) }

  /** The White_Space property of Unicode. */
  predicate IsSpace(c: int)
  {
    9 <= c <= 13 || c in {0x20, 0x85, 0xA0, 0x1680, 0x2028, 0x2029, 0x202F, 0x205F, 0x3000} || 0x2000 <= c <= 0x200A
  }

  /** The text begins, or ends, with this scalar value. */
  predicate Begins(s: string, c: int)
    requires IsScalar(c)
  {
    |Rune(c)| <= |s| && s[..|Rune(c)|] == Chars(Rune(c))
  }

  predicate Ends(s: string, c: int)
    requires IsScalar(c)
  {
    |Rune(c)| <= |s| && s[|s| - |Rune(c)|..] == Chars(Rune(c))
  }

  lemma SpaceOctets(c: int)
    requires IsSpace(c)
    ensures IsScalar(c)
    ensures Chars(Rune(c)) ==
            if c < 0x80 then [c as char]
            else if c < 0x100 then [0xC2 as char, c as char]
            else if c == 0x1680 then [0xE1 as char, 0x9A as char, 0x80 as char]
            else if c == 0x205F then [0xE2 as char, 0x81 as char, 0x9F as char]
            else if c == 0x3000 then [0xE3 as char, 0x80 as char, 0x80 as char]
            else [0xE2 as char, 0x80 as char, (c - 0x2000 + 0x80) as char]
  {
  }

  /** The space that two octets, or three, denote. */
  function SpaceOf(s: string): int
    requires 1 <= |s| <= 3
  {
    if |s| == 1 then s[0] as int
    else if |s| == 2 then s[1] as int
    else if s[0] as int == 0xE1 then 0x1680
    else if s[0] as int == 0xE3 then 0x3000
    else if s[1] as int == 0x81 then 0x205F
    else 0x2000 + (s[2] as int - 0x80)
  }

  predicate SpaceText(s: string)
  {
    || (|s| == 1 && Space1(s[0])) || (|s| == 2 && Space2(s[0], s[1])) || (|s| == 3 && Space3(s[0], s[1], s[2]))
  }

  lemma SpaceTexts(s: string)
    requires SpaceText(s)
    ensures IsSpace(SpaceOf(s)) && IsScalar(SpaceOf(s)) && s == Chars(Rune(SpaceOf(s)))
  {
    hide Rune, Chars;
    SpaceOctets(SpaceOf(s));
  }

  lemma SpacesAreTexts(c: int)
    requires IsSpace(c)
    ensures IsScalar(c) && SpaceText(Chars(Rune(c))) && |Chars(Rune(c))| == |Rune(c)|
  {
    assert |Chars(Rune(c))| == |Rune(c)| by { SpaceOctets(c); }
    hide Rune, Chars;
    SpaceOctets(c);
  }

  lemma LeadingText(s: string, n: nat)
    ensures 0 < n <= |s| && SpaceText(s[..n]) ==> LeadingSpace(s) == n
    ensures LeadingSpace(s) > 0 ==> SpaceText(s[..LeadingSpace(s)])
  {
  }

  lemma NoShorterSpace(a: char, b: char, c: char)
    ensures Space3(a, b, c) ==> !Space1(c) && !Space2(b, c)
    ensures Space2(b, c) ==> !Space1(c)
  {
  }

  lemma TrailingText(s: string, n: nat)
    ensures 0 < n <= |s| && SpaceText(s[|s| - n..]) ==> TrailingSpace(s) == n
    ensures TrailingSpace(s) > 0 ==> SpaceText(s[|s| - TrailingSpace(s)..])
  {
    hide Space1, Space2, Space3;
    var k := |s|;
    if k >= 3 {
      NoShorterSpace(s[k - 3], s[k - 2], s[k - 1]);
      assert s[k - 3..] == [s[k - 3], s[k - 2], s[k - 1]];
    }
    if k >= 2 {
      NoShorterSpace(s[k - 2], s[k - 2], s[k - 1]);
      assert s[k - 2..] == [s[k - 2], s[k - 1]];
    }
    if k >= 1 {
      assert s[k - 1..] == [s[k - 1]];
    }
  }

  /** What is trimmed off a line is exactly white space, one scalar value after another, at either end. */
  lemma TrimmedIsSpace(s: string)
    ensures LeadingSpace(s) > 0 <==> exists c :: IsSpace(c) && IsScalar(c) && Begins(s, c)
    ensures TrailingSpace(s) > 0 <==> exists c :: IsSpace(c) && IsScalar(c) && Ends(s, c)
    ensures forall c :: IsSpace(c) && IsScalar(c) && Begins(s, c) ==> LeadingSpace(s) == |Rune(c)|
    ensures forall c :: IsSpace(c) && IsScalar(c) && Ends(s, c) ==> TrailingSpace(s) == |Rune(c)|
  {
    hide LeadingSpace, TrailingSpace, SpaceText, Rune, Chars, IsSpace, IsScalar, SpaceOf;
    LeadingText(s, 0);
    TrailingText(s, 0);
    if LeadingSpace(s) > 0 {
      Short(s[..LeadingSpace(s)]);
      SpaceTexts(s[..LeadingSpace(s)]);
      SpacesAreTexts(SpaceOf(s[..LeadingSpace(s)]));
      assert Begins(s, SpaceOf(s[..LeadingSpace(s)]));
    }
    if TrailingSpace(s) > 0 {
      var tail := s[|s| - TrailingSpace(s)..];
      Short(tail);
      SpaceTexts(tail);
      SpacesAreTexts(SpaceOf(tail));
      assert Ends(s, SpaceOf(tail));
    }
    forall c | IsSpace(c) && IsScalar(c) && Begins(s, c) ensures LeadingSpace(s) == |Rune(c)| > 0 {
      SpacesAreTexts(c);
      Short(Chars(Rune(c)));
      LeadingText(s, |Rune(c)|);
    }
    forall c | IsSpace(c) && IsScalar(c) && Ends(s, c) ensures TrailingSpace(s) == |Rune(c)| > 0 {
      SpacesAreTexts(c);
      Short(Chars(Rune(c)));
      TrailingText(s, |Rune(c)|);
    }
  }

  lemma Short(s: string)
    requires SpaceText(s)
    ensures 1 <= |s| <= 3
  {
  }
}
