/** Byte-level encodings shared by the wire formats: little-endian numbers, text, decimal numerals. */
module Octets {
  import opened Values

  function Pow256(k: nat): (p: int)
    ensures p >= 1
  {
    if k == 0 then 1 else 256 * Pow256(k - 1)
  }

  /** The k low bytes of n, least significant first. */
  function Le(n: nat, k: nat): (p: bytes)
    ensures |p| == k
    decreases k
  {
    if k == 0 then [] else [(n % 256) as byte] + Le(n / 256, k - 1)
  }

  /** The number that the bytes denote, least significant first. */
  function Unsigned(p: bytes): nat
  {
    if p == [] then 0 else p[0] as int + 256 * Unsigned(p[1..])
  }

  lemma {:induction false} UnsignedLe(n: nat, k: nat)
    requires n < Pow256(k)
    ensures Unsigned(Le(n, k)) == n
    decreases k
  {
    if k > 0 {
      UnsignedLe(n / 256, k - 1);
      assert Le(n, k)[1..] == Le(n / 256, k - 1);
    }
  }

  lemma {:induction false} LeUnsigned(p: bytes)
    ensures Unsigned(p) < Pow256(|p|) && Le(Unsigned(p), |p|) == p
  {
    if p != [] {
      LeUnsigned(p[1..]);
      assert Unsigned(p) % 256 == p[0] as int && Unsigned(p) / 256 == Unsigned(p[1..]);
    }
  }

  function U32(p: bytes): (n: nat)
    requires |p| >= 4
  {
    Unsigned(p[..4])
  }

  function Le4(n: nat): (p: bytes)
    ensures |p| == 4
  {
    Le(n, 4)
  }

  lemma FourBytes(p: bytes)
    requires |p| >= 4
    ensures U32(p) < TWO_32 && Le4(U32(p)) == p[..4]
  {
    LeUnsigned(p[..4]);
    assert Pow256(4) == TWO_32;
  }

  lemma U32Le4(n: nat, rest: bytes)
    requires n < TWO_32
    ensures U32(Le4(n) + rest) == n
  {
    assert Pow256(4) == TWO_32;
    UnsignedLe(n, 4);
    assert (Le4(n) + rest)[..4] == Le4(n);
  }

  /** Two's complement of 32 and 64 bits. */
  function Word32(n: int32): word32 { if n < 0 then n + TWO_32 else n }
  function Signed32(w: word32): int32 { if w >= TWO_31 then w - TWO_32 else w }
  function Word64(n: int64): word64 { if n < 0 then n + TWO_64 else n }
  function Signed64(w: word64): int64 { if w >= TWO_63 then w - TWO_64 else w }

  // ------------------------------------------------------------------------ text

  predicate IsText(s: string) { forall i :: 0 <= i < |s| ==> s[i] as int < 256 }

  /** The octets of a Go string. */
  function Raw(s: string): (p: bytes)
    ensures |p| == |s|
  {
    seq(|s|, i requires 0 <= i < |s| => (s[i] as int % 256) as byte)
  }

  function Text(p: bytes): (s: string)
    ensures |s| == |p| && IsText(s)
  {
    seq(|p|, i requires 0 <= i < |p| => p[i] as char)
  }

  lemma TextRaw(s: string)
    requires IsText(s)
    ensures Text(Raw(s)) == s
  {
  }

  lemma RawNul(s: string)
    requires IsText(s) && '\0' !in s
    ensures 0 !in Raw(s)
  {
  }

  /** The index of the first zero byte, or the length when there is none. */
  function NulIndex(p: bytes): (k: nat)
    ensures k <= |p| && 0 !in p[..k] && (k < |p| ==> p[k] == 0)
  {
    if p == [] || p[0] == 0 then 0
    else
      var k := 1 + NulIndex(p[1..]);
      assert p[..k] == [p[0]] + p[1..][..k - 1];
      k
  }

  lemma {:induction false} NulIndexAfter(s: bytes, rest: bytes)
    requires 0 !in s
    ensures NulIndex(s + [0] + rest) == |s|
  {
    if s != [] {
      assert (s + [0] + rest)[1..] == s[1..] + [0] + rest;
      assert s[0] in s;
      assert forall b :: b in s[1..] ==> b in s;
      NulIndexAfter(s[1..], rest);
    }
  }

  // --------------------------------------------------------------------- decimals

  function Digit(n: nat): char
    requires n < 10
  {
    ('0' as int + n) as char
  }

  /** strconv.Itoa on a natural number. */
  function Decimal(n: nat): (s: string)
    ensures s != "" && OnlyDigits(s)
  {
    if n < 10 then [Digit(n)] else Decimal(n / 10) + [Digit(n % 10)]
  }

  predicate OnlyDigits(s: string) { forall i :: 0 <= i < |s| ==> '0' <= s[i] <= '9' }

  /** The number that decimal digits denote. */
  function FromDigits(s: string): nat
    requires OnlyDigits(s)
  {
    if s == "" then 0 else 10 * FromDigits(s[..|s| - 1]) + (s[|s| - 1] as int - '0' as int)
  }

  lemma {:induction false} FromDecimal(n: nat)
    ensures FromDigits(Decimal(n)) == n
  {
    if n >= 10 {
      FromDecimal(n / 10);
      assert Decimal(n)[..|Decimal(n)| - 1] == Decimal(n / 10);
    } else {
      assert Decimal(n)[..0] == "";
    }
  }

  // ----------------------------------------------------------------------- search

  /** The index of the first occurrence of a character, or the length when there is none. */
  function IndexOf(s: string, c: char): (k: nat)
    ensures k <= |s| && c !in s[..k] && (k < |s| ==> s[k] == c)
  {
    if s == "" || s[0] == c then 0
    else
      var k := 1 + IndexOf(s[1..], c);
      assert s[..k] == [s[0]] + s[1..][..k - 1];
      k
  }

  lemma FirstIndex(s: string, c: char, k: nat)
    requires k <= |s| && c !in s[..k] && (k < |s| ==> s[k] == c)
    ensures IndexOf(s, c) == k
  {
    var e := IndexOf(s, c);
    forall i | 0 <= i < k ensures s[i] != c {
      assert s[..k][i] == s[i];
    }
    forall i | 0 <= i < e ensures s[i] != c {
      assert s[..e][i] == s[i];
    }
  }
}
