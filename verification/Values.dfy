/** BSON values as the tunnel holds them in memory after decoding. */
module Values {

  datatype Option<+T> = None | Some(value: T)

  newtype byte = x: int | 0 <= x < 256
  type bytes = seq<byte>

  const TWO_31 := 0x8000_0000
  const TWO_32 := 0x1_0000_0000
  const TWO_63 := 0x8000_0000_0000_0000
  const TWO_64 := 0x1_0000_0000_0000_0000

  type int32 = x: int | -TWO_31 <= x < TWO_31
  type int64 = x: int | -TWO_63 <= x < TWO_63
  type word32 = x: nat | x < TWO_32
  type word64 = x: nat | x < TWO_64

  /** Kinds that the tunnel copies without looking inside. */
  datatype ScalarKind =
    | Undefined | ObjectId | DateTime | DbPointer | JavaScript | Symbol | Decimal128 | MinKey | MaxKey

  /**
   * A Go string is a sequence of octets; a `char` of a string here stands for one octet.
   * `Null` is also what looking up an absent key gives, as Go's nil does.
   */
  datatype Value =
    | Double(bits: word64)
    | String(text: string)
    | Document(fields: seq<Field>)
    | Array(items: seq<Value>)
    | Binary(subtype: byte, data: bytes)
    | Bool(flag: bool)
    | Null
    | Regex(pattern: string, options: string)
    | CodeWithScope(code: string, scope: seq<Field>)
    | Int32(small: int32)
    | Timestamp(stamp: word64)
    | Int64(large: int64)
    | Scalar(kind: ScalarKind, payload: bytes)

  datatype Field = Field(key: string, value: Value)

  type Doc = seq<Field>

  /** The first value stored under `key`; Null when there is none. */
  function Get(d: Doc, key: string): (v: Value)
  {
    if d == [] then Null else if d[0].key == key then d[0].value else Get(d[1..], key)
  }

  predicate Present(d: Doc, key: string)
  {
    exists i :: 0 <= i < |d| && d[i].key == key
  }

  predicate UniqueKeys(d: Doc)
  {
    forall i, j :: 0 <= i < j < |d| ==> d[i].key != d[j].key
  }

  /** With unique keys a lookup finds the field wherever it stands. */
  lemma {:induction false} GetAt(d: Doc, i: nat)
    requires UniqueKeys(d) && i < |d|
    ensures Get(d, d[i].key) == d[i].value
  {
    if i > 0 {
      assert d[0].key != d[i].key;
      assert d[1..][i - 1] == d[i];
      GetAt(d[1..], i - 1);
    }
  }

  /** A lookup that gives something gives the value of a field with that key. */
  lemma {:induction false} GetFound(d: Doc, key: string) returns (i: nat)
    requires Present(d, key)
    ensures i < |d| && d[i].key == key && d[i].value == Get(d, key)
  {
    if d[0].key == key {
      i := 0;
    } else {
      var k :| 0 <= k < |d| && d[k].key == key;
      assert d[1..][k - 1] == d[k];
      var j := GetFound(d[1..], key);
      i := j + 1;
    }
  }

  lemma {:induction false} GetAbsent(d: Doc, key: string)
    requires !Present(d, key)
    ensures Get(d, key) == Null
  {
    if d != [] {
      assert d[0].key != key;
      forall i | 0 <= i < |d[1..]| ensures d[1..][i].key != key {
        assert d[1..][i] == d[i + 1];
      }
      GetAbsent(d[1..], key);
    }
  }

  // ---------------------------------------------------------------- numbers

  const EXPONENT_UNIT: int := 0x10_0000_0000_0000  // 2^52

  function Pow2(n: nat): (p: int)
    ensures p >= 1
  {
    if n == 0 then 1 else 2 * Pow2(n - 1)
  }

  lemma {:induction false} Pow2Add(a: nat, b: nat)
    ensures Pow2(a + b) == Pow2(a) * Pow2(b)
  {
    if a > 0 {
      Pow2Add(a - 1, b);
      assert Pow2(a + b) == 2 * Pow2(a - 1 + b);
    }
  }

  /**
   * The integer an IEEE 754 double denotes, when it denotes one: NaN, infinities and
   * fractions give None. The significand m and exponent e denote m * 2^e.
   */
  function IntegerOfDouble(bits: word64): Option<int>
  {
    var exponent := (bits / EXPONENT_UNIT) % 2048;
    var fraction := bits % EXPONENT_UNIT;
    if exponent == 2047 then None
    else
      var m := if exponent == 0 then fraction else fraction + EXPONENT_UNIT;
      var e := (if exponent == 0 then 1 else exponent) - 1075;
      var sign := if bits >= TWO_63 then -1 else 1;
      if e >= 0 then Some(sign * (m * Pow2(e)))
      else if m % Pow2(-e) == 0 then Some(sign * (m / Pow2(-e)))
      else None
  }

  /** The doubles 1.0 and 0.0 denote the integers 1 and 0. */
  lemma OneAndZero()
    ensures IntegerOfDouble(0x3FF0_0000_0000_0000) == Some(1) && IntegerOfDouble(0) == Some(0)
  {
    hide Pow2;
    OfUnit();
    NothingOver(1074);
  }

  lemma OfUnit()
    ensures Pow2(52) == EXPONENT_UNIT
  {
    assert Pow2(13) == 8192;
    Pow2Add(13, 13);
    Pow2Add(26, 26);
  }

  lemma NothingOver(n: nat)
    ensures 0 % Pow2(n) == 0 && 0 / Pow2(n) == 0
  {
    var p := Pow2(n);
    assert p > 0;
  }

  predicate FiniteDouble(bits: word64) { (bits / EXPONENT_UNIT) % 2048 != 2047 }

  /** mongoPolicyInt: the integer value of a number that has one in 64 bits. */
  function IntOf(v: Value): Option<int>
  {
    match v
    case Int32(n) => Some(n)
    case Int64(n) => Some(n)
    case Double(bits) =>
      (match IntegerOfDouble(bits)
       case Some(n) => if -TWO_63 <= n < TWO_63 then Some(n) else None
       case None => None)
    case _ => None
  }

  /** mongoAuthNumber: as IntOf, but a double only inside the exactly representable range. */
  function AuthNumber(v: Value): Option<int>
  {
    match v
    case Int32(n) => Some(n)
    case Int64(n) => Some(n)
    case Double(bits) =>
      (match IntegerOfDouble(bits)
       case Some(n) => if -0x20_0000_0000_0000 <= n <= 0x20_0000_0000_0000 then Some(n) else None
       case None => None)
    case _ => None
  }

  const MAX_INT32 := 0x7FFF_FFFF
  const MAX_INT64 := 0x7FFF_FFFF_FFFF_FFFF

  predicate InRange(v: Value, lo: int, hi: int)
  {
    IntOf(v).Some? && lo <= IntOf(v).value <= hi
  }
}
