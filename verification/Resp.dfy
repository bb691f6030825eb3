/** Redis commands on the wire: arrays of bulk strings. A char stands for one octet. */
module Resp {
  import opened Values
  import opened Octets

  // ------------------------------------------------------------------------- numbers

  predicate AllDigits(s: string) { s != "" && OnlyDigits(s) }

  /** strconv.Atoi: an optional sign and decimal digits, within 64 bits. */
  function Atoi(s: string): Option<int>
  {
    var digits := if s != "" && (s[0] == '+' || s[0] == '-') then s[1..] else s;
    if !AllDigits(digits) then None
    else
      var n: int := FromDigits(digits);
      var v := if s[0] == '-' then -n else n;
      if -TWO_63 <= v < TWO_63 then Some(v) else None
  }

  lemma AtoiDecimal(n: nat)
    requires n < TWO_63
    ensures Atoi(Decimal(n)) == Some(n)
  {
    FromDecimal(n);
    var s := Decimal(n);
    assert '0' <= s[0] <= '9';
  }

  // ------------------------------------------------------------------------- reading

  function WithoutReturn(s: string): string
  {
    if s != "" && s[|s| - 1] == '\r' then s[..|s| - 1] else s
  }

  datatype Read<+T> = Read(value: T, rest: string)

  /** One line without its terminator; None when the input ends first. */
  function ReadLine(s: string): Option<Read<string>>
  {
    var k := IndexOf(s, '\n');
    if k == |s| then None else Some(Read(WithoutReturn(s[..k]), s[k + 1..]))
  }

  /** A line that starts with the mark and goes on with a number. */
  function ReadHeader(s: string, mark: char): Option<Read<int>>
  {
    var line := ReadLine(s);
    if line.None? || line.value.value == "" || line.value.value[0] != mark then None
    else
      var n := Atoi(line.value.value[1..]);
      if n.None? then None else Some(Read(n.value, line.value.rest))
  }

  function ReadBulk(s: string): Option<Read<string>>
  {
    var size := ReadHeader(s, '$');
    if size.None? || size.value.value < 0 || |size.value.rest| < size.value.value + 2 then None
    else Some(Read(size.value.rest[..size.value.value], size.value.rest[size.value.value + 2..]))
  }

  function ReadBulks(s: string, n: nat): Option<Read<seq<string>>>
  {
    if n == 0 then Some(Read([], s))
    else
      var first := ReadBulk(s);
      if first.None? then None
      else
        var others := ReadBulks(first.value.rest, n - 1);
        if others.None? then None else Some(Read([first.value.value] + others.value.value, others.value.rest))
  }

  function ReadCommand(s: string): Option<Read<seq<string>>>
  {
    var count := ReadHeader(s, '*');
    if count.None? || count.value.value <= 0 then None else ReadBulks(count.value.rest, count.value.value)
  }

  /** A buffered reader. */
  class Reader {
    var unread: string

    constructor (input: string)
      ensures unread == input
    {
      unread := input;
    }

    method ReadString() returns (line: Option<string>)
      modifies this
      ensures var k := IndexOf(old(unread), '\n');
              if k == |old(unread)| then line == None
              else line == Some(old(unread)[..k + 1]) && unread == old(unread)[k + 1..]
    {
      var k := 0;
      while k < |unread| && unread[k] != '\n'
        invariant 0 <= k <= |unread| && '\n' !in unread[..k]
      {
        k := k + 1;
      }
      FirstIndex(unread, '\n', k);
      if k == |unread| {
        unread := "";
        return None;
      }
      line := Some(unread[..k + 1]);
      unread := unread[k + 1..];
    }

    method ReadFull(n: nat) returns (data: Option<string>)
      modifies this
      ensures if n <= |old(unread)| then data == Some(old(unread)[..n]) && unread == old(unread)[n..] else data == None
    {
      if n > |unread| {
        unread := "";
        return None;
      }
      data := Some(unread[..n]);
      unread := unread[n..];
    }

    method ReadHeaderLine(mark: char) returns (n: Option<int>)
      modifies this
      ensures n.None? <==> ReadHeader(old(unread), mark).None?
      ensures n.Some? ==> ReadHeader(old(unread), mark) == Some(Read(n.value, unread))
    {
      var raw := ReadString();
      if raw.None? {
        return None;
      }
      var line := raw.value[..|raw.value| - 1];
      assert line == old(unread)[..IndexOf(old(unread), '\n')];
      if line != "" && line[|line| - 1] == '\r' {
        line := line[..|line| - 1];
      }
      if line == "" || line[0] != mark {
        return None;
      }
      n := Atoi(line[1..]);
    }

    /** readRESPCommand: the arguments, and the reader left exactly behind them. */
    method ReadRespCommand() returns (args: Option<seq<string>>)
      modifies this
      ensures args.None? <==> ReadCommand(old(unread)).None?
      ensures args.Some? ==> ReadCommand(old(unread)) == Some(Read(args.value, unread))
    {
      hide ReadHeader;
      var count := ReadHeaderLine('*');
      if count.None? || count.value <= 0 {
        return None;
      }
      var found: seq<string> := [];
      ghost var start := unread;
      assert forall more: seq<string> :: found + more == more;
      for i := 0 to count.value
        invariant ReadBulks(start, count.value) == Appended(found, ReadBulks(unread, count.value - i))
      {
        ghost var before := unread;
        var size := ReadHeaderLine('$');
        if size.None? || size.value < 0 {
          return None;
        }
        ghost var tail := unread;
        var data := ReadFull(size.value + 2);
        if data.None? {
          return None;
        }
        var arg := data.value[..size.value];
        assert arg == tail[..size.value];
        assert ReadBulk(before) == Some(Read(arg, unread));
        assert forall more: seq<string> :: found + ([arg] + more) == (found + [arg]) + more;
        found := found + [arg];
      }
      assert found + [] == found;
      return Some(found);
    }
  }

  function Appended(found: seq<string>, r: Option<Read<seq<string>>>): Option<Read<seq<string>>>
  {
    if r.None? then None else Some(Read(found + r.value.value, r.value.rest))
  }

  // ------------------------------------------------------------------------- writing

  function BulkOf(arg: string): string { "$" + Decimal(|arg|) + "\r\n" + arg + "\r\n" }

  function BulksOf(args: seq<string>): string
  {
    if args == [] then "" else BulkOf(args[0]) + BulksOf(args[1..])
  }

  function Command(args: seq<string>): string { "*" + Decimal(|args|) + "\r\n" + BulksOf(args) }

  lemma {:induction false} BulksSplit(a: seq<string>, b: seq<string>)
    ensures BulksOf(a + b) == BulksOf(a) + BulksOf(b)
  {
    hide BulkOf;
    if a == [] {
      assert a + b == b;
    } else {
      assert (a + b)[1..] == a[1..] + b;
      BulksSplit(a[1..], b);
    }
  }

  lemma NoBulks()
    ensures BulksOf([]) == ""
  {
  }

  lemma OneMoreBulk(args: seq<string>, k: nat)
    requires k < |args|
    ensures BulksOf(args[..k + 1]) == BulksOf(args[..k]) + BulkOf(args[k])
  {
    hide BulkOf;
    assert args[..k + 1] == args[..k] + [args[k]];
    BulksSplit(args[..k], [args[k]]);
    assert BulksOf([args[k]]) == BulkOf(args[k]) by { assert [args[k]][1..] == []; }
  }

  /** respBulk: a builder that grows by one argument per round. */
  method RespBulk(args: seq<string>) returns (out: string)
    ensures out == Command(args)
  {
    hide BulkOf, BulksOf, Decimal;
    out := "*" + Decimal(|args|) + "\r\n";
    assert args[..0] == [];
    NoBulks();
    for k := 0 to |args|
      invariant out == "*" + Decimal(|args|) + "\r\n" + BulksOf(args[..k])
    {
      OneMoreBulk(args, k);
      out := out + BulkOf(args[k]);
    }
    assert args[..|args|] == args;
  }

  // ---------------------------------------------------------------------- round trip

  lemma HeaderRead(mark: char, n: nat, rest: string)
    requires n < TWO_63 && mark != '\n' && mark != '\r'
    ensures ReadHeader([mark] + Decimal(n) + "\r\n" + rest, mark) == Some(Read(n, rest))
  {
    var s := [mark] + Decimal(n) + "\r\n" + rest;
    var k := 2 + |Decimal(n)|;
    assert s[..k] == [mark] + Decimal(n) + "\r";
    assert OnlyDigits(Decimal(n));
    assert forall i :: 0 < i < k - 1 ==> s[i] == Decimal(n)[i - 1];
    FirstIndex(s, '\n', k);
    assert s[k + 1..] == rest;
    assert WithoutReturn(s[..k]) == [mark] + Decimal(n);
    assert ([mark] + Decimal(n))[1..] == Decimal(n);
    AtoiDecimal(n);
  }

  lemma BulkRead(arg: string, rest: string)
    requires |arg| < TWO_63
    ensures ReadBulk(BulkOf(arg) + rest) == Some(Read(arg, rest))
  {
    hide ReadHeader, Decimal;
    HeaderRead('$', |arg|, arg + "\r\n" + rest);
    assert BulkOf(arg) + rest == ['$'] + Decimal(|arg|) + "\r\n" + (arg + "\r\n" + rest);
    var tail := arg + "\r\n" + rest;
    assert tail[..|arg|] == arg && tail[|arg| + 2..] == rest;
  }

  lemma {:induction false} BulksRead(args: seq<string>, rest: string)
    requires forall i :: 0 <= i < |args| ==> |args[i]| < TWO_63
    ensures ReadBulks(BulksOf(args) + rest, |args|) == Some(Read(args, rest))
  {
    hide ReadBulk, BulkOf;
    if args == [] {
      assert BulksOf(args) + rest == rest;
    } else {
      BulkRead(args[0], BulksOf(args[1..]) + rest);
      BulksRead(args[1..], rest);
      assert BulksOf(args) + rest == BulkOf(args[0]) + (BulksOf(args[1..]) + rest);
      assert args == [args[0]] + args[1..];
    }
  }

  /**
   * What respBulk writes for any arguments, line feeds and dollar signs included, is read back as the same arguments
   * with exactly the following octets left; only an empty command is refused.
   */
  lemma RoundTrip(args: seq<string>, rest: string)
    requires |args| < TWO_63 && forall i :: 0 <= i < |args| ==> |args[i]| < TWO_63
    ensures ReadCommand(Command(args) + rest) == if args == [] then None else Some(Read(args, rest))
  {
    hide ReadHeader, ReadBulks, BulksOf, Decimal;
    HeaderRead('*', |args|, BulksOf(args) + rest);
    assert Command(args) + rest == ['*'] + Decimal(|args|) + "\r\n" + (BulksOf(args) + rest);
    BulksRead(args, rest);
  }

  /** A command of one short argument, octet by octet: a star and 1, a dollar sign and the length, the argument. */
  lemma OneArgument(name: string, rest: string)
    requires |name| < 10
    ensures var octets := ['*', '1', '\r', '\n', '$', '0' + |name| as char, '\r', '\n'] + name + ['\r', '\n'];
            octets == Command([name]) && ReadCommand(octets + rest) == Some(Read([name], rest))
  {
    hide ReadCommand, BulksOf;
    RoundTrip([name], rest);
    assert Decimal(1) == ['1'] && Decimal(|name|) == ['0' + |name| as char];
    hide Decimal;
    OneBulk(name);
    var head, body := "*" + ['1'] + "\r\n", BulkOf(name);
    assert head == ['*', '1', '\r', '\n'];
    assert body == ['$', '0' + |name| as char, '\r', '\n'] + name + ['\r', '\n'];
    assert Command([name]) == head + body;
  }

  lemma OneBulk(name: string)
    ensures BulksOf([name]) == BulkOf(name)
  {
    hide BulkOf;
    assert [name][1..] == [];
    assert BulkOf(name) + "" == BulkOf(name);
  }
}
