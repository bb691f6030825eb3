/** Key/value text: how a pasted line is cut into entries, and how entries are written and read back. */
module KvText {
  import opened Values
  import opened Octets

  datatype Entry = Entry(key: string, value: string)

  datatype Warning = Warning(line: nat, kind: Trouble, content: string)

  datatype Trouble = Glued(count: nat) | Skipped

  // ------------------------------------------------------------------------ characters

  predicate Upper(c: char) { 'A' <= c <= 'Z' }

  predicate Word(c: char) { Upper(c) || '0' <= c <= '9' || c == '_' }

  predicate Glue(c: char) { Word(c) || 'a' <= c <= 'z' || c == '.' || c == '-' }

  /** The blanks of a regular expression. */
  predicate Blank(c: char) { c == ' ' || c == '\t' || c == '\n' || c == '\r' || c as int == 12 }

  /** The white space of one octet. */
  predicate Space1(c: char) { 9 <= c as int <= 13 || c == ' ' }

  /** The white space runes that UTF-8 encodes in two and in three octets. */
  predicate Space2(a: char, b: char) { a as int == 0xC2 && (b as int == 0x85 || b as int == 0xA0) }

  predicate Space3(a: char, b: char, c: char)
  {
    || (a as int == 0xE1 && b as int == 0x9A && c as int == 0x80)
    || (a as int == 0xE2 && b as int == 0x80 && (0x80 <= c as int <= 0x8A || c as int in {0xA8, 0xA9, 0xAF}))
    || (a as int == 0xE2 && b as int == 0x81 && c as int == 0x9F)
    || (a as int == 0xE3 && b as int == 0x80 && c as int == 0x80)
  }

  /** The length of the white space rune at the start, 0 when there is none. */
  function LeadingSpace(s: string): (n: nat)
    ensures n <= |s|
  {
    if |s| >= 1 && Space1(s[0]) then 1
    else if |s| >= 2 && Space2(s[0], s[1]) then 2
    else if |s| >= 3 && Space3(s[0], s[1], s[2]) then 3
    else 0
  }

  function TrailingSpace(s: string): (n: nat)
    ensures n <= |s|
  {
    var k := |s|;
    if k >= 1 && Space1(s[k - 1]) then 1
    else if k >= 2 && Space2(s[k - 2], s[k - 1]) then 2
    else if k >= 3 && Space3(s[k - 3], s[k - 2], s[k - 1]) then 3
    else 0
  }

  function TrimLeft(s: string): (t: string)
    ensures |t| <= |s| && LeadingSpace(t) == 0
    ensures if LeadingSpace(s) == 0 then t == s else |t| < |s|
    ensures forall c :: c in t ==> c in s
    decreases |s|
  {
    var n := LeadingSpace(s);
    if n == 0 then s else TrimLeft(s[n..])
  }

  function TrimRight(s: string): (t: string)
    ensures |t| <= |s| && TrailingSpace(t) == 0
    ensures if TrailingSpace(s) == 0 then t == s else |t| < |s|
    ensures forall c :: c in t ==> c in s
    decreases |s|
  {
    var n := TrailingSpace(s);
    if n == 0 then s else TrimRight(s[..|s| - n])
  }

  /** strings.TrimSpace. */
  function Trim(s: string): (t: string)
    ensures |t| <= |s| && forall c :: c in t ==> c in s
  {
    TrimRight(TrimLeft(s))
  }

  // ------------------------------------------------------------------- glued entries

  function RunEnd(s: string, i: nat, word: bool): (j: nat)
    requires i <= |s|
    ensures i <= j <= |s|
    decreases |s| - i
  {
    if i < |s| && (if word then Word(s[i]) else Blank(s[i])) then RunEnd(s, i + 1, word) else i
  }

  /** The end of a match of "capital, words, blanks, equals sign" that starts at i; None when there is none. */
  function MatchAt(s: string, i: nat): (end: Option<nat>)
    requires i < |s|
    ensures end.Some? ==> i + 1 < end.value <= |s| && Upper(s[i])
  {
    if !Upper(s[i]) then None
    else
      var j := RunEnd(s, RunEnd(s, i + 1, true), false);
      if j < |s| && s[j] == '=' then Some(j + 1) else None
  }

  /** Where the successive leftmost matches start, from position i on. */
  function Starts(s: string, i: nat): (r: seq<nat>)
    requires i <= |s|
    ensures forall k :: 0 <= k < |r| ==> i <= r[k] < |s|
    ensures forall j, k :: 0 <= j < k < |r| ==> r[j] < r[k]
    decreases |s| - i
  {
    if i == |s| then []
    else if MatchAt(s, i).Some? then [i] + Starts(s, MatchAt(s, i).value)
    else Starts(s, i + 1)
  }

  predicate IsCut(s: string, i: nat)
  {
    0 < i < |s| && Glue(s[i - 1])
  }

  function Cuts(s: string, starts: seq<nat>): (r: seq<nat>)
  {
    if starts == [] then [] else (if IsCut(s, starts[0]) then [starts[0]] else []) + Cuts(s, starts[1..])
  }

  lemma {:induction false} CutsAreStarts(s: string, starts: seq<nat>, x: nat)
    ensures x in Cuts(s, starts) <==> x in starts && IsCut(s, x)
  {
    if starts != [] {
      CutsAreStarts(s, starts[1..], x);
      assert starts == [starts[0]] + starts[1..];
    }
  }

  lemma {:induction false} CutsIncrease(s: string, starts: seq<nat>)
    requires forall j, k :: 0 <= j < k < |starts| ==> starts[j] < starts[k]
    ensures forall j, k :: 0 <= j < k < |Cuts(s, starts)| ==> Cuts(s, starts)[j] < Cuts(s, starts)[k]
  {
    if starts != [] {
      CutsIncrease(s, starts[1..]);
      var rest := Cuts(s, starts[1..]);
      forall k | 0 <= k < |rest| ensures starts[0] < rest[k] {
        CutsAreStarts(s, starts[1..], rest[k]);
        var i :| 0 <= i < |starts[1..]| && starts[1..][i] == rest[k];
        assert starts[i + 1] == rest[k];
      }
    }
  }

  predicate Rising(cuts: seq<nat>, start: nat, end: nat)
  {
    && (forall k :: 0 <= k < |cuts| ==> start < cuts[k] < end)
    && forall j, k :: 0 <= j < k < |cuts| ==> cuts[j] < cuts[k]
  }

  function SliceAt(s: string, start: nat, cuts: seq<nat>): seq<string>
    requires start <= |s| && Rising(cuts, start, |s|)
    decreases |cuts|
  {
    if cuts == [] then [s[start..]]
    else
      assert Rising(cuts[1..], cuts[0], |s|);
      [s[start..cuts[0]]] + SliceAt(s, cuts[0], cuts[1..])
  }

  /** Where the line is cut: at matches that are glued to what precedes them, when there is more than one match. */
  function CutPoints(line: string): (r: seq<nat>)
    ensures Rising(r, 0, |line|)
    ensures forall k :: 0 <= k < |r| ==> IsCut(line, r[k]) && MatchAt(line, r[k]).Some?
  {
    var starts := Starts(line, 0);
    if |starts| <= 1 then []
    else
      CutsRise(line);
      Cuts(line, starts)
  }

  lemma CutsRise(line: string)
    ensures var r := Cuts(line, Starts(line, 0));
            && Rising(r, 0, |line|)
            && forall k :: 0 <= k < |r| ==> IsCut(line, r[k]) && MatchAt(line, r[k]).Some?
  {
    hide Starts, MatchAt, Cuts, Glue;
    var starts := Starts(line, 0);
    var r := Cuts(line, starts);
    CutsIncrease(line, starts);
    StartsMatch(line, 0);
    forall k | 0 <= k < |r| ensures IsCut(line, r[k]) && MatchAt(line, r[k]).Some? {
      CutsAreStarts(line, starts, r[k]);
      var i :| 0 <= i < |starts| && starts[i] == r[k];
    }
  }

  lemma {:induction false} StartsMatch(s: string, i: nat)
    requires i <= |s|
    ensures forall k :: 0 <= k < |Starts(s, i)| ==> MatchAt(s, Starts(s, i)[k]).Some?
    decreases |s| - i
  {
    hide MatchAt;
    if i < |s| {
      if MatchAt(s, i).Some? {
        assert i + 1 < MatchAt(s, i).value by { MatchGoesOn(s, i); }
        StartsMatch(s, MatchAt(s, i).value);
      } else {
        StartsMatch(s, i + 1);
      }
    }
  }

  lemma MatchGoesOn(s: string, i: nat)
    requires i < |s| && MatchAt(s, i).Some?
    ensures i + 1 < MatchAt(s, i).value <= |s|
  {
  }

  function Segments(line: string): seq<string>
  {
    SliceAt(line, 0, CutPoints(line))
  }

  function Flatten(parts: seq<string>): string
  {
    if parts == [] then "" else parts[0] + Flatten(parts[1..])
  }

  /** The offset at which a segment starts. */
  function OffsetOf(parts: seq<string>, k: nat): nat
    requires k <= |parts|
  {
    if k == 0 then 0 else |parts[0]| + OffsetOf(parts[1..], k - 1)
  }

  lemma {:induction false} SlicesFit(s: string, start: nat, cuts: seq<nat>)
    requires start < |s| && Rising(cuts, start, |s|)
    ensures Flatten(SliceAt(s, start, cuts)) == s[start..]
    ensures |SliceAt(s, start, cuts)| == |cuts| + 1
    ensures forall k :: 0 <= k <= |cuts| ==> SliceAt(s, start, cuts)[k] != ""
    ensures forall k :: 0 <= k < |cuts| ==> start + OffsetOf(SliceAt(s, start, cuts), k + 1) == cuts[k]
    decreases |cuts|
  {
    var parts := SliceAt(s, start, cuts);
    if cuts == [] {
      assert Flatten(parts[1..]) == "";
    } else {
      assert Rising(cuts[1..], cuts[0], |s|);
      SlicesFit(s, cuts[0], cuts[1..]);
      var rest := SliceAt(s, cuts[0], cuts[1..]);
      assert parts[1..] == rest;
      assert s[start..] == s[start..cuts[0]] + s[cuts[0]..];
      forall k | 0 <= k < |cuts| ensures start + OffsetOf(parts, k + 1) == cuts[k] {
        assert OffsetOf(parts, k + 1) == |parts[0]| + OffsetOf(rest, k);
        if k > 0 {
          assert cuts[1..][k - 1] == cuts[k];
        }
      }
    }
  }

  /** A segment starts with a capital, right after a letter, digit, underscore, dot or dash. */
  predicate GluedAt(parts: seq<string>, k: nat)
    requires 0 < k < |parts|
  {
    parts[k] != "" && Upper(parts[k][0]) && parts[k - 1] != "" && Glue(parts[k - 1][|parts[k - 1]| - 1])
  }

  /**
   * Cutting loses nothing: the segments of a non-empty line are non-empty and put together give the line, and each
   * one but the first starts at a capital that is glued to what precedes it.
   */
  lemma SegmentsAreLossless(line: string)
    requires line != ""
    ensures var parts := Segments(line);
            && Flatten(parts) == line
            && (forall k :: 0 <= k < |parts| ==> parts[k] != "")
            && forall k :: 0 < k < |parts| ==> GluedAt(parts, k)
  {
    var cuts, parts := CutPoints(line), Segments(line);
    SlicesFit(line, 0, cuts);
    assert line[0..] == line;
    forall k | 0 < k < |parts| ensures GluedAt(parts, k) {
      SliceEnds(line, 0, cuts, k);
      assert IsCut(line, cuts[k - 1]) && MatchAt(line, cuts[k - 1]).Some?;
    }
  }

  lemma {:induction false} SliceEnds(s: string, start: nat, cuts: seq<nat>, k: nat)
    requires start < |s| && Rising(cuts, start, |s|) && 0 < k <= |cuts|
    ensures |SliceAt(s, start, cuts)| == |cuts| + 1
    ensures var parts := SliceAt(s, start, cuts);
            && parts[k] != "" && parts[k][0] == s[cuts[k - 1]]
            && parts[k - 1] != "" && parts[k - 1][|parts[k - 1]| - 1] == s[cuts[k - 1] - 1]
    decreases |cuts|
  {
    SlicesFit(s, start, cuts);
    assert Rising(cuts[1..], cuts[0], |s|);
    var rest := SliceAt(s, cuts[0], cuts[1..]);
    SlicesFit(s, cuts[0], cuts[1..]);
    assert SliceAt(s, start, cuts)[1..] == rest;
    if k > 1 {
      SliceEnds(s, cuts[0], cuts[1..], k - 1);
      assert SliceAt(s, start, cuts)[k] == rest[k - 1] && SliceAt(s, start, cuts)[k - 1] == rest[k - 2];
    } else {
      SliceStart(s, cuts[0], cuts[1..]);
    }
  }

  lemma SliceStart(s: string, start: nat, cuts: seq<nat>)
    requires start < |s| && Rising(cuts, start, |s|)
    ensures SliceAt(s, start, cuts)[0] != "" && SliceAt(s, start, cuts)[0][0] == s[start]
  {
  }

  /** splitSegments: its two loops, over the matches and over the cuts. */
  method SplitSegments(line: string) returns (parts: seq<string>)
    ensures parts == Segments(line)
  {
    hide Starts, MatchAt, Glue, Cuts;
    var starts := Starts(line, 0);
    if |starts| <= 1 {
      assert line[0..] == line;
      return [line];
    }
    var cuts := GluedStarts(line, starts);
    assert cuts == CutPoints(line);
    if |cuts| == 0 {
      assert line[0..] == line;
      return [line];
    }
    parts := Slices(line, cuts);
  }

  method GluedStarts(line: string, starts: seq<nat>) returns (cuts: seq<nat>)
    requires forall k :: 0 <= k < |starts| ==> starts[k] < |line|
    ensures cuts == Cuts(line, starts)
  {
    cuts := [];
    for k := 0 to |starts|
      invariant cuts == Cuts(line, starts[..k])
    {
      hide Cuts, Glue;
      CutsStep(line, starts, k);
      if starts[k] == 0 {
        continue;
      }
      if !Glue(line[starts[k] - 1]) {
        continue;
      }
      cuts := cuts + [starts[k]];
    }
    assert starts[..|starts|] == starts;
  }

  lemma {:induction false} CutsStep(s: string, starts: seq<nat>, k: nat)
    requires k < |starts|
    ensures Cuts(s, starts[..k + 1]) == if IsCut(s, starts[k]) then Cuts(s, starts[..k]) + [starts[k]]
                                        else Cuts(s, starts[..k])
    decreases k
  {
    hide IsCut;
    if k == 0 {
      assert starts[..1][1..] == [];
    } else {
      assert starts[..k + 1][1..] == starts[1..][..k] && starts[..k][1..] == starts[1..][..k - 1];
      CutsStep(s, starts[1..], k - 1);
    }
  }

  method Slices(line: string, cuts: seq<nat>) returns (parts: seq<string>)
    requires Rising(cuts, 0, |line|)
    ensures parts == SliceAt(line, 0, cuts)
  {
    parts := [];
    var start: nat := 0;
    for k := 0 to |cuts|
      invariant start <= |line| && Rising(cuts[k..], start, |line|)
      invariant SliceAt(line, 0, cuts) == parts + SliceAt(line, start, cuts[k..])
    {
      SliceStep(line, start, cuts, k);
      ghost var before := parts;
      parts := parts + [line[start..cuts[k]]];
      start := cuts[k];
      hide SliceAt, Rising;
    }
    parts := parts + [line[start..]];
  }

  lemma SliceStep(s: string, start: nat, cuts: seq<nat>, k: nat)
    requires k < |cuts| && start <= |s| && Rising(cuts[k..], start, |s|)
    ensures cuts[k] < |s| && start < cuts[k] && Rising(cuts[k + 1..], cuts[k], |s|)
    ensures SliceAt(s, start, cuts[k..]) == [s[start..cuts[k]]] + SliceAt(s, cuts[k], cuts[k + 1..])
  {
    assert cuts[k..][0] == cuts[k] && cuts[k..][1..] == cuts[k + 1..];
  }

  // --------------------------------------------------------------------------- parsing

  predicate KeyStart(c: char) { Upper(c) || 'a' <= c <= 'z' || c == '_' }

  /** ValidateKey. */
  predicate ValidKey(key: string)
  {
    key != "" && KeyStart(key[0]) && forall i :: 0 <= i < |key| ==> Glue(key[i])
  }

  predicate Quoted(value: string)
  {
    |value| >= 2 && value[0] == value[|value| - 1] && (value[0] == '"' || value[0] == '\'')
  }

  /** NormValue: one pair of matching quotes is stripped. */
  function Norm(value: string): (r: string)
    ensures r == value <==> !Quoted(value)
    ensures forall c :: c in r ==> c in value
  {
    if Quoted(value) then value[1..|value| - 1] else value
  }

  function ParseOne(segment: string): Option<Entry>
  {
    var i := IndexOf(segment, '=');
    if i == |segment| then None
    else
      var key, value := Trim(segment[..i]), Norm(Trim(segment[i + 1..]));
      if ValidKey(key) then Some(Entry(key, value)) else None
  }

  function SegmentItems(segments: seq<string>): seq<Entry>
  {
    if segments == [] then []
    else (if ParseOne(segments[0]).Some? then [ParseOne(segments[0]).value] else []) + SegmentItems(segments[1..])
  }

  function SegmentWarnings(segments: seq<string>, line: nat): seq<Warning>
  {
    if segments == [] then []
    else (if ParseOne(segments[0]).None? then [Warning(line, Skipped, Trim(segments[0]))] else []) +
         SegmentWarnings(segments[1..], line)
  }

  predicate Skippable(line: string) { line == "" || line[0] == '#' }

  function LineItems(raw: string): seq<Entry>
  {
    var line := Trim(raw);
    if Skippable(line) then [] else SegmentItems(Segments(line))
  }

  function LineWarnings(raw: string, n: nat): seq<Warning>
  {
    var line := Trim(raw);
    if Skippable(line) then []
    else (if |Segments(line)| > 1 then [Warning(n, Glued(|Segments(line)|), line)] else []) +
         SegmentWarnings(Segments(line), n)
  }

  function Items(lines: seq<string>): seq<Entry>
  {
    if lines == [] then [] else LineItems(lines[0]) + Items(lines[1..])
  }

  function Warnings(lines: seq<string>, n: nat): seq<Warning>
  {
    if lines == [] then [] else LineWarnings(lines[0], n) + Warnings(lines[1..], n + 1)
  }

  /** strings.Split at line feeds. */
  function Lines(text: string): (r: seq<string>)
    ensures r != []
    decreases |text|
  {
    var i := IndexOf(text, '\n');
    if i == |text| then [text] else [text[..i]] + Lines(text[i + 1..])
  }

  /** The entries and the warnings of one line. */
  method ParseLine(raw: string, n: nat) returns (items: seq<Entry>, warnings: seq<Warning>)
    ensures items == LineItems(raw)
    ensures warnings == LineWarnings(raw, n)
  {
    hide ParseOne, Segments, Trim;
    items, warnings := [], [];
    var line := Trim(raw);
    if line == "" || line[0] == '#' {
      return;
    }
    var segments := SplitSegments(line);
    if |segments| > 1 {
      warnings := [Warning(n, Glued(|segments|), line)];
    }
    ghost var first := warnings;
    for k := 0 to |segments|
      invariant items == SegmentItems(segments[..k])
      invariant warnings == first + SegmentWarnings(segments[..k], n)
    {
      SegmentsStep(segments, k, n);
      hide SegmentItems, SegmentWarnings;
      var entry := ParseOne(segments[k]);
      if entry.None? {
        warnings := warnings + [Warning(n, Skipped, Trim(segments[k]))];
        continue;
      }
      items := items + [entry.value];
    }
    assert segments[..|segments|] == segments;
  }

  lemma {:induction false} SegmentsStep(segments: seq<string>, k: nat, n: nat)
    requires k < |segments|
    ensures SegmentItems(segments[..k + 1]) ==
            SegmentItems(segments[..k]) + (if ParseOne(segments[k]).Some? then [ParseOne(segments[k]).value] else [])
    ensures SegmentWarnings(segments[..k + 1], n) ==
            SegmentWarnings(segments[..k], n) +
            (if ParseOne(segments[k]).None? then [Warning(n, Skipped, Trim(segments[k]))] else [])
    decreases k
  {
    hide ParseOne, Trim;
    if k == 0 {
      assert segments[..1][1..] == [];
    } else {
      assert segments[..k + 1][1..] == segments[1..][..k] && segments[..k][1..] == segments[1..][..k - 1];
      SegmentsStep(segments[1..], k - 1, n);
    }
  }

  method ParseKV(text: string) returns (items: seq<Entry>, warnings: seq<Warning>)
    ensures items == Items(Lines(text)) && warnings == Warnings(Lines(text), 1)
  {
    hide LineItems, LineWarnings;
    items, warnings := [], [];
    var lines := Lines(text);
    for i := 0 to |lines|
      invariant Items(lines) == items + Items(lines[i..])
      invariant Warnings(lines, 1) == warnings + Warnings(lines[i..], i + 1)
    {
      assert lines[i..][1..] == lines[i + 1..];
      var found, trouble := ParseLine(lines[i], i + 1);
      items, warnings := items + found, warnings + trouble;
    }
  }
}
