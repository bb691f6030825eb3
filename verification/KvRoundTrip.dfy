/** Writing entries as text and reading the text back. */
module KvRoundTrip {
  import opened Values
  import opened Octets
  import opened KvText

  function Line(e: Entry): string { e.key + " = " + e.value }

  /** The listing of Export: one line for each entry. */
  function ExportText(entries: seq<Entry>): string
  {
    if entries == [] then "" else Line(entries[0]) + "\n" + ExportText(entries[1..])
  }

  // ------------------------------------------------------------------- about trimming

  lemma LeadingOfPrefix(s: string, j: nat)
    requires j <= |s|
    ensures LeadingSpace(s[..j]) > 0 ==> LeadingSpace(s) == LeadingSpace(s[..j])
  {
  }

  /** A leading and a trailing white space rune are the same rune or do not overlap. */
  lemma SpacesDoNotOverlap(s: string)
    requires LeadingSpace(s) > 0 && TrailingSpace(s) > 0
    ensures LeadingSpace(s) + TrailingSpace(s) <= |s| || LeadingSpace(s) == TrailingSpace(s) == |s|
  {
  }

  lemma {:induction false} TrimDropsTail(s: string)
    requires TrailingSpace(s) > 0
    ensures Trim(s[..|s| - TrailingSpace(s)]) == Trim(s)
    decreases |s|
  {
    var n, m := LeadingSpace(s), TrailingSpace(s);
    var y := s[..|s| - m];
    if n == 0 {
      LeadingOfPrefix(s, |s| - m);
    } else {
      SpacesDoNotOverlap(s);
      if n + m <= |s| {
        assert s[n..][..|s| - n - m] == y[n..];
        TailAndHead(s);
        TrimDropsTail(s[n..]);
      } else {
        assert y == "" && s[n..] == "";
      }
    }
  }

  lemma TailAndHead(s: string)
    requires LeadingSpace(s) > 0 && TrailingSpace(s) > 0 && LeadingSpace(s) + TrailingSpace(s) <= |s|
    ensures TrailingSpace(s[LeadingSpace(s)..]) == TrailingSpace(s)
    ensures LeadingSpace(s[..|s| - TrailingSpace(s)]) == LeadingSpace(s)
  {
  }

  lemma {:induction false} TrimAfterTrimRight(s: string)
    ensures Trim(TrimRight(s)) == Trim(s)
    decreases |s|
  {
    if TrailingSpace(s) > 0 {
      TrimAfterTrimRight(s[..|s| - TrailingSpace(s)]);
      TrimDropsTail(s);
    }
  }

  lemma TrimAfterBlank(s: string)
    ensures Trim(" " + s) == Trim(s)
  {
    assert (" " + s)[1..] == s;
  }

  /** Trimming on the right stops at an equals sign. */
  lemma {:induction false} TrimRightStops(p: string, w: string)
    requires p != "" && p[|p| - 1] == '='
    ensures TrimRight(p + w) == p + TrimRight(w)
    decreases |w|
  {
    hide TrailingSpace;
    TrailingBehindEquals(p, w);
    if TrailingSpace(w) > 0 {
      var n := TrailingSpace(w);
      assert (p + w)[..|p + w| - n] == p + w[..|w| - n];
      TrimRightStops(p, w[..|w| - n]);
    }
  }

  lemma TrailingBehindEquals(p: string, w: string)
    requires p != "" && p[|p| - 1] == '='
    ensures TrailingSpace(p + w) == TrailingSpace(w)
  {
    var s := p + w;
    assert s[|p| - 1] == '=';
    assert |w| >= 1 ==> s[|s| - 1] == w[|w| - 1];
    assert |w| >= 2 ==> s[|s| - 2] == w[|w| - 2];
    assert |w| >= 3 ==> s[|s| - 3] == w[|w| - 3];
  }

  // ---------------------------------------------------------------------- one entry

  lemma KeyHasNoEquals(key: string)
    requires ValidKey(key)
    ensures '=' !in key && '\n' !in key && key[0] != '#'
    ensures LeadingSpace(key) == 0 && TrailingSpace(key) == 0 && Trim(key + " ") == key
  {
    assert forall i :: 0 <= i < |key| ==> Glue(key[i]);
    assert (key + " ")[..|key|] == key;
    assert TrailingSpace(key + " ") == 1;
    assert LeadingSpace(key + " ") == 0;
  }

  /** The line of an entry with a valid key reads as that key and the trimmed, unquoted value. */
  lemma LineReads(e: Entry)
    requires ValidKey(e.key)
    ensures var line := Trim(Line(e));
            && !Skippable(line)
            && ParseOne(line) == Some(Entry(e.key, Norm(Trim(e.value))))
  {
    hide Norm, ValidKey, Glue, LeadingSpace, TrailingSpace;
    KeyHasNoEquals(e.key);
    assert e.key != "" by { KeyIsNotEmpty(e.key); }
    var p := e.key + " =";
    var w := TrimRight(" " + e.value);
    LeadingStays(e);
    assert Line(e) == p + (" " + e.value);
    TrimRightStops(p, " " + e.value);
    var line := p + w;
    assert Trim(Line(e)) == line;
    assert line[..|e.key| + 1] == e.key + " ";
    FirstIndex(line, '=', |e.key| + 1);
    assert line[|e.key| + 2..] == w;
    TrimAfterTrimRight(" " + e.value);
    TrimAfterBlank(e.value);
  }

  lemma KeyIsNotEmpty(key: string)
    requires ValidKey(key)
    ensures key != ""
  {
  }

  lemma LeadingStays(e: Entry)
    requires ValidKey(e.key)
    ensures TrimLeft(Line(e)) == Line(e) && Line(e)[0] == e.key[0]
  {
    assert LeadingSpace(Line(e)) == 0;
  }

  /** Entries that survive being written and read. */
  predicate Clean(e: Entry)
  {
    && ValidKey(e.key) && '\n' !in e.value && Trim(e.value) == e.value && !Quoted(e.value)
    && |Segments(Trim(Line(e)))| == 1
  }

  lemma SingleSegment(line: string)
    requires line != ""
    ensures |Segments(line)| >= 1
    ensures |Segments(line)| == 1 ==> Segments(line) == [line]
  {
    SegmentsAreLossless(line);
    SlicesFit(line, 0, CutPoints(line));
    if |Segments(line)| == 1 {
      assert Segments(line)[1..] == [];
      assert Flatten(Segments(line)) == Segments(line)[0] + "";
    }
  }

  /** For a valid key: no warning means one segment, and then the one entry is that of LineReads. */
  lemma LineOutcome(e: Entry, n: nat)
    requires ValidKey(e.key)
    ensures LineWarnings(Line(e), n) == [] <==> |Segments(Trim(Line(e)))| == 1
    ensures LineWarnings(Line(e), n) == [] ==> LineItems(Line(e)) == [Entry(e.key, Norm(Trim(e.value)))]
  {
    hide Segments, ParseOne, ValidKey, Norm;
    var line := Trim(Line(e));
    LineReads(e);
    SingleSegment(line);
    if |Segments(line)| == 1 {
      assert [line][1..] == [];
      assert SegmentItems([]) == [] && SegmentWarnings([], n) == [];
      assert SegmentItems([line]) == [ParseOne(line).value];
      assert SegmentWarnings([line], n) == [];
    }
  }

  lemma NormOfTrim(v: string)
    ensures Norm(Trim(v)) == v <==> Trim(v) == v && !Quoted(v)
  {
    if Norm(Trim(v)) == v {
      assert |Norm(Trim(v))| <= |Trim(v)| <= |v|;
      assert Quoted(Trim(v)) ==> |Norm(Trim(v))| < |v|;
    }
  }

  // --------------------------------------------------------------------- all entries

  function LinesOf(entries: seq<Entry>): seq<string>
  {
    if entries == [] then [""] else [Line(entries[0])] + LinesOf(entries[1..])
  }

  predicate OneLine(e: Entry) { '\n' !in e.key && '\n' !in e.value }

  lemma {:induction false} ExportLines(entries: seq<Entry>)
    requires forall i :: 0 <= i < |entries| ==> OneLine(entries[i])
    ensures Lines(ExportText(entries)) == LinesOf(entries)
  {
    if entries == [] {
      FirstIndex("", '\n', 0);
    } else {
      var line, rest := Line(entries[0]), ExportText(entries[1..]);
      assert OneLine(entries[0]);
      assert ExportText(entries)[..|line|] == line;
      FirstIndex(ExportText(entries), '\n', |line|);
      assert ExportText(entries)[|line| + 1..] == rest;
      ExportLines(entries[1..]);
    }
  }

  predicate Sane(e: Entry) { ValidKey(e.key) && '\n' !in e.value }

  lemma ParsedIsSane(segment: string)
    requires '\n' !in segment && ParseOne(segment).Some?
    ensures Sane(ParseOne(segment).value)
  {
    hide ValidKey, Trim, Norm;
    var i := IndexOf(segment, '=');
    assert forall c :: c in segment[i + 1..] ==> c in segment;
  }

  lemma {:induction false} SegmentsAreSane(segments: seq<string>)
    requires forall k :: 0 <= k < |segments| ==> '\n' !in segments[k]
    ensures forall e :: e in SegmentItems(segments) ==> Sane(e)
  {
    hide ParseOne, Sane;
    if segments != [] {
      assert forall k :: 0 <= k < |segments[1..]| ==> segments[1..][k] == segments[k + 1];
      SegmentsAreSane(segments[1..]);
      if ParseOne(segments[0]).Some? { ParsedIsSane(segments[0]); }
    }
  }

  lemma {:induction false} PartsOfFlat(parts: seq<string>, k: nat)
    requires k < |parts|
    ensures forall c :: c in parts[k] ==> c in Flatten(parts)
  {
    if k > 0 { PartsOfFlat(parts[1..], k - 1); }
  }

  lemma LineItemsAreSane(raw: string)
    requires '\n' !in raw
    ensures forall e :: e in LineItems(raw) ==> Sane(e)
  {
    hide Segments, SegmentItems, Sane;
    var line := Trim(raw);
    if !Skippable(line) {
      SegmentsAreLossless(line);
      var parts := Segments(line);
      forall k | 0 <= k < |parts| ensures '\n' !in parts[k] {
        PartsOfFlat(parts, k);
      }
      SegmentsAreSane(parts);
    }
  }

  lemma {:induction false} LinesHaveNoFeeds(text: string)
    ensures forall k :: 0 <= k < |Lines(text)| ==> '\n' !in Lines(text)[k]
    decreases |text|
  {
    var i := IndexOf(text, '\n');
    if i == |text| {
      assert text[..i] == text;
    } else {
      LinesHaveNoFeeds(text[i + 1..]);
    }
  }

  lemma {:induction false} ItemsOfLines(lines: seq<string>)
    requires forall k :: 0 <= k < |lines| ==> '\n' !in lines[k]
    ensures forall e :: e in Items(lines) ==> Sane(e)
  {
    hide LineItems, Sane;
    if lines != [] {
      LineItemsAreSane(lines[0]);
      assert forall k :: 0 <= k < |lines[1..]| ==> lines[1..][k] == lines[k + 1];
      ItemsOfLines(lines[1..]);
    }
  }

  lemma ItemsAreSane(text: string)
    ensures forall e :: e in Items(Lines(text)) ==> Sane(e)
  {
    hide Items, Lines, Sane;
    LinesHaveNoFeeds(text);
    ItemsOfLines(Lines(text));
  }

  lemma SaneIsOneLine(e: Entry)
    requires Sane(e)
    ensures OneLine(e)
  {
    KeyHasNoEquals(e.key);
  }

  /** Line by line: the text parses without a warning into the entries exactly when each of them is clean. */
  lemma {:induction false} LinesDecide(entries: seq<Entry>, n: nat)
    requires forall i :: 0 <= i < |entries| ==> Sane(entries[i])
    ensures (Items(LinesOf(entries)) == entries && Warnings(LinesOf(entries), n) == []) <==>
            (forall i :: 0 <= i < |entries| ==> Clean(entries[i]))
  {
    hide LineItems, LineWarnings, ValidKey, Norm, Quoted, Segments;
    if entries == [] {
      EmptyLine(n);
    } else {
      var e, rest := entries[0], entries[1..];
      assert Sane(e);
      assert forall i :: 0 <= i < |rest| ==> rest[i] == entries[i + 1];
      LinesDecide(rest, n + 1);
      LineOutcome(e, n);
      NormOfTrim(e.value);
      assert LinesOf(entries)[1..] == LinesOf(rest);
      var read := Entry(e.key, Norm(Trim(e.value)));
      assert Clean(e) <==> LineWarnings(Line(e), n) == [] && read == e;
      assert entries == [e] + rest;
      assert (forall i :: 0 <= i < |entries| ==> Clean(entries[i])) <==>
             Clean(e) && forall i :: 0 <= i < |rest| ==> Clean(rest[i]);
      if LineWarnings(Line(e), n) == [] {
        assert Items(LinesOf(entries)) == [read] + Items(LinesOf(rest));
        assert Items(LinesOf(entries)) == entries <==> read == e && Items(LinesOf(rest)) == rest by {
          HeadTail(read, Items(LinesOf(rest)), e, rest);
        }
      }
    }
  }

  lemma HeadTail<T>(a: T, s: seq<T>, b: T, t: seq<T>)
    ensures [a] + s == [b] + t <==> a == b && s == t
  {
    if [a] + s == [b] + t {
      assert ([a] + s)[0] == ([b] + t)[0];
      assert ([a] + s)[1..] == s && ([b] + t)[1..] == t;
    }
  }

  lemma EmptyLine(n: nat)
    ensures Items([""]) == [] && Warnings([""], n) == []
  {
    assert Trim("") == "";
    assert [""][1..] == [];
  }

  /**
   * Reading back what was written gives exactly the entries and no warning if and only if every entry is clean: a
   * valid key; a value without line feeds, without surrounding space and without surrounding quotes; and a line that
   * has no point where it would be cut.
   */
  lemma ExportParsesBack(entries: seq<Entry>)
    ensures (Items(Lines(ExportText(entries))) == entries && Warnings(Lines(ExportText(entries)), 1) == []) <==>
            (forall i :: 0 <= i < |entries| ==> Clean(entries[i]))
  {
    hide Items, Warnings, Lines, ExportText, Segments, Quoted, ValidKey, Trim;
    var text := ExportText(entries);
    if Items(Lines(text)) == entries || forall i :: 0 <= i < |entries| ==> Clean(entries[i]) {
      ItemsAreSane(text);
      forall i | 0 <= i < |entries| ensures Sane(entries[i]) && OneLine(entries[i]) {
        assert entries[i] in entries;
        SaneIsOneLine(entries[i]);
      }
      ExportLines(entries);
      LinesDecide(entries, 1);
    }
  }

  // ------------------------------------------------------------------- an unclean entry

  lemma {:induction false} NoCapitalsNoStarts(s: string, i: nat)
    requires i <= |s| && forall c :: c in s ==> !Upper(c)
    ensures Starts(s, i) == []
    decreases |s| - i
  {
    if i < |s| {
      assert s[i] in s;
      NoCapitalsNoStarts(s, i + 1);
    }
  }

  lemma NoCapitalsOneSegment(e: Entry)
    requires forall c :: c in Line(e) ==> !Upper(c)
    ensures |Segments(Trim(Line(e)))| == 1
  {
    hide Trim, Line;
    NoCapitalsNoStarts(Trim(Line(e)), 0);
  }

  function QuotedEntry(): Entry { Entry("a", "\"x\"") }

  lemma QuotedValue()
    ensures var e := QuotedEntry();
            && ValidKey(e.key) && OneLine(e) && Trim(e.value) == e.value && Quoted(e.value) && Norm(e.value) == "x"
  {
    var v := QuotedEntry().value;
    assert LeadingSpace(v) == 0 && TrailingSpace(v) == 0;
  }

  lemma QuotedHasNoCapitals()
    ensures forall c :: c in Line(QuotedEntry()) ==> !Upper(c)
  {
    assert Line(QuotedEntry()) == "a = \"x\"";
  }

  /** A quoted value: it is exported with its quotes and read back without them, and without a warning. */
  lemma QuotesAreLost()
    ensures var e := QuotedEntry();
            && !Clean(e)
            && Items(Lines(ExportText([e]))) == [Entry("a", "x")]
            && Warnings(Lines(ExportText([e])), 1) == []
  {
    hide LineItems, LineWarnings, Lines, ExportText, Segments, Line, Trim, Norm, Quoted, ValidKey, Upper;
    var e := QuotedEntry();
    QuotedValue();
    QuotedHasNoCapitals();
    NoCapitalsOneSegment(e);
    LineOutcome(e, 1);
    ExportLines([e]);
    OneLinePlus(e);
  }

  lemma OneLinePlus(e: Entry)
    ensures Items(LinesOf([e])) == LineItems(Line(e)) && Warnings(LinesOf([e]), 1) == LineWarnings(Line(e), 1)
  {
    hide LineItems, LineWarnings;
    assert [e][1..] == [];
    assert LinesOf([e]) == [Line(e), ""];
    assert [Line(e), ""][1..] == [""];
    EmptyLine(2);
  }

  // ---------------------------------------------------------------------- in characters

  /** A key begins with a letter or an underscore and goes on with letters, digits, underscores, dots and dashes. */
  lemma KeysInWords(key: string)
    ensures ValidKey(key) <==>
            && key != "" && ('A' <= key[0] <= 'Z' || 'a' <= key[0] <= 'z' || key[0] == '_')
            && forall i :: 0 <= i < |key| ==>
                 'A' <= key[i] <= 'Z' || 'a' <= key[i] <= 'z' || '0' <= key[i] <= '9' || key[i] in ['_', '.', '-']
  {
  }

  /** One pair of double or of single quotes is taken off, and nothing else ever is. */
  lemma QuotesInWords(v: string)
    ensures Norm("\"" + v + "\"") == v && Norm("'" + v + "'") == v
    ensures Norm(v) != v ==> v == "\"" + Norm(v) + "\"" || v == "'" + Norm(v) + "'"
  {
    assert ("\"" + v + "\"")[1..|v| + 1] == v && ("'" + v + "'")[1..|v| + 1] == v;
    if Norm(v) != v {
      assert v == [v[0]] + v[1..|v| - 1] + [v[0]];
    }
  }

  /** A key, an equals sign and a value in either kind of quotes. */
  function QuotedLine(key: string, v: string, q: char): string { key + ("=" + ([q] + v + [q])) }

  lemma NothingTrimmed(s: string)
    requires LeadingSpace(s) == 0 && TrailingSpace(s) == 0
    ensures Trim(s) == s
  {
  }

  /** It is read as the entry of that key, with whatever stands between the quotes, exactly for a well formed key. */
  lemma QuotedLineReads(key: string, v: string, q: char)
    requires q in ['"', '\''] && '=' !in key && Trim(key) == key
    ensures ParseOne(QuotedLine(key, v, q)) ==
            if && key != "" && ('A' <= key[0] <= 'Z' || 'a' <= key[0] <= 'z' || key[0] == '_')
               && forall i :: 0 <= i < |key| ==>
                    'A' <= key[i] <= 'Z' || 'a' <= key[i] <= 'z' || '0' <= key[i] <= '9' || key[i] in ['_', '.', '-']
            then Some(Entry(key, v)) else None
  {
    hide Trim, ValidKey, Norm, Glue;
    var line, quoted := QuotedLine(key, v, q), [q] + v + [q];
    KeysInWords(key);
    QuotesInWords(v);
    FirstIndex(line, '=', |key|);
    assert line[..|key|] == key && line[|key| + 1..] == quoted;
    NothingTrimmed(quoted);
    assert quoted == "\"" + v + "\"" || quoted == "'" + v + "'";
  }

  /** Two entries on a line with one octet between them. */
  function TwoEntries(c: char): string { ['A', '=', c, 'B', '=', '1'] }

  lemma TwoStarts(c: char)
    ensures Starts(TwoEntries(c), 0) == if Upper(c) then [0, 2] else [0, 3]
  {
    var s := TwoEntries(c);
    assert RunEnd(s, 1, true) == 1 && RunEnd(s, 1, false) == 1 && MatchAt(s, 0) == Some(2);
    assert RunEnd(s, 4, true) == 4 && RunEnd(s, 4, false) == 4 && MatchAt(s, 3) == Some(5);
    assert RunEnd(s, 3, true) == 4 && (Upper(c) ==> MatchAt(s, 2) == Some(5)) && (!Upper(c) ==> MatchAt(s, 2) == None);
    assert Starts(s, 6) == [] && MatchAt(s, 5) == None && Starts(s, 5) == [];
    hide MatchAt, RunEnd;
    assert Starts(s, 3) == [3] + [];
    assert Starts(s, 2) == if Upper(c) then [2] + [] else [3];
    assert Starts(s, 0) == [0] + Starts(s, 2);
  }

  /** They are cut apart exactly behind a small letter, a digit, an underscore, a dot or a dash. */
  lemma CutBehindGlue(c: char)
    ensures Segments(TwoEntries(c)) ==
            if 'a' <= c <= 'z' || '0' <= c <= '9' || c in ['_', '.', '-'] then [['A', '=', c], ['B', '=', '1']]
            else [TwoEntries(c)]
  {
    hide Starts, Cuts, SliceAt, IsCut;
    var s := TwoEntries(c);
    TwoStarts(c);
    CutsOfTwo(s, 0, if Upper(c) then 2 else 3);
    CutsOfEntries(c);
    assert Starts(s, 0) == [0, if Upper(c) then 2 else 3];
    assert CutPoints(s) == if IsCut(s, 3) && !Upper(c) then [3] else [];
    NotSliced(s);
    SlicedOnce(s, 3);
    assert s[..3] == ['A', '=', c] && s[3..] == ['B', '=', '1'];
  }

  lemma CutsOfTwo(s: string, a: nat, b: nat)
    ensures Cuts(s, [a, b]) == (if IsCut(s, a) then [a] else []) + (if IsCut(s, b) then [b] else [])
  {
    hide IsCut;
    assert [a, b][1..] == [b] && [b][1..] == [];
    assert Cuts(s, []) == [];
    assert Cuts(s, [b]) == if IsCut(s, b) then [b] + [] else [] + [];
  }

  lemma CutsOfEntries(c: char)
    ensures var s := TwoEntries(c);
            && !IsCut(s, 0) && !IsCut(s, 2)
            && (IsCut(s, 3) <==> 'A' <= c <= 'Z' || 'a' <= c <= 'z' || '0' <= c <= '9' || c in ['_', '.', '-'])
  {
  }

  lemma NotSliced(s: string)
    ensures SliceAt(s, 0, []) == [s]
  {
    assert s[0..] == s;
  }

  lemma SlicedOnce(s: string, k: nat)
    requires 0 < k < |s|
    ensures SliceAt(s, 0, [k]) == [s[..k], s[k..]]
  {
    assert [k][1..] == [];
    assert Rising([], k, |s|);
    assert SliceAt(s, k, []) == [s[k..]];
    assert s[0..k] == s[..k];
    assert [s[..k]] + [s[k..]] == [s[..k], s[k..]];
  }

  /** Between the key and the equals sign of a cut there may be a blank: a space, tab, line end or form feed. */
  function Spaced(c: char): string { ['a', '.', 'B', c, '=', '1'] }

  lemma MatchOfSpaced(c: char)
    ensures MatchAt(Spaced(c), 2).Some? <==>
            'A' <= c <= 'Z' || '0' <= c <= '9' || c == '_' || c == '=' || c in [' ', '\t', '\n', '\r', 12 as char]
  {
    var s := Spaced(c);
    assert RunEnd(s, 4, true) == 4 && RunEnd(s, 4, false) == 4 && RunEnd(s, 5, false) == 5;
    assert RunEnd(s, 3, true) == if Word(c) then 4 else 3;
    assert RunEnd(s, 3, false) == if Blank(c) then 4 else 3;
  }
}
