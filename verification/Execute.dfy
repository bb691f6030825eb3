/** What one call of execute decides: its cursors, its checks, what it forwards and what the reply makes it do. */
module Execute {
  import opened Values
  import opened PolicyTables
  import opened Policy
  import opened Namespaces
  import opened Registry

  // ------------------------------------------------------------------ the request

  /** The logical session of a request; empty when it names none. */
  function Session(doc: Doc): bytes
  {
    var lsid := Get(doc, "lsid");
    if !lsid.Document? then []
    else
      var id := Get(lsid.fields, "id");
      if id.Binary? then id.data else []
  }

  function TextOf(v: Value): string { if v.String? then v.text else "" }

  predicate UsesCursors(doc: Doc)
    requires doc != []
  {
    doc[0].key == "getMore" || doc[0].key == "killCursors"
  }

  /** Every item as a cursor id, when every item is a number. */
  function Ids(items: seq<Value>): Option<seq<int>>
  {
    if items == [] then Some([])
    else
      var first, rest := AuthNumber(items[0]), Ids(items[1..]);
      if first.Some? && rest.Some? then Some([first.value] + rest.value) else None
  }

  /** The cursor ids that the request works on; None when they cannot be read. */
  function Targets(doc: Doc): Option<seq<int>>
    requires doc != []
  {
    if doc[0].key == "getMore" then
      var id := AuthNumber(doc[0].value);
      if id.Some? then Some([id.value]) else None
    else if doc[0].key == "killCursors" then
      var ids := Get(doc, "cursors");
      if ids.Array? && ids.items != [] then Ids(ids.items) else None
    else Some([])
  }

  lemma {:induction false} IdsExact(items: seq<Value>)
    ensures Ids(items).Some? <==> forall i :: 0 <= i < |items| ==> AuthNumber(items[i]).Some?
    ensures Ids(items).Some? ==>
              |Ids(items).value| == |items| &&
              forall i :: 0 <= i < |items| ==> Some(Ids(items).value[i]) == AuthNumber(items[i])
  {
    hide AuthNumber;
    if items != [] {
      IdsExact(items[1..]);
      assert forall i :: 0 <= i < |items[1..]| ==> items[1..][i] == items[i + 1];
      assert items == [items[0]] + items[1..];
    }
  }

  /** The cursors of a getMore or a killCursors are exactly the numbers that it lists, all of them numbers. */
  lemma TargetsExact(doc: Doc)
    requires doc != []
    ensures doc[0].key == "getMore" ==>
              Targets(doc) == if AuthNumber(doc[0].value).Some? then Some([AuthNumber(doc[0].value).value]) else None
    ensures doc[0].key == "killCursors" ==>
              var v := Get(doc, "cursors");
              && (Targets(doc).Some? <==>
                  v.Array? && v.items != [] && forall i :: 0 <= i < |v.items| ==> AuthNumber(v.items[i]).Some?)
              && (Targets(doc).Some? ==>
                    |Targets(doc).value| == |v.items| &&
                    forall i :: 0 <= i < |v.items| ==> Some(Targets(doc).value[i]) == AuthNumber(v.items[i]))
    ensures !UsesCursors(doc) ==> Targets(doc) == Some([])
  {
    hide AuthNumber, Ids;
    if Get(doc, "cursors").Array? {
      IdsExact(Get(doc, "cursors").items);
    }
  }

  function After(found: seq<int>, rest: Option<seq<int>>): Option<seq<int>>
  {
    if rest.Some? then Some(found + rest.value) else None
  }

  /** The loop that reads the ids of killCursors. */
  method ReadIds(items: seq<Value>) returns (ids: Option<seq<int>>)
    ensures ids == Ids(items)
  {
    hide AuthNumber;
    var found: seq<int> := [];
    assert forall more: seq<int> :: found + more == more;
    assert items[0..] == items;
    for k := 0 to |items|
      invariant Ids(items) == After(found, Ids(items[k..]))
    {
      assert items[k..][1..] == items[k + 1..];
      assert forall id: int, more: seq<int> :: found + ([id] + more) == (found + [id]) + more;
      var id := AuthNumber(items[k]);
      if id.None? {
        return None;
      }
      found := found + [id.value];
    }
    assert items[|items|..] == [] && found + [] == found;
    return Some(found);
  }

  function TargetCollection(doc: Doc): string
    requires doc != []
  {
    if doc[0].key == "getMore" then TextOf(Get(doc, "collection")) else TextOf(doc[0].value)
  }

  function Joined(db: string, collection: string): string { db + "." + collection }

  /** The namespace that the cursors of the request must have. */
  function TargetNamespace(doc: Doc): string
    requires doc != []
  {
    Joined(TextOf(Get(doc, "$db")), TargetCollection(doc))
  }

  predicate MetadataCommand(verb: Verb) { verb == ListCollections || verb == ListIndexes }

  predicate Metadata(owners: seq<Cursor>)
  {
    exists i :: 0 <= i < |owners| && MetadataCommand(owners[i].command)
  }

  /** The command as which the reply is sanitized: a getMore answers for the command that opened its cursor. */
  function PublicVerb(doc: Doc, owners: seq<Cursor>): Verb
    requires doc != []
  {
    if doc[0].key == "getMore" && owners != [] then owners[|owners| - 1].command else VerbOf(doc[0].key)
  }

  const PLACEHOLDER := "vaulty_metadata"

  predicate IsMasked(doc: Doc, i: nat)
    requires i < |doc|
  {
    doc[i].key == "collection" || (i == 0 && doc[0].key == "killCursors")
  }

  /** The copy that the policy sees for a metadata cursor: the collection is replaced by a placeholder. */
  function Masked(doc: Doc): (d: Doc)
  {
    seq(|doc|, i requires 0 <= i < |doc| =>
      if IsMasked(doc, i) then Field(doc[i].key, String(PLACEHOLDER)) else doc[i])
  }

  method Mask(doc: Doc) returns (r: Doc)
    ensures r == Masked(doc)
  {
    var check := new Field[|doc|](i requires 0 <= i < |doc| => doc[i]);
    for i := 0 to check.Length
      invariant forall k :: 0 <= k < i ==> check[k] == Masked(doc)[k]
      invariant forall k :: i <= k < |doc| ==> check[k] == doc[k]
    {
      if check[i].key == "collection" || (i == 0 && doc[0].key == "killCursors") {
        check[i] := Field(check[i].key, String(PLACEHOLDER));
      }
    }
    assert check[..] == Masked(doc);
    return check[..];
  }

  function Checked(doc: Doc, owners: seq<Cursor>): Doc
  {
    if Metadata(owners) then Masked(doc) else doc
  }

  /** The checked copy, in words: for a cursor of a listing the collection is a placeholder, and all else is equal. */
  lemma CheckedInWords(doc: Doc, owners: seq<Cursor>, i: nat)
    requires i < |doc|
    ensures |Checked(doc, owners)| == |doc|
    ensures Checked(doc, owners)[i] ==
            if (exists c :: c in owners && c.command in {ListCollections, ListIndexes}) &&
               (doc[i].key == "collection" || (i == 0 && doc[i].key == "killCursors"))
            then Field(doc[i].key, String("vaulty_metadata")) else doc[i]
  {
    if c :| c in owners && c.command in {ListCollections, ListIndexes} {
      var k :| 0 <= k < |owners| && owners[k] == c;
      assert MetadataCommand(owners[k].command);
    }
  }

  // ------------------------------------------------------------- what is forwarded

  /** One field of a forwarded listCollections; the filter is dropped here and put back at the end. */
  function Rewritten(f: Field): seq<Field>
  {
    if f.key == "nameOnly" then [Field("nameOnly", Bool(false))] else if f.key == "filter" then [] else [f]
  }

  function RewrittenAll(d: Doc): Doc
  {
    if d == [] then [] else Rewritten(d[0]) + RewrittenAll(d[1..])
  }

  /** The filter of the request: the last field of that name, were there several. */
  function LastFilter(d: Doc, default: Doc): Doc
  {
    if d == [] then default
    else LastFilter(d[1..], if d[0].key != "filter" then default
                            else if d[0].value.Document? then d[0].value.fields else [])
  }

  /** Only real collections outside the system namespace. */
  function VisibleFilter(): Doc
  {
    [Field("type", String("collection")),
     Field("name", Document([Field("$not", Regex("^system\\.", "i"))]))]
  }

  function CombinedFilter(original: Doc): Field
  {
    Field("filter", Document([Field("$and", Array([Document(original), Document(VisibleFilter())]))]))
  }

  function ForwardDoc(doc: Doc): Doc
    requires doc != []
  {
    if doc[0].key == "listCollections" then RewrittenAll(doc) + [CombinedFilter(LastFilter(doc, []))] else doc
  }

  /** The in-place rewriting of a listCollections request. */
  method Forward(doc: Doc) returns (r: Doc)
    requires doc != []
    ensures r == ForwardDoc(doc)
  {
    hide CombinedFilter;
    if doc[0].key != "listCollections" {
      return doc;
    }
    var forward := new Field[|doc|](i requires 0 <= i < |doc| => doc[i]);
    assert forward[..] == doc;
    var kept, original := Compact(forward);
    return forward[..kept] + [CombinedFilter(original)];
  }

  method Compact(forward: array<Field>) returns (kept: nat, original: Doc)
    modifies forward
    ensures kept <= forward.Length
    ensures forward[..kept] == RewrittenAll(old(forward[..]))
    ensures original == LastFilter(old(forward[..]), [])
  {
    ghost var doc := forward[..];
    ghost var done: Doc := [];
    kept, original := 0, [];
    assert doc[0..] == doc;
    for i := 0 to forward.Length
      invariant kept <= i && forward[..kept] == done
      invariant forall k :: i <= k < |doc| ==> forward[k] == doc[k]
      invariant RewrittenAll(doc) == done + RewrittenAll(doc[i..])
      invariant LastFilter(doc, []) == LastFilter(doc[i..], original)
    {
      hide RewrittenAll, LastFilter;
      CompactStep(doc, i, done, original);
      done := done + Rewritten(doc[i]);
      if forward[i].key == "nameOnly" {
        forward[i] := Field("nameOnly", Bool(false));
      }
      if forward[i].key == "filter" {
        original := if forward[i].value.Document? then forward[i].value.fields else [];
        continue;
      }
      forward[kept] := forward[i];
      kept := kept + 1;
    }
    assert doc[|doc|..] == [];
  }

  lemma CompactStep(doc: Doc, i: nat, before: Doc, original: Doc)
    requires i < |doc|
    ensures before + RewrittenAll(doc[i..]) == (before + Rewritten(doc[i])) + RewrittenAll(doc[i + 1..])
    ensures LastFilter(doc[i..], original) ==
            LastFilter(doc[i + 1..], if doc[i].key != "filter" then original
                                     else if doc[i].value.Document? then doc[i].value.fields else [])
  {
    assert doc[i..][1..] == doc[i + 1..];
    assert before + (Rewritten(doc[i]) + RewrittenAll(doc[i + 1..])) ==
           (before + Rewritten(doc[i])) + RewrittenAll(doc[i + 1..]);
  }

  lemma PresentCons(f: Field, rest: Doc, key: string)
    ensures Present([f] + rest, key) <==> f.key == key || Present(rest, key)
  {
    var all := [f] + rest;
    assert all[0] == f;
    assert forall i :: 0 <= i < |rest| ==> all[i + 1] == rest[i];
  }

  lemma {:induction false} RewrittenPresent(d: Doc, last: Field, key: string)
    requires last.key == "filter"
    ensures Present(RewrittenAll(d) + [last], key) <==> key == "filter" || Present(d, key)
  {
    hide Present;
    if d == [] {
      assert RewrittenAll(d) + [last] == [last] + [];
      PresentCons(last, [], key);
      assert !Present([], key) by { NothingPresent(key); }
    } else {
      var rest := RewrittenAll(d[1..]) + [last];
      RewrittenPresent(d[1..], last, key);
      PresentCons(d[0], d[1..], key);
      assert d == [d[0]] + d[1..];
      if d[0].key == "filter" {
        assert RewrittenAll(d) + [last] == rest;
      } else {
        assert RewrittenAll(d) + [last] == [Rewritten(d[0])[0]] + rest;
        PresentCons(Rewritten(d[0])[0], rest, key);
      }
    }
  }

  lemma NothingPresent(key: string)
    ensures !Present([], key)
  {
  }

  lemma {:induction false} RewrittenLookup(d: Doc, last: Field, key: string)
    requires last.key == "filter"
    ensures Get(RewrittenAll(d) + [last], key) ==
            if key == "filter" then last.value
            else if key == "nameOnly" && Present(d, key) then Bool(false)
            else Get(d, key)
  {
    hide Present;
    var r := RewrittenAll(d) + [last];
    if d == [] {
      assert r == [last] && r[1..] == [];
      NothingPresent(key);
    } else {
      var rest := RewrittenAll(d[1..]) + [last];
      RewrittenLookup(d[1..], last, key);
      PresentCons(d[0], d[1..], key);
      assert d == [d[0]] + d[1..];
      if d[0].key == "filter" {
        assert r == rest;
      } else {
        assert r == [Rewritten(d[0])[0]] + rest;
        assert r[1..] == rest;
      }
    }
  }

  lemma {:induction false} RewrittenUnique(d: Doc, last: Field)
    requires UniqueKeys(d) && last.key == "filter"
    ensures UniqueKeys(RewrittenAll(d) + [last])
  {
    if d == [] {
      assert RewrittenAll(d) + [last] == [last];
    } else {
      var rest := RewrittenAll(d[1..]) + [last];
      assert UniqueKeys(d[1..]) by {
        assert forall i :: 0 <= i < |d[1..]| ==> d[1..][i] == d[i + 1];
      }
      RewrittenUnique(d[1..], last);
      RewrittenPresent(d[1..], last, d[0].key);
      assert RewrittenAll(d) + [last] == Rewritten(d[0]) + rest;
      assert !Present(d[1..], d[0].key);
      if d[0].key != "filter" {
        assert !Present(rest, d[0].key);
      }
    }
  }

  lemma {:induction false} LastFilterIsTheFilter(d: Doc, default: Doc)
    requires UniqueKeys(d)
    ensures LastFilter(d, default) ==
            if !Present(d, "filter") then default
            else if Get(d, "filter").Document? then Get(d, "filter").fields else []
  {
    if d != [] {
      assert forall i :: 0 <= i < |d[1..]| ==> d[1..][i] == d[i + 1];
      var now := if d[0].key != "filter" then default else if d[0].value.Document? then d[0].value.fields else [];
      LastFilterIsTheFilter(d[1..], now);
      if d[0].key == "filter" {
        assert !Present(d[1..], "filter");
      } else {
        assert Present(d, "filter") <==> Present(d[1..], "filter");
      }
    }
  }

  /**
   * A forwarded listCollections keeps every option but two: nameOnly, where given, becomes false, and the filter
   * becomes the conjunction of the client's own and the one that hides views and the system namespace.
   */
  lemma ForwardedListIsFiltered(doc: Doc, key: string)
    requires doc != [] && doc[0].key == "listCollections" && UniqueKeys(doc)
    ensures UniqueKeys(ForwardDoc(doc)) && ForwardDoc(doc)[0] == doc[0]
    ensures Get(ForwardDoc(doc), key) ==
            if key == "filter" then
              var own := if Get(doc, "filter").Document? then Get(doc, "filter").fields else [];
              var visible := [Field("type", String("collection")),
                              Field("name", Document([Field("$not", Regex("^system\\.", "i"))]))];
              Document([Field("$and", Array([Document(own), Document(visible)]))])
            else if key == "nameOnly" && Present(doc, key) then Bool(false)
            else Get(doc, key)
  {
    var last := CombinedFilter(LastFilter(doc, []));
    RewrittenLookup(doc, last, key);
    RewrittenUnique(doc, last);
    LastFilterIsTheFilter(doc, []);
    if !Present(doc, "filter") {
      GetAbsent(doc, "filter");
    }
    assert Rewritten(doc[0]) == [doc[0]];
  }

  // ---------------------------------------------------------------- what comes back

  /** mongoCommandOK. */
  predicate Succeeded(reply: Doc) { AuthNumber(Get(reply, "ok")) == Some(1) }

  datatype Verdict = Allowed | Refused | Malformed

  function Subfield(reply: Doc, key: string): Value
  {
    var cursor := Get(reply, "cursor");
    if cursor.Document? then Get(cursor.fields, key) else Null
  }

  predicate PlainCollection(v: Value, collection: string)
  {
    v.Document? && Get(v.fields, "name") == String(collection) && Get(v.fields, "type") == String("collection")
  }

  /** collectionAllowed, given the answer to its query. */
  function Judge(reply: Doc, ns: Namespace): Verdict
  {
    var batch := Subfield(reply, "firstBatch");
    if !Succeeded(reply) then Refused
    else if !batch.Array? || AuthNumber(Subfield(reply, "id")) != Some(0) then Malformed
    else if exists i :: 0 <= i < |batch.items| && !PlainCollection(batch.items[i], ns.collection) then Refused
    else if HasPrefix(ns.collection, "system.") then Refused
    else Allowed
  }

  method CollectionAllowed(reply: Doc, ns: Namespace) returns (verdict: Verdict)
    ensures verdict == Judge(reply, ns)
  {
    if !Succeeded(reply) {
      return Refused;
    }
    var batch := Subfield(reply, "firstBatch");
    if !batch.Array? || AuthNumber(Subfield(reply, "id")) != Some(0) {
      return Malformed;
    }
    for i := 0 to |batch.items|
      invariant forall k :: 0 <= k < i ==> PlainCollection(batch.items[k], ns.collection)
    {
      if !PlainCollection(batch.items[i], ns.collection) {
        return Refused;
      }
    }
    return if HasPrefix(ns.collection, "system.") then Refused else Allowed;
  }

  /** The query that collectionAllowed sends for a namespace. */
  function AllowedQuery(ns: Namespace): Doc
  {
    [Field("listCollections", Int32(1)),
     Field("filter", Document([Field("name", String(ns.collection))])),
     Field("cursor", Document([Field("batchSize", Int32(2))])),
     Field("$db", String(ns.database))]
  }

  // ----------------------------------------------------- what the registry is told

  datatype Action =
    | Keep(id: int, cursor: Cursor)      // remember; the call fails when there is no room
    | Drop(target: int)
    | End(sessions: seq<bytes>)

  /** The collection part of the namespace that a returned cursor must have. */
  function ExpectedCollection(doc: Doc, ns: string): string
    requires doc != []
  {
    var db, collection := TextOf(Get(doc, "$db")), TextOf(doc[0].value);
    if UsesCursors(doc) then TargetCollection(doc)
    else if doc[0].key == "listCollections" then "$cmd.listCollections"
    else if doc[0].key == "listIndexes" && ns == Joined(db, "$cmd.listIndexes." + collection) then
      "$cmd.listIndexes." + collection
    else collection
  }

  function ExpectedNamespace(doc: Doc, ns: string): string
    requires doc != []
  {
    Joined(TextOf(Get(doc, "$db")), ExpectedCollection(doc, ns))
  }

  predicate HasCursor(reply: Doc) { Succeeded(reply) && Get(reply, "cursor").Document? }

  /** A reply whose cursor is not the one that was asked for ends the connection. */
  predicate BadCursor(doc: Doc, reply: Doc)
    requires doc != []
  {
    && HasCursor(reply)
    && var ns := Subfield(reply, "ns");
    && !(AuthNumber(Subfield(reply, "id")).Some? && ns.String? && ns.text == ExpectedNamespace(doc, ns.text))
  }

  /** The namespace, or for listIndexes the two, that the cursor of a reply may have, in the words of the command. */
  predicate NamespaceFits(doc: Doc, ns: string)
    requires doc != []
  {
    var db, own := TextOf(Get(doc, "$db")), TextOf(doc[0].value);
    if doc[0].key == "getMore" then ns == db + "." + TextOf(Get(doc, "collection"))
    else if doc[0].key == "listCollections" then ns == db + ".$cmd.listCollections"
    else ns == db + "." + own || (doc[0].key == "listIndexes" && ns == db + ".$cmd.listIndexes." + own)
  }

  lemma NamespacesFit(doc: Doc, ns: string)
    requires doc != []
    ensures ns == ExpectedNamespace(doc, ns) <==> NamespaceFits(doc, ns)
  {
    hide Get, TextOf;
    var db, own := TextOf(Get(doc, "$db")), TextOf(doc[0].value);
    assert db + "." + "$cmd.listCollections" == db + ".$cmd.listCollections";
    assert db + "." + ("$cmd.listIndexes." + own) == db + ".$cmd.listIndexes." + own;
    assert |"getMore"| == 7 && |"listCollections"| == 15 && |"killCursors"| == 11 && |"listIndexes"| == 11;
    assert "killCursors"[0] == 'k' && "listIndexes"[0] == 'l';
  }

  /** A successful reply with a cursor goes on exactly when that has a number and a namespace that fits. */
  lemma CursorInWords(doc: Doc, reply: Doc)
    requires doc != []
    ensures BadCursor(doc, reply) <==>
            && AuthNumber(Get(reply, "ok")) == Some(1) && Get(reply, "cursor").Document?
            && var cursor := Get(reply, "cursor").fields;
            && !(AuthNumber(Get(cursor, "id")).Some? && Get(cursor, "ns").String? &&
                 NamespaceFits(doc, Get(cursor, "ns").text))
  {
    hide AuthNumber, Get, NamespaceFits, ExpectedNamespace;
    if Get(reply, "cursor").Document? && Get(Get(reply, "cursor").fields, "ns").String? {
      NamespacesFit(doc, Get(Get(reply, "cursor").fields, "ns").text);
    }
  }

  function DropAll(ids: seq<int>): seq<Action>
  {
    if ids == [] then [] else [Drop(ids[0])] + DropAll(ids[1..])
  }

  function Except(ids: seq<int>, id: int): seq<int>
  {
    if ids == [] then [] else (if ids[0] == id then [] else [ids[0]]) + Except(ids[1..], id)
  }

  function IdOrZero(v: Value): int { if AuthNumber(v).Some? then AuthNumber(v).value else 0 }

  function AckedIds(items: seq<Value>): seq<int>
  {
    if items == [] then [] else [IdOrZero(items[0])] + AckedIds(items[1..])
  }

  function Listed(reply: Doc, key: string): seq<int>
  {
    if Get(reply, key).Array? then AckedIds(Get(reply, key).items) else []
  }

  /** Ids that a reply reports as gone. */
  function Gone(reply: Doc): seq<int>
  {
    Listed(reply, "cursorsKilled") + Listed(reply, "cursorsNotFound") + Listed(reply, "cursorsUnknown")
  }

  function SessionOf(v: Value): bytes
  {
    if !v.Document? then []
    else
      var id := Get(v.fields, "id");
      if id.Binary? then id.data else []
  }

  function SessionsOf(items: seq<Value>): seq<bytes>
  {
    if items == [] then [] else [SessionOf(items[0])] + SessionsOf(items[1..])
  }

  function Items(v: Value): seq<Value> { if v.Array? then v.items else [] }

  function TargetIds(doc: Doc): seq<int>
    requires doc != []
  {
    if Targets(doc).Some? then Targets(doc).value else []
  }

  function NewCursor(doc: Doc, owners: seq<Cursor>, reply: Doc): Cursor
    requires doc != []
  {
    Cursor(TextOf(Subfield(reply, "ns")), PublicVerb(doc, owners), Session(doc), 0)
  }

  function CursorActions(doc: Doc, owners: seq<Cursor>, reply: Doc): seq<Action>
    requires doc != []
  {
    if !HasCursor(reply) then []
    else
      var id := IdOrZero(Subfield(reply, "id"));
      (if id != 0 then [Keep(id, NewCursor(doc, owners, reply))] else []) + DropAll(Except(TargetIds(doc), id))
  }

  /** The critical sections that follow a reply, in order. */
  function Actions(doc: Doc, owners: seq<Cursor>, reply: Doc): seq<Action>
    requires doc != []
  {
    (if !Succeeded(reply) && AuthNumber(Get(reply, "code")) == Some(43) then DropAll(TargetIds(doc)) else []) +
    CursorActions(doc, owners, reply) +
    (if doc[0].key == "killCursors" && Succeeded(reply) then DropAll(Gone(reply)) else []) +
    (if doc[0].key == "endSessions" && Succeeded(reply) then [End(SessionsOf(Items(doc[0].value)))] else [])
  }

  /** What one of them does to the registry; only remembering can fail. */
  predicate Fits(cs: Cursors, scope: Scope, a: Action, now: Time)
  {
    a.Keep? ==> HasRoom(Live(cs, now), scope, a.id)
  }

  function Applied(cs: Cursors, scope: Scope, a: Action, now: Time): Cursors
  {
    match a
    case Keep(id, c) => Remembered(cs, scope, id, c, now)
    case Drop(id) => Forgotten(cs, scope, id)
    case End(sessions) => SessionsEnded(cs, scope, sessions)
  }
}
