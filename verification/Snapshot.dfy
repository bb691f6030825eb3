/** Encrypted snapshots: items under two keys, comparing two snapshots, and editing one as text. */
module Snapshot {
  import opened Values
  import opened Sealing
  import opened Sorting
  import opened KvText
  import opened KvRoundTrip

  datatype Item = Item(sealed: Sealed, secret: bool, safe: bool)

  type Items = map<string, Item>

  /** The two keys, where available; sensitive items use the second. */
  datatype Keys = Keys(plain: Option<bytes>, sensitive: Option<bytes>)

  function DecryptValue(item: Item, key: Option<bytes>): Option<string>
  {
    if key.None? then None else Open(key.value, item.sealed)
  }

  /** DecryptItem: a sensitive item falls back to the plain key, but only when the sensitive key is available. */
  function DecryptItem(item: Item, keys: Keys): Option<string>
  {
    var own := if item.secret then keys.sensitive else keys.plain;
    if own.None? then None
    else if DecryptValue(item, own).Some? || !item.secret then DecryptValue(item, own)
    else DecryptValue(item, keys.plain)
  }

  /**
   * Who can open an item: with the sensitive key at hand, a sensitive item sealed under either key; a plain item only
   * with the plain key it was sealed under. What opens is the sealed text.
   */
  lemma WhoCanOpen(item: Item, keys: Keys)
    ensures DecryptItem(item, keys).Some? <==>
            if item.secret then keys.sensitive.Some? && Some(item.sealed.key) in {keys.sensitive, keys.plain}
            else keys.plain == Some(item.sealed.key)
    ensures DecryptItem(item, keys).Some? ==> DecryptItem(item, keys).value == item.sealed.text
  {
  }

  // ------------------------------------------------------------------- writing items

  /** How an item is classified: by the explicit flag, else as the existing item, else by detection. */
  function Classified(items: Items, key: string, value: string, secret: Option<bool>,
                      detect: (string, string) -> bool): (bool, bool)
  {
    if secret.Some? then (secret.value, !secret.value)
    else if key in items then (items[key].secret, items[key].safe)
    else (detect(key, value), false)
  }

  function WithItem(items: Items, keys: Keys, key: string, value: string, secret: Option<bool>,
                    detect: (string, string) -> bool): Option<Items>
  {
    var class_ := Classified(items, key, value, secret, detect);
    var own := if class_.0 then keys.sensitive else keys.plain;
    if own.None? then None else Some(items[key := Item(Sealed(own.value, value), class_.0, class_.1)])
  }

  /**
   * Writing an item, in words: an explicit classification wins, then that of the item it replaces, then detection;
   * only the explicit answer "not secret" marks it safe. It goes through exactly when the key of its class is there,
   * and is sealed under that key.
   */
  lemma WrittenItem(items: Items, keys: Keys, key: string, value: string, secret: Option<bool>,
                    detect: (string, string) -> bool)
    ensures var after := WithItem(items, keys, key, value, secret, detect);
            var sensitive := secret == Some(true) || (secret == None && key in items && items[key].secret) ||
                             (secret == None && key !in items && detect(key, value));
            var own := if sensitive then keys.sensitive else keys.plain;
            && (after.Some? <==> own.Some?)
            && (after.Some? ==>
                  && after.value.Keys == items.Keys + {key}
                  && after.value[key].secret == sensitive
                  && (after.value[key].safe <==> secret == Some(false) ||
                                                 (secret == None && key in items && items[key].safe))
                  && Open(own.value, after.value[key].sealed) == Some(value)
                  && forall k :: k in items && k != key ==> after.value[k] == items[k])
  {
  }

  class SnapshotFile {
    var items: Items

    constructor ()
      ensures items == map[]
    {
      items := map[];
    }

    /** Snapshot.Set. */
    method Put(keys: Keys, key: string, value: string, secret: Option<bool>, detect: (string, string) -> bool)
      returns (ok: bool)
      modifies this
      ensures ok == WithItem(old(items), keys, key, value, secret, detect).Some?
      ensures items == if ok then WithItem(old(items), keys, key, value, secret, detect).value else old(items)
      ensures ok ==> DecryptItem(items[key], keys) == Some(value)
    {
      var isSecret, safe := detect(key, value), false;
      if secret.Some? {
        isSecret, safe := secret.value, !secret.value;
      } else if key in items {
        isSecret, safe := items[key].secret, items[key].safe;
      }
      var own := if isSecret then keys.sensitive else keys.plain;
      if own.None? {
        return false;
      }
      items := items[key := Item(Sealed(own.value, value), isSecret, safe)];
      return true;
    }

    method Delete(key: string) returns (existed: bool)
      modifies this
      ensures items == old(items) - {key} && existed == (key in old(items))
    {
      existed := key in items;
      items := items - {key};
    }
  }

  // --------------------------------------------------------------------- comparing

  datatype Kind = Added | Removed | Changed

  datatype Change = Change(key: string, kind: Kind, before: string, after: string, secret: bool, safe: bool)

  /** Every item opens. */
  ghost predicate Readable(items: Items, keys: Keys)
  {
    forall k :: k in items ==> DecryptItem(items[k], keys).Some?
  }

  function TextOf(items: Items, keys: Keys, k: string): string
    requires k in items && DecryptItem(items[k], keys).Some?
  {
    DecryptItem(items[k], keys).value
  }

  /** The key's items, in whichever snapshot has them, open. */
  predicate OpensAt(a: Items, b: Items, keys: Keys, k: string)
  {
    (k in a ==> DecryptItem(a[k], keys).Some?) && (k in b ==> DecryptItem(b[k], keys).Some?)
  }

  /** What there is to report about one key. */
  function Difference(a: Items, b: Items, keys: Keys, k: string): Option<Change>
    requires OpensAt(a, b, keys, k)
  {
    if k !in a && k !in b then None
    else if k !in a then Some(Change(k, Added, "", TextOf(b, keys, k), b[k].secret, b[k].safe))
    else if k !in b then Some(Change(k, Removed, TextOf(a, keys, k), "", a[k].secret, a[k].safe))
    else if Norm(TextOf(a, keys, k)) == Norm(TextOf(b, keys, k)) then None
    else
      Some(Change(k, Changed, TextOf(a, keys, k), TextOf(b, keys, k), a[k].secret || b[k].secret,
                  a[k].safe && b[k].safe))
  }

  function KeysOf(out: seq<Change>): seq<string>
  {
    seq(|out|, i requires 0 <= i < |out| => out[i].key)
  }

  /** A report: every difference exactly once, by increasing key, and nothing else. */
  ghost predicate IsReport(a: Items, b: Items, keys: Keys, out: seq<Change>)
    requires Readable(a, keys) && Readable(b, keys)
  {
    && Increasing(KeysOf(out))
    && (forall i :: 0 <= i < |out| ==> Difference(a, b, keys, out[i].key) == Some(out[i]))
    && forall k :: Difference(a, b, keys, k).Some? ==> k in KeysOf(out)
  }

  /** Diff: fails exactly when some item does not open, and otherwise gives the report. */
  method Diff(a: Items, b: Items, keys: Keys) returns (out: Option<seq<Change>>)
    ensures out.Some? <==> Readable(a, keys) && Readable(b, keys)
    ensures out.Some? ==> IsReport(a, b, keys, out.value)
  {
    hide Open, Norm;
    var order := Listed(a.Keys + b.Keys);
    var sorted := SortStrings(order);
    var found: seq<Change> := [];
    for n := 0 to |sorted|
      invariant Reports(a, b, keys, sorted[..n], found)
    {
      var k := sorted[n];
      assert sorted[..n + 1] == sorted[..n] + [k];
      if k in a && DecryptItem(a[k], keys).None? {
        return None;
      }
      if k in b && DecryptItem(b[k], keys).None? {
        return None;
      }
      var change := Difference(a, b, keys, k);
      ReportsMore(a, b, keys, sorted, n, found, change);
      if change.Some? {
        found := found + [change.value];
      }
    }
    assert sorted[..|sorted|] == sorted;
    ReportsAll(a, b, keys, sorted, found);
    return Some(found);
  }

  /** The report so far, over the keys visited so far. */
  ghost predicate Reports(a: Items, b: Items, keys: Keys, visited: seq<string>, found: seq<Change>)
  {
    && (forall k :: k in visited ==> OpensAt(a, b, keys, k))
    && Increasing(KeysOf(found))
    && (forall i :: 0 <= i < |found| ==>
          found[i].key in visited && OpensAt(a, b, keys, found[i].key) &&
          Difference(a, b, keys, found[i].key) == Some(found[i]))
    && forall k :: k in visited && OpensAt(a, b, keys, k) && Difference(a, b, keys, k).Some? ==> k in KeysOf(found)
  }

  lemma ReportsMore(a: Items, b: Items, keys: Keys, sorted: seq<string>, n: nat, found: seq<Change>,
                    change: Option<Change>)
    requires n < |sorted| && Increasing(sorted) && Reports(a, b, keys, sorted[..n], found)
    requires OpensAt(a, b, keys, sorted[n]) && change == Difference(a, b, keys, sorted[n])
    ensures Reports(a, b, keys, sorted[..n + 1], if change.Some? then found + [change.value] else found)
  {
    hide OpensAt, Difference;
    var k := sorted[n];
    assert sorted[..n + 1] == sorted[..n] + [k];
    if change.Some? {
      DifferenceKey(a, b, keys, k);
      var all := found + [change.value];
      assert KeysOf(all) == KeysOf(found) + [k];
      forall i | 0 <= i < |found| ensures Less(KeysOf(found)[i], k) {
        assert found[i].key in sorted[..n];
      }
    }
  }

  lemma DifferenceKey(a: Items, b: Items, keys: Keys, k: string)
    requires OpensAt(a, b, keys, k) && Difference(a, b, keys, k).Some?
    ensures Difference(a, b, keys, k).value.key == k && (k in a || k in b)
  {
  }

  lemma ReportsAll(a: Items, b: Items, keys: Keys, sorted: seq<string>, found: seq<Change>)
    requires Reports(a, b, keys, sorted, found) && forall k :: k in sorted <==> k in a || k in b
    ensures Readable(a, keys) && Readable(b, keys) && IsReport(a, b, keys, found)
  {
    forall k | k in a ensures DecryptItem(a[k], keys).Some? {
      assert OpensAt(a, b, keys, k);
    }
    forall k | k in b ensures DecryptItem(b[k], keys).Some? {
      assert OpensAt(a, b, keys, k);
    }
    forall k | Difference(a, b, keys, k).Some? ensures k in KeysOf(found) {
      DifferenceKey(a, b, keys, k);
    }
  }

  // ---------------------------------------------------------------- properties of Diff

  /**
   * What an entry of a report says: on which side the key is missing, the texts that the sides open to, and that the
   * value is masked when either side holds a secret and shown only when every side that has it is safe to show.
   */
  lemma ReportSays(a: Items, b: Items, keys: Keys, out: seq<Change>, i: nat)
    requires Readable(a, keys) && Readable(b, keys) && IsReport(a, b, keys, out) && i < |out|
    ensures var c := out[i]; var k := c.key;
            && (k in a || k in b) && (c.kind == Added <==> k !in a) && (c.kind == Removed <==> k !in b)
            && (if k in a then Some(c.before) == DecryptItem(a[k], keys) else c.before == "")
            && (if k in b then Some(c.after) == DecryptItem(b[k], keys) else c.after == "")
            && (c.secret <==> (k in a && a[k].secret) || (k in b && b[k].secret))
            && (c.safe <==> (k in a ==> a[k].safe) && (k in b ==> b[k].safe))
  {
    hide DecryptItem, Norm;
    assert Difference(a, b, keys, out[i].key) == Some(out[i]);
  }

  /** There is only one report. */
  lemma ReportIsUnique(a: Items, b: Items, keys: Keys, x: seq<Change>, y: seq<Change>)
    requires Readable(a, keys) && Readable(b, keys) && IsReport(a, b, keys, x) && IsReport(a, b, keys, y)
    ensures x == y
  {
    hide Difference;
    forall k ensures k in KeysOf(x) <==> k in KeysOf(y) {
      KeyReported(a, b, keys, x, k);
      KeyReported(a, b, keys, y, k);
    }
    IncreasingUnique(KeysOf(x), KeysOf(y));
    assert |KeysOf(x)| == |x| && |KeysOf(y)| == |y|;
    forall i | 0 <= i < |x| ensures x[i] == y[i] {
      assert KeysOf(x)[i] == x[i].key && KeysOf(y)[i] == y[i].key;
    }
  }

  lemma KeyReported(a: Items, b: Items, keys: Keys, out: seq<Change>, k: string)
    requires Readable(a, keys) && Readable(b, keys) && IsReport(a, b, keys, out)
    ensures k in KeysOf(out) <==> Difference(a, b, keys, k).Some?
  {
    if k in KeysOf(out) {
      var i :| 0 <= i < |out| && KeysOf(out)[i] == k;
      assert out[i].key == k;
    }
  }

  /** A snapshot does not differ from itself. */
  lemma NothingDiffersFromItself(a: Items, keys: Keys, out: seq<Change>)
    requires Readable(a, keys) && IsReport(a, a, keys, out)
    ensures out == []
  {
    hide Difference;
    if out != [] {
      assert Difference(a, a, keys, out[0].key) == Some(out[0]);
      SameItemSameText(a, keys, out[0].key);
    }
  }

  lemma SameItemSameText(a: Items, keys: Keys, k: string)
    requires OpensAt(a, a, keys, k)
    ensures Difference(a, a, keys, k) == None
  {
  }

  function Mirrored(c: Change): Change
  {
    Change(c.key, if c.kind == Added then Removed else if c.kind == Removed then Added else Changed, c.after, c.before,
           c.secret, c.safe)
  }

  function Mirror(out: seq<Change>): seq<Change>
  {
    seq(|out|, i requires 0 <= i < |out| => Mirrored(out[i]))
  }

  /** Comparing the other way round gives the mirror image, with the same flags. */
  lemma DiffMirrors(a: Items, b: Items, keys: Keys, out: seq<Change>, back: seq<Change>)
    requires Readable(a, keys) && Readable(b, keys) && IsReport(a, b, keys, out) && IsReport(b, a, keys, back)
    ensures back == Mirror(out)
  {
    hide Norm, Open;
    assert KeysOf(Mirror(out)) == KeysOf(out);
    forall k ensures Difference(b, a, keys, k) ==
                     (if Difference(a, b, keys, k).Some?
                      then Some(Mirrored(Difference(a, b, keys, k).value)) else None) {
    }
    MirrorIsReport(a, b, keys, out);
    ReportIsUnique(b, a, keys, back, Mirror(out));
  }

  lemma MirrorIsReport(a: Items, b: Items, keys: Keys, out: seq<Change>)
    requires Readable(a, keys) && Readable(b, keys) && IsReport(a, b, keys, out)
    requires forall k :: Difference(b, a, keys, k) ==
               (if Difference(a, b, keys, k).Some? then Some(Mirrored(Difference(a, b, keys, k).value)) else None)
    ensures IsReport(b, a, keys, Mirror(out))
  {
    hide Difference;
    assert KeysOf(Mirror(out)) == KeysOf(out);
  }

  /** The report, applied as a patch to plain values. */
  function Patched(texts: map<string, string>, out: seq<Change>): map<string, string>
    decreases |out|
  {
    if out == [] then texts
    else
      var before, c := Patched(texts, out[..|out| - 1]), out[|out| - 1];
      if c.kind == Removed then before - {c.key} else before[c.key := c.after]
  }

  function Texts(items: Items, keys: Keys): map<string, string>
  {
    map k | k in items && DecryptItem(items[k], keys).Some? :: DecryptItem(items[k], keys).value
  }

  lemma {:induction false} PatchedAt(texts: map<string, string>, out: seq<Change>, k: string)
    requires Increasing(KeysOf(out))
    ensures k !in KeysOf(out) ==> (k in Patched(texts, out) <==> k in texts) &&
                                  (k in texts ==> Patched(texts, out)[k] == texts[k])
    ensures forall i :: 0 <= i < |out| && out[i].key == k ==>
              (k in Patched(texts, out) <==> out[i].kind != Removed) &&
              (out[i].kind != Removed ==> Patched(texts, out)[k] == out[i].after)
    decreases |out|
  {
    if out != [] {
      var init, c := out[..|out| - 1], out[|out| - 1];
      assert forall i :: 0 <= i < |init| ==> KeysOf(init)[i] == KeysOf(out)[i];
      PatchedAt(texts, init, k);
      assert KeysOf(out) == KeysOf(init) + [c.key];
      forall i | 0 <= i < |init| ensures init[i].key != c.key {
        assert Less(KeysOf(out)[i], KeysOf(out)[|out| - 1]);
        LessIrreflexive(c.key);
      }
      forall i | 0 <= i < |out| && out[i].key == k
        ensures (k in Patched(texts, out) <==> out[i].kind != Removed) &&
                (out[i].kind != Removed ==> Patched(texts, out)[k] == out[i].after)
      {
        if i < |init| { assert init[i] == out[i]; }
      }
    }
  }

  /** Applied to the first snapshot's values, the report gives the second's, up to surrounding quotes. */
  lemma DiffPatches(a: Items, b: Items, keys: Keys, out: seq<Change>, k: string)
    requires Readable(a, keys) && Readable(b, keys) && IsReport(a, b, keys, out)
    ensures k in Patched(Texts(a, keys), out) <==> k in b
    ensures k in b ==> Norm(Patched(Texts(a, keys), out)[k]) == Norm(TextOf(b, keys, k))
  {
    hide Norm, Open;
    PatchedAt(Texts(a, keys), out, k);
    KeyReported(a, b, keys, out, k);
    if k in KeysOf(out) {
      var i :| 0 <= i < |out| && KeysOf(out)[i] == k;
      assert out[i].key == k;
    }
  }

  // ------------------------------------------------------------------- editing as text

  function EntriesOf(items: Items, keys: Keys, order: seq<string>): seq<Entry>
    requires forall k :: k in order ==> k in items && DecryptItem(items[k], keys).Some?
  {
    seq(|order|, i requires 0 <= i < |order| => Entry(order[i], TextOf(items, keys, order[i])))
  }

  /** The entries of a snapshot, by increasing key. */
  ghost predicate IsListing(items: Items, keys: Keys, order: seq<string>)
  {
    Increasing(order) && forall k :: k in order <==> k in items
  }

  /** Export: the listing as text; it fails exactly when some item does not open. */
  method Export(items: Items, keys: Keys) returns (text: Option<string>, ghost order: seq<string>)
    ensures IsListing(items, keys, order)
    ensures text.Some? <==> Readable(items, keys)
    ensures text.Some? ==> text.value == ExportText(EntriesOf(items, keys, order))
  {
    hide Open;
    var unordered := Listed(items.Keys);
    var sorted := SortStrings(unordered);
    order := sorted;
    var out := "";
    for n := 0 to |sorted|
      invariant forall k :: k in sorted[..n] ==> k in items && DecryptItem(items[k], keys).Some?
      invariant out == ExportText(EntriesOf(items, keys, sorted[..n]))
    {
      assert sorted[n] in sorted;
      assert sorted[..n + 1] == sorted[..n] + [sorted[n]];
      var value := DecryptItem(items[sorted[n]], keys);
      if value.None? {
        return None, order;
      }
      ghost var e := Entry(sorted[n], value.value);
      assert EntriesOf(items, keys, sorted[..n + 1]) == EntriesOf(items, keys, sorted[..n]) + [e];
      ExportAppend(EntriesOf(items, keys, sorted[..n]), e);
      out := out + sorted[n] + " = " + value.value + "\n";
    }
    assert sorted[..|sorted|] == sorted;
    return Some(out), order;
  }

  lemma {:induction false} ExportAppend(entries: seq<Entry>, e: Entry)
    ensures ExportText(entries + [e]) == ExportText(entries) + e.key + " = " + e.value + "\n"
  {
    if entries == [] {
      assert [e][1..] == [];
    } else {
      assert (entries + [e])[1..] == entries[1..] + [e];
      ExportAppend(entries[1..], e);
    }
  }

  /** The items after setting the entries in turn, without explicit flags; None when a key is missing. */
  function WithAll(items: Items, keys: Keys, entries: seq<Entry>, detect: (string, string) -> bool): Option<Items>
    decreases |entries|
  {
    if entries == [] then Some(items)
    else
      var before := WithAll(items, keys, entries[..|entries| - 1], detect);
      var e := entries[|entries| - 1];
      if before.None? then None else WithItem(before.value, keys, e.key, e.value, None, detect)
  }

  /** EditApply: the text becomes a new snapshot; when nothing parses or a key is missing, nothing is saved. */
  method EditApply(saved: SnapshotFile, keys: Keys, text: string, detect: (string, string) -> bool)
    returns (count: Option<nat>)
    modifies saved
    ensures var entries := KvText.Items(Lines(text));
            var after := WithAll(map[], keys, entries, detect);
            if entries == [] || after.None? then count == None && saved.items == old(saved.items)
            else count == Some(|entries|) && saved.items == after.value
  {
    hide WithItem, WithAll, KvText.Items, KvText.Warnings, Lines, DecryptItem;
    var entries, _ := ParseKV(text);
    if |entries| == 0 {
      return None;
    }
    var edited := new SnapshotFile();
    WithNothing(keys, entries, detect);
    for i := 0 to |entries|
      invariant edited != saved && saved.items == old(saved.items)
      invariant WithAll(map[], keys, entries[..i], detect) == Some(edited.items)
    {
      WithOneMore(keys, entries, i, detect);
      var ok := edited.Put(keys, entries[i].key, entries[i].value, None, detect);
      if !ok {
        NoneStays(keys, entries, i + 1, detect);
        return None;
      }
    }
    assert entries[..|entries|] == entries;
    saved.items := edited.items;
    return Some(|entries|);
  }

  lemma WithNothing(keys: Keys, entries: seq<Entry>, detect: (string, string) -> bool)
    ensures WithAll(map[], keys, entries[..0], detect) == Some(map[])
  {
  }

  lemma WithOneMore(keys: Keys, entries: seq<Entry>, i: nat, detect: (string, string) -> bool)
    requires i < |entries|
    ensures var before := WithAll(map[], keys, entries[..i], detect);
            WithAll(map[], keys, entries[..i + 1], detect) ==
            if before.None? then None
            else WithItem(before.value, keys, entries[i].key, entries[i].value, None, detect)
  {
    hide WithItem;
    assert entries[..i + 1][..i] == entries[..i];
  }

  lemma {:induction false} NoneStays(keys: Keys, entries: seq<Entry>, i: nat, detect: (string, string) -> bool)
    requires i <= |entries| && WithAll(map[], keys, entries[..i], detect) == None
    ensures WithAll(map[], keys, entries, detect) == None
    decreases |entries| - i
  {
    hide WithItem;
    if i < |entries| {
      assert entries[..i + 1][..i] == entries[..i];
      NoneStays(keys, entries, i + 1, detect);
    } else {
      assert entries[..i] == entries;
    }
  }

  function OwnKey(keys: Keys, secret: bool): Option<bytes> { if secret then keys.sensitive else keys.plain }

  predicate HasKey(entries: seq<Entry>, k: string)
  {
    exists i :: 0 <= i < |entries| && entries[i].key == k
  }

  predicate AllKeysThere(keys: Keys, entries: seq<Entry>, detect: (string, string) -> bool)
  {
    forall i :: 0 <= i < |entries| ==> OwnKey(keys, detect(entries[i].key, entries[i].value)).Some?
  }

  /** The items hold exactly the entries, freshly written. */
  ghost predicate Holds(items: Items, keys: Keys, entries: seq<Entry>, detect: (string, string) -> bool)
  {
    && (forall k :: k in items <==> HasKey(entries, k))
    && forall i :: 0 <= i < |entries| ==>
         entries[i].key in items && Fresh(items[entries[i].key], keys, entries[i], detect)
  }

  lemma HoldsMore(items: Items, keys: Keys, entries: seq<Entry>, e: Entry, detect: (string, string) -> bool)
    requires Holds(items, keys, entries, detect) && !HasKey(entries, e.key)
    requires OwnKey(keys, detect(e.key, e.value)).Some?
    ensures var after := WithItem(items, keys, e.key, e.value, None, detect);
            after.Some? && Holds(after.value, keys, entries + [e], detect)
  {
    var after := WithItem(items, keys, e.key, e.value, None, detect).value;
    var all := entries + [e];
    assert Fresh(after[e.key], keys, e, detect);
    hide Fresh;
    forall k ensures k in after <==> HasKey(all, k) {
      if HasKey(entries, k) {
        var i :| 0 <= i < |entries| && entries[i].key == k;
        assert all[i] == entries[i];
      }
      assert all[|entries|] == e;
    }
    forall i | 0 <= i < |all| ensures all[i].key in after && Fresh(after[all[i].key], keys, all[i], detect) {
      if i < |entries| { assert all[i] == entries[i] && HasKey(entries, entries[i].key); }
    }
  }

  /** Distinct new keys: each gets its value, classified by detection alone. */
  lemma {:induction false} FreshItems(keys: Keys, entries: seq<Entry>, detect: (string, string) -> bool)
    requires forall i, j :: 0 <= i < j < |entries| ==> entries[i].key != entries[j].key
    ensures var after := WithAll(map[], keys, entries, detect);
            && (after.Some? <==> AllKeysThere(keys, entries, detect))
            && (after.Some? ==> Holds(after.value, keys, entries, detect))
    decreases |entries|
  {
    hide Fresh;
    if entries != [] {
      var init, e := entries[..|entries| - 1], entries[|entries| - 1];
      assert entries == init + [e];
      FreshItems(keys, init, detect);
      var before := WithAll(map[], keys, init, detect);
      if before.Some? && OwnKey(keys, detect(e.key, e.value)).Some? {
        hide WithItem, WithAll;
        HoldsMore(before.value, keys, init, e, detect);
        WithOneMore(keys, entries, |init|, detect);
        assert entries[..|entries|] == entries;
      }
    }
  }

  /** An item written now, from detection alone: in particular nobody has marked it safe. */
  predicate Fresh(item: Item, keys: Keys, e: Entry, detect: (string, string) -> bool)
  {
    && DecryptItem(item, keys) == Some(e.value) && item.secret == detect(e.key, e.value) && !item.safe
  }

  /**
   * Setting the entries that the listing of a snapshot parses to: for clean entries it goes through exactly when the
   * keys that detection asks for are there, and then every key has its value. The classification is not the old one:
   * detection decides it afresh.
   */
  lemma EditKeepsValues(items: Items, keys: Keys, order: seq<string>, detect: (string, string) -> bool)
    requires Readable(items, keys) && IsListing(items, keys, order)
    requires forall k :: k in items ==> Clean(Entry(k, TextOf(items, keys, k)))
    ensures var after := WithAll(map[], keys, KvText.Items(Lines(ExportText(EntriesOf(items, keys, order)))), detect);
            && (after.Some? <==> forall k :: k in items ==> OwnKey(keys, detect(k, TextOf(items, keys, k))).Some?)
            && (after.Some? ==>
                  (after.value.Keys == items.Keys &&
                   forall k :: k in items ==>
                     Fresh(after.value[k], keys, Entry(k, TextOf(items, keys, k)), detect)))
  {
    hide Clean, KvText.Items, Lines, ExportText, Fresh, DecryptItem, WithAll;
    var entries := EntriesOf(items, keys, order);
    ListingParses(items, keys, order);
    forall i, j | 0 <= i < j < |entries| ensures entries[i].key != entries[j].key {
      assert Less(order[i], order[j]);
      LessIrreflexive(order[i]);
    }
    FreshItems(keys, entries, detect);
    assert forall i :: 0 <= i < |order| ==> entries[i] == Entry(order[i], TextOf(items, keys, order[i]));
    forall k | k in items ensures exists i :: 0 <= i < |entries| && entries[i].key == k {
      assert k in order;
      var i :| 0 <= i < |order| && order[i] == k;
      assert entries[i].key == k;
    }
    forall i | 0 <= i < |entries| ensures entries[i].key in items {
      assert order[i] in order;
    }
  }

  /**
   * Loading a snapshot as text and applying the text unchanged, for clean entries. It succeeds exactly when the
   * snapshot opens and is not empty, and the keys that detection asks for are there. Then every key keeps its value,
   * classified afresh; otherwise the snapshot stays as it was.
   */
  method EditUnchanged(saved: SnapshotFile, keys: Keys, detect: (string, string) -> bool) returns (count: Option<nat>)
    requires forall k :: k in saved.items && DecryptItem(saved.items[k], keys).Some? ==>
               Clean(Entry(k, TextOf(saved.items, keys, k)))
    modifies saved
    ensures count.Some? <==>
              && old(saved.items) != map[] && Readable(old(saved.items), keys)
              && forall k :: k in old(saved.items) ==>
                   OwnKey(keys, detect(k, TextOf(old(saved.items), keys, k))).Some?
    ensures count.Some? ==>
              && count.value == |saved.items| && saved.items.Keys == old(saved.items).Keys
              && forall k :: k in saved.items ==>
                   Fresh(saved.items[k], keys, Entry(k, TextOf(old(saved.items), keys, k)), detect)
    ensures count == None ==> saved.items == old(saved.items)
  {
    hide Clean, KvText.Items, Lines, ExportText, Fresh, DecryptItem, WithAll, OwnKey;
    var text, order := Export(saved.items, keys);
    if text.None? {
      return None;
    }
    ghost var entries := EntriesOf(saved.items, keys, order);
    EditKeepsValues(saved.items, keys, order, detect);
    ListingParses(saved.items, keys, order);
    ListingSize(saved.items, order);
    count := EditApply(saved, keys, text.value, detect);
  }

  /** The listing of a snapshot with clean entries parses to its entries. */
  lemma ListingParses(items: Items, keys: Keys, order: seq<string>)
    requires Readable(items, keys) && IsListing(items, keys, order)
    requires forall k :: k in items ==> Clean(Entry(k, TextOf(items, keys, k)))
    ensures KvText.Items(Lines(ExportText(EntriesOf(items, keys, order)))) == EntriesOf(items, keys, order)
  {
    hide Clean, KvText.Items, Lines, ExportText, DecryptItem;
    var entries := EntriesOf(items, keys, order);
    forall i | 0 <= i < |entries| ensures Clean(entries[i]) {
      assert order[i] in order;
    }
    ExportParsesBack(entries);
  }

  lemma {:induction false} ListingSize(items: Items, order: seq<string>)
    requires Increasing(order) && forall k :: k in order <==> k in items
    ensures |order| == |items|
  {
    if order == [] {
      assert items.Keys == {};
    } else {
      var init, last := order[..|order| - 1], order[|order| - 1];
      assert order == init + [last];
      assert last !in init by {
        forall i | 0 <= i < |init| ensures init[i] != last {
          assert Less(order[i], last);
          LessIrreflexive(last);
        }
      }
      ListingSize(items - {last}, init);
      assert (items - {last}).Keys == items.Keys - {last};
      assert |items.Keys - {last}| == |items.Keys| - 1;
    }
  }
}
