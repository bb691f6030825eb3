/** What the question about a collection finds out, when the server answers it truthfully. */
module Catalogue {
  import opened Values
  import opened Policy
  import opened Namespaces
  import opened Execute
  import opened Interleaving
  import opened InterleavingTheorems
  import opened CommandLaws

  /** A server's databases, and in each the kind of every name: "collection", "view", "timeseries". */
  type Databases = map<string, map<string, string>>

  /** A filter of listCollections over names and kinds lets an entry through. */
  predicate Passes(filter: Value, name: string, kind: string)
  {
    filter.Document? ==>
      forall i :: 0 <= i < |filter.fields| ==>
        && (filter.fields[i].key == "name" ==> filter.fields[i].value == String(name))
        && (filter.fields[i].key == "type" ==> filter.fields[i].value == String(kind))
  }

  /** The query selects this entry. */
  predicate Selects(query: Doc, databases: Databases, name: string, kind: string)
  {
    && query != [] && query[0].key == "listCollections"
    && var db := Get(query, "$db");
    && db.String? && db.text in databases && name in databases[db.text] && databases[db.text][name] == kind
    && Passes(Get(query, "filter"), name, kind)
  }

  /** A listed entry: its name and its kind, and whatever else. */
  predicate Lists(item: Value, name: string, kind: string)
  {
    item.Document? && Get(item.fields, "name") == String(name) && Get(item.fields, "type") == String(kind)
  }

  /** The number of entries that fit into the first batch. */
  function BatchSize(query: Doc): int
  {
    var cursor := Get(query, "cursor");
    var size := if cursor.Document? then Get(cursor.fields, "batchSize") else Null;
    if AuthNumber(size).Some? then AuthNumber(size).value else 101
  }

  /**
   * A successful and truthful reply: its first batch lists entries that the query selects, none twice. The cursor is
   * closed when all of them are listed, and otherwise the batch is full.
   */
  ghost predicate Truthful(databases: Databases, query: Doc, reply: Doc)
  {
    && AuthNumber(Get(reply, "ok")) == Some(1)
    && Get(reply, "cursor").Document?
    && var cursor := Get(reply, "cursor").fields;
    && AuthNumber(Get(cursor, "id")).Some?
    && Get(cursor, "firstBatch").Array?
    && var items := Get(cursor, "firstBatch").items;
    && (forall i :: 0 <= i < |items| ==>
          exists name, kind :: Selects(query, databases, name, kind) && Lists(items[i], name, kind))
    && (forall i, j, name, kind :: 0 <= i < j < |items| ==>
          !(Lists(items[i], name, kind) && Lists(items[j], name, kind)))
    && if AuthNumber(Get(cursor, "id")) == Some(0) then
         forall name, kind :: Selects(query, databases, name, kind) ==>
           exists i :: 0 <= i < |items| && Lists(items[i], name, kind)
       else |items| >= BatchSize(query)
  }

  /** The name stands for a plain collection, or for nothing. */
  predicate PlainOrAbsent(databases: Databases, ns: Namespace)
  {
    ns.database in databases && ns.collection in databases[ns.database] ==>
      databases[ns.database][ns.collection] == "collection"
  }

  lemma QuestionFields(ns: Namespace)
    ensures var q := AllowedQuery(ns);
            && q != [] && q[0].key == "listCollections" && Get(q, "$db") == String(ns.database)
            && Get(q, "filter") == Document([Field("name", String(ns.collection))]) && BatchSize(q) == 2
  {
    var q := AllowedQuery(ns);
    assert |"listCollections"| == 15 && |"filter"| == 6 && |"cursor"| == 6 && |"$db"| == 3;
    assert "filter"[0] != "cursor"[0];
    assert UniqueKeys(q);
    GetAt(q, 1);
    GetAt(q, 2);
    GetAt(q, 3);
  }

  lemma OneNamePasses(wanted: string, name: string, kind: string)
    ensures Passes(Document([Field("name", String(wanted))]), name, kind) <==> name == wanted
  {
    assert "name"[0] != "type"[0];
    var filter := Document([Field("name", String(wanted))]);
    assert filter.fields[0].key == "name" && filter.fields[0].value == String(wanted);
  }

  /** The question selects the entry of that name in that database, and no other. */
  lemma QuestionSelects(ns: Namespace, databases: Databases, name: string, kind: string)
    ensures Selects(AllowedQuery(ns), databases, name, kind) <==>
            && name == ns.collection && ns.database in databases && name in databases[ns.database]
            && databases[ns.database][name] == kind
  {
    hide AllowedQuery, Get, Passes;
    QuestionFields(ns);
    OneNamePasses(ns.collection, name, kind);
  }

  lemma TruthIsOneBatch(databases: Databases, ns: Namespace, reply: Doc)
    requires Truthful(databases, AllowedQuery(ns), reply)
    ensures AuthNumber(Subfield(reply, "id")) == Some(0) && Succeeded(reply) && Subfield(reply, "firstBatch").Array?
  {
    hide AuthNumber, AllowedQuery, Get, Selects, Lists;
    QuestionFields(ns);
    var cursor := Get(reply, "cursor").fields;
    var items := Get(cursor, "firstBatch").items;
    if |items| >= 2 {
      var name, kind :| Selects(AllowedQuery(ns), databases, name, kind) && Lists(items[0], name, kind);
      var name2, kind2 :| Selects(AllowedQuery(ns), databases, name2, kind2) && Lists(items[1], name2, kind2);
      QuestionSelects(ns, databases, name, kind);
      QuestionSelects(ns, databases, name2, kind2);
      assert false;
    }
  }

  /**
   * When the server answers truthfully, the verdict is Allowed exactly when the name stands for a plain collection or
   * for nothing, and does not begin with the system prefix; and it is never that the answer is malformed.
   */
  lemma VerdictIsTruth(databases: Databases, ns: Namespace, reply: Doc)
    requires Truthful(databases, AllowedQuery(ns), reply)
    ensures Judge(reply, ns) == Allowed <==>
            PlainOrAbsent(databases, ns) && !(|ns.collection| >= 7 && ns.collection[..7] == "system.")
    ensures Judge(reply, ns) != Malformed
  {
    hide AuthNumber, AllowedQuery, Get, Selects;
    TruthIsOneBatch(databases, ns, reply);
    assert |"system."| == 7;
    var items := Subfield(reply, "firstBatch").items;
    forall i | 0 <= i < |items|
      ensures ns.database in databases && ns.collection in databases[ns.database]
      ensures Lists(items[i], ns.collection, databases[ns.database][ns.collection])
    {
      var name, kind :| Selects(AllowedQuery(ns), databases, name, kind) && Lists(items[i], name, kind);
      QuestionSelects(ns, databases, name, kind);
    }
    if ns.database in databases && ns.collection in databases[ns.database] {
      var kind := databases[ns.database][ns.collection];
      QuestionSelects(ns, databases, ns.collection, kind);
      var i :| 0 <= i < |items| && Lists(items[i], ns.collection, kind);
    }
  }

  /** Whether the server tells the truth or not: what the verdict is made of. */
  lemma VerdictInWords(ns: Namespace, reply: Doc)
    ensures var cursor := Get(reply, "cursor");
            var whole := cursor.Document? && Get(cursor.fields, "firstBatch").Array? &&
                         AuthNumber(Get(cursor.fields, "id")) == Some(0);
            && (Judge(reply, ns) == Malformed <==> AuthNumber(Get(reply, "ok")) == Some(1) && !whole)
            && (Judge(reply, ns) == Allowed <==>
                  && AuthNumber(Get(reply, "ok")) == Some(1) && whole
                  && (forall i :: 0 <= i < |Get(cursor.fields, "firstBatch").items| ==>
                        Lists(Get(cursor.fields, "firstBatch").items[i], ns.collection, "collection"))
                  && !(|ns.collection| >= 7 && ns.collection[..7] == "system."))
  {
    hide AuthNumber, Get;
    assert |"system."| == 7;
  }

  /** Whatever the databases hold, when the answer is truthful about them, the collection is a plain one or none. */
  ghost predicate Vouches(reply: Doc, ns: Namespace)
  {
    forall databases: Databases :: Truthful(databases, AllowedQuery(ns), reply) ==> PlainOrAbsent(databases, ns)
  }

  /** Before event n of the log, the backend has answered about this namespace, in the same call, and vouched for it. */
  ghost predicate VouchedBefore(log: seq<Event>, n: nat, ns: Namespace)
    requires n < |log|
  {
    exists m :: 0 <= m < n && log[m].call == log[n].call && log[m].deed.Asked? && log[m].deed.ns == ns &&
      Vouches(log[m].deed.verdictOf, ns)
  }

  /** If event n forwards a command on no metadata cursor, then the backend has vouched for this collection of it. */
  ghost predicate VouchedFor(log: seq<Event>, n: nat, c: string)
  {
    n < |log| && log[n].deed.Forwarded? && !Metadata(log[n].deed.owners) &&
    (Own(log[n].doc, c) || Reads(log[n].doc, c)) ==>
      Get(log[n].doc, "$db").String? && VouchedBefore(log, n, Namespace(Get(log[n].doc, "$db").text, c))
  }

  /**
   * In every run, a command that does not continue a metadata cursor is forwarded only after the backend has been
   * asked, in the same call, about its own collection and about every collection that a stage at any nesting reads,
   * and has answered such that, if it told the truth, each of them is a plain collection or does not exist.
   */
  lemma ForwardedToPlainCollections(run: seq<Choice>, n: nat, c: string)
    ensures VouchedFor(Run(run).log, n, c)
  {
    hide Run, CommandOK, Touches, Own, Reads, Judge, Truthful, ForwardDoc, Metadata;
    var log := Run(run).log;
    if n < |log| && log[n].deed.Forwarded? && !Metadata(log[n].deed.owners) &&
       (Own(log[n].doc, c) || Reads(log[n].doc, c)) {
      ForwardedOnlyAfterAllowed(run, n);
      NamespacesWrittenOut(log[n].doc, c);
      var ns := Namespace(Get(log[n].doc, "$db").text, c);
      assert AllowedBefore(log, n, ns);
      var m :| 0 <= m < n && log[m].call == log[n].call && log[m].deed.Asked? && log[m].deed.ns == ns &&
        Judge(log[m].deed.verdictOf, ns) == Allowed;
      AllowedVouches(log[m].deed.verdictOf, ns);
    }
  }

  lemma AllowedVouches(reply: Doc, ns: Namespace)
    requires Judge(reply, ns) == Allowed
    ensures Vouches(reply, ns)
  {
    hide Judge, Truthful;
    forall databases: Databases | Truthful(databases, AllowedQuery(ns), reply) ensures PlainOrAbsent(databases, ns) {
      VerdictIsTruth(databases, ns, reply);
    }
  }
}
