/** What passes between a client and the backend in every run, written out: the commands sent, the replies shown. */
module Traffic {
  import opened Values
  import opened PolicyTables
  import opened Policy
  import opened Reply
  import opened Execute
  import opened Interleaving
  import opened InterleavingInvariant
  import opened InterleavingTheorems
  import opened Namespaces
  import opened CommandLaws
  import opened ReplyContent

  // ------------------------------------------------------------------- what is sent

  lemma ListingHasNoTargets(doc: Request)
    requires doc[0].key == "listCollections"
    ensures Targets(doc) == Some([]) && TargetIds(doc) == []
  {
    assert |"listCollections"| == 15 && |"getMore"| == 7 && |"killCursors"| == 11;
  }

  lemma AcceptedIsUnique(doc: Doc)
    requires CommandOK(doc)
    ensures UniqueKeys(doc)
  {
    hide CommandOK;
    RuleOfCommand(doc);
  }

  lemma ListingIsUnique(e: Event)
    requires e.deed.Forwarded? && e.doc[0].key == "listCollections"
    requires |e.deed.owners| == |TargetIds(e.doc)| && Cleared(e.doc, e.deed.owners)
    ensures UniqueKeys(e.doc)
  {
    hide CommandOK, Masked, TargetIds;
    ListingHasNoTargets(e.doc);
    assert Checked(e.doc, e.deed.owners) == e.doc;
    AcceptedIsUnique(e.doc);
  }

  /** The event sends what it must, and a listing is of unique keys. */
  ghost predicate Sends(e: Event)
  {
    e.deed.Forwarded? ==>
      e.deed.sent == ForwardDoc(e.doc) && (e.doc[0].key == "listCollections" ==> UniqueKeys(e.doc))
  }

  lemma SentBy(before: seq<Event>, e: Event)
    requires Justified(before, e)
    ensures Sends(e)
  {
    hide AllLooked, Cleared, Targets, TargetIds, NamespaceList, ForwardDoc, Metadata, AllAllowed;
    if e.deed.Forwarded? && e.doc[0].key == "listCollections" {
      ListingIsUnique(e);
    }
  }

  lemma JustifiedInRun(run: seq<Choice>, e: Event) returns (before: seq<Event>)
    requires e in Run(run).log
    ensures Justified(before, e)
  {
    hide Run, Lawful, Justified;
    var log := Run(run).log;
    var n :| 0 <= n < |log| && log[n] == e;
    RunIsLawful(run);
    EventIsJustified(log, n);
    before := log[..n];
  }

  /** The filter that hides views and the system namespace, added to the client's own. */
  predicate Narrowed(doc: Doc, sent: Doc)
  {
    && Get(sent, "filter").Document? && |Get(sent, "filter").fields| == 1
    && Get(sent, "filter").fields[0] ==
       Field("$and", Array([if Get(doc, "filter").Document? then Get(doc, "filter") else Document([]),
                            Document([Field("type", String("collection")),
                                      Field("name", Document([Field("$not", Regex("^system\\.", "i"))]))])]))
  }

  /** A command is sent as it is; only a listing is sent with full entries and the narrower filter. */
  ghost predicate SentFor(doc: Request, sent: Doc)
  {
    if doc[0].key != "listCollections" then sent == doc
    else
      && UniqueKeys(sent) && sent != [] && sent[0] == doc[0] && Narrowed(doc, sent)
      && (Present(doc, "nameOnly") ==> Get(sent, "nameOnly") == Bool(false))
      && (!Present(doc, "nameOnly") ==> Get(sent, "nameOnly") == Null)
      && forall key: string :: key != "filter" && key != "nameOnly" ==> Get(sent, key) == Get(doc, key)
  }

  lemma ForwardedFor(doc: Request)
    requires doc[0].key == "listCollections" ==> UniqueKeys(doc)
    ensures SentFor(doc, ForwardDoc(doc))
  {
    if doc[0].key == "listCollections" {
      hide ForwardDoc, Get, UniqueKeys, Present;
      ForwardedListIsFiltered(doc, "filter");
      ForwardedListIsFiltered(doc, "nameOnly");
      assert "nameOnly" != "filter";
      if !Present(doc, "nameOnly") {
        GetAbsent(doc, "nameOnly");
      }
      forall key: string | key != "filter" && key != "nameOnly" ensures Get(ForwardDoc(doc), key) == Get(doc, key) {
        ForwardedListIsFiltered(doc, key);
      }
    }
  }

  /** A command that is forwarded is sent like this. */
  ghost predicate SentInFull(e: Event) { e.deed.Forwarded? ==> SentFor(e.doc, e.deed.sent) }

  /** In every run, what the backend gets for a command is what the client sent, but for the narrower listing. */
  lemma SentAsItIs(run: seq<Choice>, e: Event)
    requires e in Run(run).log
    ensures SentInFull(e)
  {
    hide Run, Justified, ForwardDoc, SentFor;
    var before := JustifiedInRun(run, e);
    SentBy(before, e);
    if e.deed.Forwarded? {
      ForwardedFor(e.doc);
    }
  }

  // ------------------------------------------------------------------- what is shown

  /** The reply shown is the one written out for this command. */
  predicate ShownAs(e: Event, name: string) { e.deed.Answered? ==> e.deed.shown == Written(name, e.deed.reply) }

  predicate Shows(e: Event)
  {
    e.deed.Answered? && e.doc[0].key != "getMore" ==>
      e.deed.shown == PublicReply(VerbOf(e.doc[0].key), e.deed.reply)
  }

  lemma ShownBy(before: seq<Event>, e: Event)
    requires Justified(before, e)
    ensures Shows(e)
  {
    hide VerbOf, PublicReply, Entitled, FoundInRegistry, Judge, NamespaceList;
  }

  /** A command other than getMore is answered by the reply written out for it. */
  predicate AnsweredInFull(e: Event) { e.doc[0].key != "getMore" ==> ShownAs(e, e.doc[0].key) }

  /** What the client of any command but getMore is shown, in every run, is the reply written out for it. */
  lemma ShownInFull(run: seq<Choice>, e: Event)
    requires e in Run(run).log
    ensures AnsweredInFull(e)
  {
    hide Run, Justified, Written, PublicReply, VerbOf;
    var before := JustifiedInRun(run, e);
    ShownBy(before, e);
    if e.deed.Answered? {
      ReplyWrittenOut(e.doc[0].key, e.deed.reply);
    }
  }

  /** An answered getMore is at the end of a chain, and is answered by the reply written out for its opener. */
  ghost predicate ContinuedAsOpener(log: seq<Event>, n: nat)
  {
    n < |log| && log[n].deed.Answered? && log[n].doc[0].key == "getMore" ==>
      exists path: seq<nat> :: AnswersChain(log, n, path) && ShownAs(log[n], log[path[0]].doc[0].key)
  }

  /** And the client of a getMore is shown the reply written out for the command that opened its chain. */
  lemma ContinuedInFull(run: seq<Choice>, n: nat)
    ensures ContinuedAsOpener(Run(run).log, n)
  {
    hide Run, Written, PublicReply, VerbOf, Stores, TargetIds;
    var log := Run(run).log;
    if n < |log| && log[n].deed.Answered? && log[n].doc[0].key == "getMore" {
      GetMoreAnswersAsOpener(run, n);
      var path: seq<nat> :| AnswersChain(log, n, path);
      ReplyWrittenOut(log[path[0]].doc[0].key, log[n].deed.reply);
      assert ShownAs(log[n], log[path[0]].doc[0].key);
    }
  }
}
