# Verification of the database tunnels

This project models the logic of vaulty-keeper that decides what may pass through a database tunnel, and proves what
that logic keeps. To verify: `dafny verify dfyconfig.toml` (Dafny 4.11).

## What is modelled

The main part is the MongoDB tunnel. It never relays raw bytes: it decodes every frame, checks every command, follows
every cursor and rebuilds every reply.

| layer | modules |
|---|---|
| BSON values, numbers and text, octets, the BSON validator and the driver's codec; the layout of BSON in numbers | `Values`, `Doubles`, `Utf8`, `Octets`, `BsonTree`, `BsonCodec`, `BsonLayout` |
| OP_MSG frames, their sections, bulk writes, the partial-write loop, request identifiers | `Wire`, `WireLoops`, `WireFormat`, `DeepBody`, `BackendLink` |
| the whitelist over commands, filters, expressions, pipelines and updates | `PolicyTables`, `Policy` |
| the evaluated positions of a command, independent of the checks, and what acceptance means there | `Positions`, `PolicyUnfold`, `PolicyTheorems` |
| the whitelist written out literally, with no use of the modules that check it, and that it is what they check | `Whitelist`, `WhitelistTheorems` |
| the collections a command can touch; what acceptance means in words, and ordinary commands that are accepted | `Namespaces`, `CommandLaws` |
| public replies, and what they hold field by field | `Reply`, `ReplyLoops`, `ReplyTheorems`, `ReplyContent` |
| the cursor registry shared by all connections | `Registry` |
| `execute`: its decisions, its steps interleaved with other calls, and its own sequential form | `Execute`, `Interleaving`, `InterleavingInvariant`, `InterleavingTheorems`, `InterleavingSafety`, `StrayCursor`, `Settlement`, `ExecuteLoop`, `Backends` |
| what the questions about collections find out, and what passes in either direction | `Catalogue`, `Traffic` |
| SCRAM, the tunnel's side of a connection, the proxy's own login, and the two composed | `Scram`, `TunnelServer`, `TunnelServerRuns`, `Greeting`, `Login`, `LoginTheorems` |

The smaller parts are the registered connections (`Store`, `StoreTheorems`, `PortExhaustion`), the listener
reconciliation (`Listener`, and `Reconciliation` for the stores that can be reached), the Redis codec (`Resp`), the
key/value text (`KvText`, `KvRoundTrip`) and the encrypted snapshots (`Snapshot`), with `Sorting` and `Sealing` beneath
them.

Conventions:

* A Go string is a sequence of octets, and a `char` here is one octet. `Null` also stands for what looking up an absent
  key gives, as Go's nil does.
* Code that changes things step by step is a method or a class; it is proved equal to a function of its inputs or of
  its old state, and the theorems are about that function.
* The concurrent behaviour of `execute` is a step machine (`Interleaving.Next`). One step is one critical section, one
  backend exchange or one local decision. Theorems quantify over every sequence of steps, so over every interleaving,
  every backend answer and every passing of time. The log is a history variable that no step reads.
  `ExecuteLoop.RunCall` is `execute` written out statement by statement; it is proved to take the steps of the machine.
* Theorems that say what a keyword, a number or a layout must be do not use the definitions that the code's functions
  share: `Whitelist`, `CommandLaws`, `Catalogue`, `ReplyContent`, `Traffic`, `Greeting`, `Doubles`, `Utf8`, `BsonLayout` and
  `WireFormat` write the keys and numbers out.
* Cryptography is symbolic. A sealed text opens under its key only. A SCRAM proof is made from the prepared password
  and the transcript, so it verifies exactly when both sides have the same prepared password. SASLprep, the CRC, the
  detection of sensitive values and the type of a database URL are parameters. Random draws, the clock, file access and
  backend answers are inputs.

## What the proofs found

Properties that do not hold of the code in full are stated with their exact condition and with an input that fails.

* `mongoPublicReply` is idempotent except for a successful findAndModify whose upstream `value` is neither absent, null
  nor a document (`ReplyTheorems.IdempotentIff`, `ReplyTheorems.NotIdempotentExample`).
* A written command reads back exactly when its keys are unique and its body is nested no deeper than 100
  (`Wire.RoundTrip`); the writer itself does not check the nesting of the body, so a deeper one is written and then
  refused (`DeepBody.DeepBodies`).
* A registry entry with a dollar sign in its namespace was opened by listCollections, listIndexes or killCursors. It is
  not the entry of a metadata command exactly when the event that opened its chain is a successful reply to killCursors
  with a cursor other than 0 (`InterleavingSafety.DollarMeansMetadata`). `StrayCursor.StrayCursorRun` is such a run from
  the empty registry: the killCursors in it names a live metadata cursor, which is what lets its namespace pass.
* An automatic port is at most 65535 exactly when one of the ports 15432 to 65535 is held by no other connection
  (`StoreTheorems.AutomaticPortInRange`). A connection whose port is above 65535 cannot be added again without a port
  (`StoreTheorems.ReAddKeepsPort`). `PortExhaustion.PortsRunOut` reaches such a store from the empty one.
* Two syncs open exactly the enabled listeners if and only if no name still to be opened finds its port under an
  enabled listener that was opened on another port (`Listener.TwoSyncsReconcile`, with a blocked name in
  `Listener.StalePortBlocks`); one sync is not enough, in whatever order it runs (`Listener.OneSyncOpensNothing`,
  `Listener.OneSyncIsNotEnough`).
* Exported key/value text reads back exactly when every entry is clean (`KvRoundTrip.ExportParsesBack`); a quoted value
  loses its quotes (`KvRoundTrip.QuotesAreLost`). Loading a snapshot with clean entries as text and applying it
  unchanged succeeds exactly when the snapshot opens, is not empty, and the keys that detection asks for are there
  (`Snapshot.EditUnchanged`). It keeps the values, but not the explicit classification: detection decides anew, and
  nothing stays marked safe.

## Model

| member | source | states |
|---|---|---|
| Doubles.NumbersAreExact | internal/dbproxy/mongodb_policy.go:64-83 | both number readers take a double for the integer n exactly when the real number that IEEE 754 gives its bits is n, within 64 bits or within the integers that doubles hold exactly |
| Policy.CheckFields | internal/dbproxy/mongodb_policy.go:44-53 | the one-pass check with a set of seen keys accepts exactly documents whose keys are all allowed and unique |
| Policy.CheckMatch | internal/dbproxy/mongodb_policy.go:474-504 | the recursive loop over a filter, with its set of seen keys, decides the filter predicate |
| Policy.CheckMatchArray | internal/dbproxy/mongodb_policy.go:461-472 | the same for a list of filters |
| PolicyTheorems.AcceptedIffEverywhere | internal/dbproxy/mongodb_policy.go:338-1226 | a filter, expression, projection, pipeline or update is accepted if and only if every position the server evaluates inside it, at any nesting, satisfies its own whitelist rule and lies within depth 64 |
| PolicyTheorems.CommandAcceptedIffEverywhere | internal/dbproxy/mongodb_policy.go:115-336 | the same for a whole command; the rules themselves are literal in `WhitelistTheorems.CommandAcceptedIffWhitelisted` |
| PolicyTheorems.AcceptedShallower | internal/dbproxy/mongodb_policy.go:474-1052 | what is accepted at a depth is accepted at every smaller depth |
| PolicyTheorems.AcceptedAt | internal/dbproxy/mongodb_policy.go:474-1226 | everything below an accepted value is itself accepted, in its role and at its depth |
| PolicyTheorems.EvaluatedExpressions | internal/dbproxy/mongodb_policy.go:654-874 | an expression evaluated anywhere in an accepted command uses permitted variables only and whitelisted operators with declared arity and required fields |
| PolicyTheorems.NeverEvaluated | internal/dbproxy/mongodb_policy.go:474-1052 | at no nesting of an accepted command is a writing or inspecting stage, a code-running or field-computing operator, a code filter, or the variable of the proxy's own roles with or without a path behind it, evaluated |
| WhitelistTheorems.CommandAcceptedIffWhitelisted | internal/dbproxy/mongodb_policy.go:85-1226 | a command is accepted if and only if every position inside it, found by the literal rules, satisfies the literal rule of its role and lies within depth 64 |
| CommandLaws.DatabaseOfCommand | internal/dbproxy/mongodb_policy.go:85-94 | the database of an accepted command is in no case local or config, is admin only for ping, buildInfo, listDatabases and endSessions, and has none of the forbidden characters |
| CommandLaws.EvaluatedOperators | internal/dbproxy/mongodb_policy.go:654-874 | wherever an accepted command evaluates an expression, a text refers to permitted variables only, and an operator has its number of operands or its named arguments, listed literally |
| CommandLaws.FindIsAccepted | internal/dbproxy/mongodb_policy.go:115-336 | a find by equality on any field, sorted either way, with any skip and limit, in any ordinary collection, is accepted |
| CommandLaws.InsertIsAccepted | internal/dbproxy/mongodb_policy.go:115-336 | an insert of any documents into any ordinary collection is accepted |
| CommandLaws.UpdateIsAccepted | internal/dbproxy/mongodb_policy.go:115-336 | an update that sets any field to any value where another field equals a value is accepted |
| CommandLaws.GetMoreIsAccepted | internal/dbproxy/mongodb_policy.go:115-336 | a getMore of any number on any ordinary collection is accepted |
| Positions.ChildIsSmaller | internal/dbproxy/mongodb_policy.go:474-1226 | the evaluated positions below a value are parts of it, so the checks terminate |
| Namespaces.TouchesIffUsed | internal/dbproxy/mongodb_policy.go:1228-1281 | of an accepted command, the walk meets a collection exactly when some evaluated position at any nesting names it |
| Namespaces.NamespaceListExact | internal/dbproxy/mongodb_policy.go:1228-1281 | the list holds exactly the collections the command can touch, in its database, each once, by first use; what a command touches is literal in `CommandLaws.NamespacesWrittenOut` |
| CommandLaws.NamespacesWrittenOut | internal/dbproxy/mongodb_policy.go:1228-1281 | a collection is in the list exactly when it is the value of the command, the `collection` of a getMore, the `from` of a $lookup or the $unionWith of a stage at any nesting, by itself or in `coll` |
| CommandLaws.NoSystemCollection | internal/dbproxy/mongodb_policy.go:96-113 | no collection that an accepted command touches begins with "system." in any case or holds a dollar sign |
| Namespaces.CommandNamespaces | internal/dbproxy/mongodb_policy.go:1228-1281 | the method computes that list, nothing for a rejected command, and none of its unchecked accesses fails |
| Namespaces.Walk | internal/dbproxy/mongodb_policy.go:1249-1276 | on an accepted pipeline the recursive walk adds the uses in order, without a failing access |
| Namespaces.WalkStage | internal/dbproxy/mongodb_policy.go:1251-1275 | the same for one stage: $lookup, $unionWith in both forms, $facet |
| Namespaces.WalkFields | internal/dbproxy/mongodb_policy.go:1254-1274 | the same for the sub-pipelines of a stage |
| Namespaces.AddAllIsFirstUseList | internal/dbproxy/mongodb_policy.go:1233-1242 | adding with the membership test gives the duplicate-free list in order of first use |
| BsonTree.AcceptedIffPrinted | internal/dbproxy/mongodb_wire.go:43-84 | a byte string is accepted if and only if it is the encoding of a well-formed document whose nesting through documents, arrays and code scopes is within 100; the sizes that make it well formed are in numbers in `BsonLayout` |
| BsonTree.ParseSound | internal/dbproxy/mongodb_wire.go:43-84 | an accepted byte string is tiled exactly by its elements at every level: printing what was parsed gives it back |
| BsonTree.ParsePrinted | internal/dbproxy/mongodb_wire.go:43-84 | the encoding of a well-formed document is accepted exactly when its height is within the limit, and parses to that document |
| BsonTree.ValidateBSON | internal/dbproxy/mongodb_wire.go:43-84 | the recursive validator terminates and decides acceptance |
| BsonLayout.OneValue | internal/dbproxy/mongodb_wire.go:43-84 | for any name without a zero and any octets, the document of one element parses to it exactly when the octets have the size, in numbers, that BSON gives the tag |
| BsonLayout.ValueAccepted | internal/dbproxy/mongodb_wire.go:43-84 | and it is accepted exactly when the octets begin with a value of that size and go on with further elements |
| BsonLayout.OneDocument | internal/dbproxy/mongodb_wire.go:43-84 | the same for documents and arrays: exactly when the octets are a document themselves, one level down |
| BsonCodec.ElementsRoundTrip | internal/dbproxy/mongodb_wire.go:86-106 | decoding the elements of an encoded document gives the document |
| BsonLayout.TypesInNumbers | internal/dbproxy/mongodb_wire.go:86-106 | every plain value is written with the tag of its type and with octets stated digit by digit |
| BsonLayout.NestedTypesInNumbers | internal/dbproxy/mongodb_wire.go:86-106 | documents, arrays with their items numbered from zero, and code with scope, with their tags |
| Wire.ReadDocumentPrinted | internal/dbproxy/mongodb_wire.go:86-106 | an encoded document is read back, whatever follows, exactly when it is within the depth and its keys are unique |
| Wire.SectionsTile | internal/dbproxy/mongodb_wire.go:163-243 | accepted sections tile the payload and each is complete by itself |
| Wire.AcceptedSectionsAreCanonical | internal/dbproxy/mongodb_wire.go:163-243 | an accepted payload has one kind-0 section, unique keys, and its body is the kind-0 fields followed by the sequences in wire order |
| Wire.TilesRead | internal/dbproxy/mongodb_wire.go:179-243 | the converse: complete sections in a row are a payload that reads as exactly those sections |
| Wire.BodyPlaceIsFree | internal/dbproxy/mongodb_wire.go:229-243 | where the kind-0 section stands in a list of sections does not matter for the command |
| Wire.BodyMovesFreely | internal/dbproxy/mongodb_wire.go:163-243 | moving the kind-0 section within the bytes of a payload leaves the command the same, or leaves it refused |
| Wire.ChecksumIsTransparent | internal/dbproxy/mongodb_wire.go:163-179 | a checksum bit with the right checksum gives the same body, with a wrong one nothing |
| Wire.RoundTrip | internal/dbproxy/mongodb_wire.go:112-334 | a written command reads back with the same id and body, only the bulk array moved to the end, exactly when its keys are unique and its body within the depth; the length header equals the bytes and is at most 48,000,000; what follows stays unread |
| DeepBody.DeepBodies | internal/dbproxy/mongodb_wire.go:304-334 | bodies of any nesting are written as long as the frame fits; they are read back up to a nesting of 100 and refused from 101 on |
| Wire.LengthHeader | internal/dbproxy/mongodb_wire.go:304-334 | every written frame, the legacy reply included, announces its own length |
| WireFormat.ModernFrame | internal/dbproxy/mongodb_wire.go:304-334 | a written command: its length, numbers, code 2013, no flags, section kind 0, each at its place, then the body and the batch |
| WireFormat.LegacyReply | internal/dbproxy/mongodb_wire.go:304-334 | a legacy reply: code 1, no flags, no cursor, starting from zero, one document, and then that document |
| WireFormat.CommandInWords | internal/dbproxy/mongodb_wire.go:253-302 | a written command holds the whole body, or for insert, update and delete the body without its one array of the literal name and then that array's documents as a section of kind 1 |
| WireFormat.BatchFits | internal/dbproxy/mongodb_wire.go:287-300 | a batch is written exactly when its items are documents of at most 16,777,216 octets that validate, and together they fit into 48,000,000 |
| WireFormat.FrameFits | internal/dbproxy/mongodb_wire.go:304-316 | and the frame exactly when the body is writable, is no larger than 16,777,216 beside a batch, and all of it fits |
| WireFormat.ReadInNumbers | internal/dbproxy/mongodb_wire.go:112-179 | what is read is within the limit and 48,000,000, and is a modern message with no unknown flag or a legacy handshake in its fixed form |
| WireFormat.HandshakeIsRead | internal/dbproxy/mongodb_wire.go:137-162 | every legacy handshake in that form is read, with its number and its document, exactly within the depth and with unique keys |
| Utf8.ValidIffRunes | internal/dbproxy/mongodb_wire.go:210-210 | the test for valid text accepts exactly the encodings of Unicode scalar values, one after the other |
| WireLoops.ReceiveMessage | internal/dbproxy/mongodb_wire.go:112-244 | the reader as it runs computes that message |
| WireLoops.ReceiveLegacy | internal/dbproxy/mongodb_wire.go:137-162 | the legacy branch: the name up to its zero byte, the counters, one hello document that fills the rest |
| WireLoops.IndexOfNul | internal/dbproxy/mongodb_wire.go:142-142 | the search for the zero byte finds the first one or says there is none |
| WireLoops.CollectSections | internal/dbproxy/mongodb_wire.go:179-243 | the section loop with its running body, flag and sequences gives the assembled command |
| WireLoops.ReadOneDocument | internal/dbproxy/mongodb_wire.go:86-106 | one document with its size, validated, decoded and without repeated keys |
| WireLoops.ReadOneSection | internal/dbproxy/mongodb_wire.go:182-227 | one section, with its size |
| WireLoops.ReadBatch | internal/dbproxy/mongodb_wire.go:213-224 | the document loop of a kind-1 section |
| WireLoops.HasUniqueKeys | internal/dbproxy/mongodb_wire.go:232-242 | the key set loop decides uniqueness |
| WireLoops.EncodeCommand | internal/dbproxy/mongodb_wire.go:253-302 | the split of a bulk write and its batch give the specified bytes |
| WireLoops.EncodeBatch | internal/dbproxy/mongodb_wire.go:287-300 | the batch loop with its size limits |
| WireLoops.Connection.WriteAll | internal/dbproxy/mongodb_wire.go:326-333 | any schedule of partial writes that does not fail delivers exactly the bytes; it fails exactly when the schedule runs dry first, and then a proper prefix went out |
| BackendLink.Link.Command | internal/dbproxy/mongodb_auth.go:103-126 | a command succeeds exactly when its bytes go out in full and the message read answers its identifier; any failure closes the connection for good |
| BackendLink.IdsDiffer | internal/dbproxy/mongodb_auth.go:112-115 | identifiers are distinct over any 2^32 - 1 consecutive commands, across the wrap-around that skips zero |
| BackendLink.LateReplyRefused | internal/dbproxy/mongodb_auth.go:112-125 | a reply to one command is never taken for the reply to another within that range |
| ReplyLoops.Sanitize | internal/dbproxy/mongodb_policy.go:1285-1428 | the result, appended to branch by branch as the code does, is the public reply; what that holds is literal in `ReplyContent.ReplyWrittenOut` |
| ReplyLoops.PolicyError | internal/dbproxy/mongodb_policy.go:1440-1462 | the error fields, built one after another, are the clean error |
| ReplyLoops.CursorDoc | internal/dbproxy/mongodb_policy.go:1295-1314 | the cursor of a reply keeps a numeric id, a text namespace and its batches, cleaned for metadata commands; literal in `ReplyContent.DocumentsArrive` and `ReplyContent.ListingsArrive` |
| ReplyLoops.CommonFields | internal/dbproxy/mongodb_policy.go:1401-1428 | the fields that every reply may end with |
| ReplyLoops.MetadataBatch | internal/dbproxy/mongodb_policy.go:1464-1511 | the batch loops, with the loop over the parts of an index key, keep exactly the cleaned collections or indexes, in order |
| ReplyContent.ReplyWrittenOut | internal/dbproxy/mongodb_policy.go:1285-1511 | the public reply of every command is the one written out field by field with literal keys: what the upstream reply has under the key when it is of the right type, in order |
| ReplyContent.DocumentsArrive | internal/dbproxy/mongodb_policy.go:1295-1314 | of a successful find, aggregate or getMore the batches, the cursor id and the namespace reach the client unchanged |
| ReplyContent.ListingsArrive | internal/dbproxy/mongodb_policy.go:1464-1511 | of a successful listing the client gets the entries of plain collections with a permitted name, or of well-formed indexes, in order, with the listed fields, and no others |
| ReplyContent.SiftIsSelection | internal/dbproxy/mongodb_policy.go:1464-1511 | filtering a list gives the forms of the items that pass, at increasing places, and of no others |
| ReplyTheorems.ReplyKeysUnique | internal/dbproxy/mongodb_policy.go:1285-1428 | no key stands twice in a public reply |
| ReplyTheorems.IdempotentIff | internal/dbproxy/mongodb_policy.go:1285-1428 | sanitizing twice is sanitizing once, except exactly for the findAndModify family |
| ReplyTheorems.NotIdempotentExample | internal/dbproxy/mongodb_policy.go:1316-1333 | a member of that family |
| ReplyTheorems.PublicReplyDependsOnWhitelist | internal/dbproxy/mongodb_policy.go:1285-1511 | upstream replies that agree on the whitelisted content give equal public replies |
| ReplyTheorems.ErrorTextIsInvisible | internal/dbproxy/mongodb_policy.go:1285-1462 | upstream replies that differ in the texts of their errors alone, at the top or inside `writeErrors` and `writeConcernError`, give equal public replies |
| ReplyTheorems.ErrorTextIsFixed | internal/dbproxy/mongodb_policy.go:1285-1462 | the error text of a failed public reply, and of every error inside any public reply, is the one fixed text |
| Registry.TunnelState.Find | internal/dbproxy/mongodb.go:48-57 | a lookup gives the entry exactly when scope, id, namespace and session agree and it was used within thirty minutes |
| Registry.TunnelState.Expire | internal/dbproxy/mongodb.go:62-69 | the scan drops exactly the idle entries and counts the scope's others |
| Registry.TunnelState.Remember | internal/dbproxy/mongodb.go:59-76 | idle entries go in any case, the new entry is stored exactly when there is room, and the limits are kept |
| Registry.TunnelState.Forget | internal/dbproxy/mongodb.go:78-82 | exactly one key is removed |
| Registry.TunnelState.EndSessions | internal/dbproxy/mongodb.go:454-466 | the nested loops remove the scope's entries of the listed sessions |
| Registry.RememberedWithinLimits | internal/dbproxy/mongodb.go:59-76 | at most 1024 entries per scope and 16384 in all stay invariant |
| Registry.LookupInNumbers | internal/dbproxy/mongodb.go:48-57 | a cursor is found exactly under its scope and number, for its namespace and session, within thirty minutes in nanoseconds |
| Registry.RememberedInNumbers | internal/dbproxy/mongodb.go:59-76 | what is stored, swept and refused, with the numbers 1024 and 16384 |
| Execute.ReadIds | internal/dbproxy/mongodb.go:345-355 | the id loop of killCursors |
| Execute.TargetsExact | internal/dbproxy/mongodb.go:334-356 | the cursors looked up are exactly the numbers a getMore or killCursors names; one that is no number denies the call |
| Execute.Mask | internal/dbproxy/mongodb.go:370-376 | rewriting the checked copy in place replaces exactly the collection |
| Execute.CheckedInWords | internal/dbproxy/mongodb.go:363-377 | the checked copy, literally: the placeholder stands for the collection when any of the cursors was opened by a listing, and nothing else differs |
| Execute.Compact | internal/dbproxy/mongodb.go:395-406 | filtering the slice in place keeps the order, forces nameOnly to false and takes the filter out |
| Execute.Forward | internal/dbproxy/mongodb.go:392-409 | the forwarded document |
| Execute.ForwardedListIsFiltered | internal/dbproxy/mongodb.go:393-409 | a forwarded listCollections keeps every option but nameOnly, and its filter is the client's own and the one that hides views and the system namespace |
| Execute.CollectionAllowed | internal/dbproxy/mongodb.go:471-499 | the verdict on a namespace, given the backend's answer; what it means for the collection is `Catalogue.VerdictIsTruth` |
| Execute.CursorInWords | internal/dbproxy/mongodb.go:357-434 | which replies with a cursor are accepted: a number, and the namespace that the command's own words allow |
| Catalogue.VerdictIsTruth | internal/dbproxy/mongodb.go:471-499 | for every catalogue of names and kinds and every truthful answer about it, the verdict is yes exactly when the name is a plain collection or absent and does not begin with "system." |
| Catalogue.VerdictInWords | internal/dbproxy/mongodb.go:471-499 | for any answer at all: when it is malformed and when it is a yes |
| InterleavingInvariant.InvariantHolds | internal/dbproxy/mongodb.go:326-469 | after every run the history is lawful, every call is where its history put it, and every entry is the last one stored under its key |
| InterleavingInvariant.KeepComesFirst | internal/dbproxy/mongodb.go:414-467 | of the updates after a reply at most one stores an entry, it comes first, after a successful reply with a cursor other than 0 |
| InterleavingTheorems.ForwardedOnlyAfterAllowed | internal/dbproxy/mongodb.go:378-412 | in every interleaving a command that continues no metadata cursor is forwarded only when it is accepted and the backend has answered, for every collection it can touch at any nesting, that it is a plain collection or no collection at all; what that answer says is `Catalogue.ForwardedToPlainCollections` |
| Catalogue.ForwardedToPlainCollections | internal/dbproxy/mongodb.go:378-412 | in every interleaving a command that continues no metadata cursor is forwarded only after an answer, in the same call, that shows its own collection and every collection that any of its stages reads to be plain or absent, if the backend tells the truth |
| Traffic.SentAsItIs | internal/dbproxy/mongodb.go:392-410 | in every interleaving the backend gets the client's command itself; only a listCollections is sent with full entries and the filter that hides views and the system namespace |
| Traffic.ShownInFull | internal/dbproxy/mongodb.go:468-468 | in every interleaving the client of any command but getMore is shown the reply written out for it |
| Traffic.ContinuedInFull | internal/dbproxy/mongodb.go:468-468 | and the client of a getMore the reply written out for the command that opened its chain |
| InterleavingTheorems.AskedOnlyAboutTouched | internal/dbproxy/mongodb.go:381-391 | nothing else is asked about |
| InterleavingTheorems.SplitUnique | internal/dbproxy/mongodb.go:357-357 | the joined namespace determines database and collection, because a database name has no dot |
| InterleavingTheorems.SameSession | internal/dbproxy/mongodb.go:42-46 | two accepted commands have the same session exactly when their `lsid` documents are equal |
| InterleavingTheorems.CursorsAreGivenOut | internal/dbproxy/mongodb.go:334-368 | in every interleaving each cursor of a forwarded getMore or killCursors was handed out by a successful reply to a command of the same scope with an equal `lsid`, in the same database and on the same collection in the words of both commands, and its last use was at most thirty minutes before the lookup |
| InterleavingTheorems.ChainTo | internal/dbproxy/mongodb.go:358-368 | every stored cursor ends a chain of getMores that starts with the command that opened it |
| InterleavingTheorems.ChainKeeps | internal/dbproxy/mongodb.go:363-365 | along a chain command, namespace, `lsid` and scope never change |
| InterleavingTheorems.EntriesCarryTheOpener | internal/dbproxy/mongodb.go:436-438 | no entry carries getMore; each carries the command that opened its chain |
| InterleavingTheorems.GetMoreAnswersAsOpener | internal/dbproxy/mongodb.go:468-468 | every answered getMore is sanitized as the command that opened its chain |
| InterleavingSafety.DollarMeansMetadata | internal/dbproxy/mongodb.go:326-469 | in every run an entry with a dollar sign in its namespace carries a metadata command or killCursors, and it is not the entry of a metadata command exactly when its chain was opened by a successful killCursors reply with a nonzero cursor |
| StrayCursor.StrayCursorRun | internal/dbproxy/mongodb.go:326-469 | a run from the empty registry after which an entry with a dollar sign in its namespace is no metadata command's |
| InterleavingSafety.RegistryStaysWithinLimits | internal/dbproxy/mongodb.go:59-76 | in every reachable state the limits hold and id 0 is not stored |
| InterleavingSafety.OtherScopesOnlyLoseIdle | internal/dbproxy/mongodb.go:59-82 | over any run of other scopes, a scope's entries change only by losing idle ones |
| InterleavingSafety.UnsuccessfulCallsKeepNothing | internal/dbproxy/mongodb.go:410-444 | a denied call, a failed call and a call answered with an upstream failure store or renew no entry |
| InterleavingSafety.AcknowledgedEndRemovesExactly | internal/dbproxy/mongodb.go:410-469 | in every run an acknowledged endSessions, between its reply and its answer, removed in one step exactly the scope's entries that were opened by commands whose `lsid` is one of the listed documents |
| ExecuteLoop.RunCall | internal/dbproxy/mongodb.go:326-469 | execute, run alone, ends as the step machine ends, with the same registry, and sends exactly the questions and then the command, in order |
| ExecuteLoop.LookAll | internal/dbproxy/mongodb.go:358-367 | the lookup loop |
| ExecuteLoop.Clear | internal/dbproxy/mongodb.go:368-391 | the masked check and the questions |
| ExecuteLoop.AskAll | internal/dbproxy/mongodb.go:381-391 | the loop over the namespaces; the first answer that is not a plain yes ends the call |
| ExecuteLoop.Exchange | internal/dbproxy/mongodb.go:392-468 | forwarding, and what the reply leads to |
| Settlement.Settle | internal/dbproxy/mongodb.go:414-467 | the loops after a reply perform the listed updates in order and stop where the registry is full |
| Settlement.SettledExactly | internal/dbproxy/mongodb.go:414-467 | key by key: the offered cursor is stored, idle entries are swept out with it, what the call gives up (unknown, replaced or reported gone) and the sessions it ended leave the scope, and nothing else changes |
| Settlement.GivenUpInWords | internal/dbproxy/mongodb.go:411-453 | which cursors a reply gives up, by the fields of the request and of the reply |
| ExecuteLoop.ActSteps | internal/dbproxy/mongodb.go:414-468 | the machine's steps after a reply perform the same updates |
| TunnelServer.Connection.Open | internal/dbproxy/mongodb.go:155-183 | the code before the loop: token, first hello, dialing, first reply |
| TunnelServer.Connection.Dial | internal/dbproxy/mongodb_auth.go:84-98 | dialing succeeds exactly for a backend that answers, speaks the wire version, belongs to the configured set and accepts the login |
| TunnelServer.Connection.Serve | internal/dbproxy/mongodb.go:188-323 | one round of the loop, on its variables in place, with its size limits before and after the login, is the transition function |
| TunnelServer.Connection.Sasl | internal/dbproxy/mongodb.go:223-294 | the SASL branch |
| TunnelServer.Connection.Start | internal/dbproxy/mongodb.go:239-275 | saslStart |
| TunnelServer.Connection.Continue | internal/dbproxy/mongodb.go:279-294 | the acknowledgement, or a step of the conversation |
| TunnelServerRuns.ExecutedOnlyAfterProof | internal/dbproxy/mongodb.go:217-318 | in every run the backend sees the proxy's own hello, or a command after the client proved the token in a transcript for the fixed user, this conversation's salt and nonce, and 4096 rounds |
| TunnelServerRuns.DialedOnceAndFirst | internal/dbproxy/mongodb.go:155-323 | in every run the backend is dialed at most once, before anything else, only for a tunnel with a token and an acceptable first hello; when it is not fit, the fixed refusal is all that happens |
| Greeting.TooLargeEnds | internal/dbproxy/mongodb.go:197-205 | a message is served exactly within a mebibyte before the login and 48,000,000 octets after it; a larger one ends the connection without an answer |
| Greeting.HowItBegins | internal/dbproxy/mongodb.go:116-183 | the backend is dialed exactly for a tunnel with a token and an acceptable first hello of at most a mebibyte, both in literal terms; the connection goes on exactly when that backend is usable and the answer arrived |
| Greeting.HelloTells | internal/dbproxy/mongodb.go:88-114 | every lookup in the answer to a hello: the fixed limits, the few facts taken from the backend, and nothing else |
| Greeting.WhenSaslSteps | internal/dbproxy/mongodb.go:223-294 | a SASL message makes the conversation step exactly when it is well formed in literal terms, nobody is logged in or waiting for the last acknowledgement, and it starts the one mechanism or names the conversation |
| Greeting.StatusTells | internal/dbproxy/mongodb.go:295-309 | the whole answer to connectionStatus: the fixed user exactly when logged in, no role, or the fixed refusal |
| TunnelServerRuns.NeverSteppedAfterCompletion | internal/dbproxy/mongodb.go:279-293 | a complete conversation is never stepped |
| TunnelServerRuns.SaslRepliesSayDone | internal/dbproxy/mongodb.go:223-294 | a SASL message gets exactly one reply: either one that says done exactly when the client is authenticated, or the fixed refusal and the end of the connection |
| TunnelServerRuns.ClosedIsFinal | internal/dbproxy/mongodb.go:188-323 | after the end nothing more happens |
| Login.ChooseMechanism | internal/dbproxy/mongodb_auth.go:157-181 | the configured mechanism, else SHA-256 before SHA-1 in whatever order they are offered; a malformed list fails |
| Login.Authenticate | internal/dbproxy/mongodb_auth.go:199-249 | the login loop sends the specified requests, at most three, and succeeds exactly when the client side does |
| Login.AnswersInWords | internal/dbproxy/mongodb_auth.go:209-228 | which answers count, with the literal fields and the mebibyte limit |
| LoginTheorems.ClientInsists | internal/dbproxy/mongodb_auth.go:199-249 | whatever the backend answers, the client is logged in only after an answer signed under its secret, in a transcript with its user, its own nonce in front and at least 4096 rounds |
| LoginTheorems.SuccessMeansAuthenticated | internal/dbproxy/mongodb_auth.go:209-249 | whatever is lost or drawn, the client never succeeds unless the tunnel has authenticated it |
| LoginTheorems.TokensDecide | internal/dbproxy/mongodb.go:223-294 | with equal prepared tokens both sides finish in exactly three exchanges; with different ones neither does, and both attempts are over after two |
| Store.SavedReloads | internal/dbproxy/store.go:92-124 | what is saved is what the next load gives, every switch included |
| Store.SavingMigrates | internal/dbproxy/store.go:92-124 | loading any file and saving it keeps every connection, drops the legacy switch, and leaves a connection off exactly when `enabled` was false, or absent with the legacy `disabled` true |
| Store.LeastFree | internal/dbproxy/store.go:297-301 | the least unused port at or above the base, at most the base plus the number of used ports |
| Store.AllocPort | internal/dbproxy/store.go:281-302 | the counting loop terminates with that port; a requested port is granted exactly when it is in range and free |
| Store.ConnStore.AddConn | internal/dbproxy/store.go:309-348 | the new file, or the old one unchanged |
| Store.ConnStore.RemoveConn | internal/dbproxy/store.go:409-422 | the new file, or the old one unchanged |
| Store.ConnStore.RegenToken | internal/dbproxy/store.go:353-377 | the new file, or the old one unchanged; the returned token is the stored one |
| Store.ConnStore.RegenTokenAll | internal/dbproxy/store.go:381-406 | all tokens replaced, each by a draw of its own, and nothing else, names sorted, or the old file unchanged |
| Store.NoSharedToken | internal/dbproxy/store.go:381-406 | after replacing all tokens no two connections share one, when no draw comes twice |
| Store.ConnStore.SetTunnel | internal/dbproxy/store.go:428-443 | the switch of one connection and nothing else |
| Store.ConnStore.SetTunnelAll | internal/dbproxy/store.go:447-470 | the switch of all, with the sorted names of those that changed |
| StoreTheorems.PortsAlwaysDistinct | internal/dbproxy/store.go:281-470 | after any sequence of operations on an empty store all ports are nonzero and pairwise distinct |
| StoreTheorems.AutomaticPort | internal/dbproxy/store.go:297-301 | an automatic port always exists, is the least one no other connection has, and is at most 15432 plus their number |
| StoreTheorems.WhenAdded | internal/dbproxy/store.go:309-348 | a connection is added exactly when its name is well formed, its URL is of a known kind, its port is granted in literal terms, a token is drawn and the file can be read and written; what it then holds |
| StoreTheorems.AutomaticPortInRange | internal/dbproxy/store.go:297-301 | it is at most 65535 exactly when one of the ports 15432 to 65535 is held by no other connection |
| PortExhaustion.PortsRunOut | internal/dbproxy/store.go:281-348 | a history of additions from the empty store that ends with port 65536, whose connection cannot be added again without a port |
| StoreTheorems.ReAddKeepsPort | internal/dbproxy/store.go:322-347 | adding a name again without a port succeeds exactly when its port is at most 65535, keeps the port, and leaves the others alone |
| StoreTheorems.EnabledWasSwitchedOn | internal/dbproxy/store.go:345-470 | a tunnel that is on was switched on explicitly since it was registered, and has been on ever since |
| Listener.Manager.Sync | internal/dbproxy/tunnel.go:59-104 | whatever the order of the maps: open sockets are exactly the active map, active names are enabled, kept listeners keep their port, and a name is left out only for an unavailable port |
| Listener.Manager.Visit | internal/dbproxy/tunnel.go:72-95 | one visit of a desired name |
| Listener.TwoSyncsReconcile | internal/dbproxy/tunnel.go:59-123 | after two syncs over a stable list of distinct free ports the active names are the enabled ones exactly when no enabled listener on a stale port stands in the way |
| Listener.NoStalePortReconciles | internal/dbproxy/tunnel.go:59-123 | without stale ports two syncs suffice, and every name listens on its own port |
| Listener.StalePortBlocks | internal/dbproxy/tunnel.go:59-104 | an enabled listener on an old port that another name should get: no two syncs open that name |
| Listener.OneSyncOpensNothing | internal/dbproxy/tunnel.go:72-103 | a sync that meets the leftover listener of a removed name leaves the new name of that port closed |
| Listener.OneSyncIsNotEnough | internal/dbproxy/tunnel.go:59-104 | Sync called twice, in whatever order it visits: the first call opens nothing, the second the new listener |
| Reconciliation.WellAssignedIff | internal/dbproxy/tunnel.go:59-123 | a store with distinct nonzero ports is well assigned exactly when its enabled ports exist and are held by no one else |
| Reconciliation.ReachableStoreReconciles | internal/dbproxy/tunnel.go:59-123 | for every store that a history reaches, two syncs give exactly the enabled listeners if and only if no stale port stands in the way |
| Reconciliation.FreshStartReconciles | internal/dbproxy/tunnel.go:59-123 | from a fresh start two syncs open every enabled connection on its own port and nothing else |
| Resp.Reader.ReadRespCommand | internal/dbproxy/redis.go:97-131 | the reading loop returns the arguments and leaves the reader right behind them |
| Resp.RespBulk | internal/dbproxy/redis.go:150-157 | the builder loop writes the command |
| Resp.RoundTrip | internal/dbproxy/redis.go:97-157 | what is written for any non-empty list of arguments, whatever octets they hold, is read back with exactly the trailing octets left; an empty list is refused |
| Resp.OneArgument | internal/dbproxy/redis.go:97-157 | a command of one short argument octet by octet, written and read |
| KvText.SplitSegments | internal/apollo/parser.go:120-145 | the two loops compute the segments |
| KvText.SegmentsAreLossless | internal/apollo/parser.go:120-145 | the segments of a non-empty line are non-empty, concatenate to the line, and each cut is at a capital right after a glue character |
| KvRoundTrip.CutBehindGlue | internal/apollo/parser.go:120-145 | two entries with any one octet between them are cut apart exactly behind a small letter, a digit, an underscore, a dot or a dash |
| KvRoundTrip.MatchOfSpaced | internal/apollo/parser.go:114-145 | between the key and the equals sign of a later entry one blank may stand, and which octets are blanks |
| Utf8.TrimmedIsSpace | internal/apollo/parser.go:53-79 | what trimming takes off either end is exactly one Unicode white space scalar value at a time |
| KvText.ParseLine | internal/apollo/parser.go:53-79 | entries and warnings of one line |
| KvText.ParseKV | internal/apollo/parser.go:48-81 | entries and numbered warnings of a text |
| KvRoundTrip.LineReads | internal/apollo/parser.go:101-112 | the line of an entry with a valid key parses to that key and the trimmed, unquoted value |
| KvRoundTrip.QuotedLineReads | internal/apollo/parser.go:84-112 | a key and a value in either kind of quotes are read as that key and what stands between the quotes, whatever it is, exactly when the key is well formed in literal terms |
| KvRoundTrip.ExportParsesBack | internal/app/snapshot.go:168-187 | exported text parses back to exactly the entries without a warning if and only if every entry is clean |
| KvRoundTrip.QuotesAreLost | internal/apollo/parser.go:91-112 | a quoted value is exported with its quotes and read back without them, and without a warning |
| Snapshot.SnapshotFile.Put | internal/apollo/store.go:131-158 | the classified item is stored, opens to its value, or nothing changes |
| Snapshot.WrittenItem | internal/apollo/store.go:131-158 | what writing an item does, in words: explicit class before existing class before detection, safe only by the explicit answer, sealed under the key of the class |
| Snapshot.WhoCanOpen | internal/apollo/store.go:197-210 | which keys open an item: either one for a sensitive item when the sensitive key is at hand, only the plain one for the others |
| Snapshot.SnapshotFile.Delete | internal/apollo/store.go:160-164 | exactly one key is removed |
| Snapshot.Diff | internal/apollo/store.go:226-280 | the comparison fails exactly when some item does not open; otherwise it reports every difference up to quotes exactly once, by strictly increasing key |
| Snapshot.ReportSays | internal/apollo/store.go:226-280 | what each entry says: the side without the key, the opened texts, secret when either side is, safe only when every side that has the key is |
| Snapshot.ReportIsUnique | internal/apollo/store.go:226-280 | there is only one such report |
| Snapshot.NothingDiffersFromItself | internal/apollo/store.go:226-280 | a snapshot does not differ from itself |
| Snapshot.DiffMirrors | internal/apollo/store.go:226-280 | the comparison the other way round is the mirror image, with the same flags |
| Snapshot.DiffPatches | internal/apollo/store.go:226-280 | applied as a patch the report turns the first snapshot's values into the second's, up to quotes |
| Snapshot.Export | internal/app/snapshot.go:168-187 | the sorted listing, or failure exactly when some item does not open |
| Snapshot.EditApply | internal/app/snapshot.go:197-216 | the text becomes the new snapshot; when nothing parses or a key is missing nothing is saved |
| Snapshot.EditKeepsValues | internal/app/snapshot.go:189-216 | setting the entries of the listing one after another gives clean entries their values, goes through exactly when the keys detection asks for are there, and drops explicit classification |
| Snapshot.EditUnchanged | internal/app/snapshot.go:168-216 | the two operations composed, for clean entries: loading as text and applying it unchanged succeeds exactly when the snapshot opens, is not empty, and the keys detection asks for are there; then every value stays, otherwise the whole snapshot does |

## Left out

- Sockets, deadlines, TLS, the limit of 128 connections and context cancellation: library and operating system effects; a failed read, write, dial or exchange is an input.
- AES-GCM, HMAC, SCRAM's hashing, MD5, CRC tables, SASLprep and random draws: symbolic or parameters, as said above; a SCRAM-SHA-1 login to a real server is not composed with the tunnel, which offers SHA-256 only.
- The parsing of SCRAM messages by the library: messages are values, with a faithful encoding as the stated assumption of `LoginTheorems.TokensDecide`.
- The driver's `Marshal` and element scanner: replaced by the project's own codec; values that the wire reader never produces (maps and raw documents) are not modelled.
- BsonTree.ValidateBSON: does not look at the inner length of the deprecated binary subtype 2, which the driver's own validation covers.
- TunnelServer.Connection.Dial: the backend's answer to the hello and the outcome of the login are inputs; the login itself is `Login.Authenticate`.
- Registry.TunnelState.Remember: reads the clock once per call, where the code reads it once per scanned entry.
- Resp.Reader.ReadRespCommand: an announced size beyond the input is a failed read; that allocating such a size may fail first is not modelled.
- KvText.SplitSegments: the leftmost matches of the regular expression are a function here, as the regular expression engine is a library.
- Snapshot.SnapshotFile.Put: time stamps, file names and the snapshot's metadata are not part of this model; loading and saving the file is one atomic step.
- Store.ConnStore.AddConn: writing the file either happens or not; a partly written file is not modelled.
- The PostgreSQL and MySQL tunnels, the connection test, MongoDB URL options, links, the command line, the user interface, the bridge, translations, the keyring and masking: dispatch, formatting and protocol libraries.
- The constant-time comparison of tunnel tokens, and the throttling of failed attempts in the user interface and the bridge.
