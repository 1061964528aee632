# Squillion in Dafny

Squillion is a broker for MQTT 3.1.1. This project models its three cores and proves what they are for:

* the **index of topics and its router**: a tree of hash maps that files subscriptions and retained messages, mirrored
  step by step into SQL tables and rebuilt from them;
* the **session worker**: queues, packet identifiers, dup marks and QoS 2 receipts in memory, mirrored into tables of
  its own, through clean sessions, reconnects and restarts;
* the **wire code**: variable-length integers, the packet cursor, topic validation, parsers and printers, and the
  framing of a byte stream.

Classes follow the source's structs and change their fields in place; each method is proved against a specification
function, and the theorems are about those functions. Check everything with

    dafny verify dfyconfig.toml --resource-limit 2000000 --verification-time-limit 0

## The main results

* Asking the tree answers what a flat map from filters to clients says, for every plain topic: the sessions with a
  matching filter, each with the QoS of its most specific one (`Matching`, `Topics`).
* After every subscribe, unsubscribe and retain that succeeds, tree, tables and gauges agree, a node has a topic row
  exactly while it is used, and every message row keeps exactly one owner; so reading the tables back, rows in any
  order, gives the same index. One that fails half-way still leaves tables the router can be started from
  (`TopicData`, `BrokerTables`, `Reload`, `IndexRuns`).
* Every copy of a publish, and every retained message answering a subscribe, is the message itself at the lower of its
  own QoS and the one granted; an unsubscribe takes exactly the named entries (`Router`).
* Sessions and router as asynchronous parties over queues: whatever the interleaving, no delivery a session accepts
  stems from a subscription made before its last clean session, and no left-over entry swallows a new subscription
  (`Generations`, `Deliveries`, `Router`).
* After every event a session survives, memory and tables are in step, even when a clean session failed half-way;
  whatever else fails, the tables carry the history of the session, and its next start goes on with it
  (`SessionData`, `Session`).
* What a client gets is said packet by packet: a delivery field by field, the SUBACK and the retained messages, the
  CONNACK and the replay, where a PUBREC is answered by its PUBREL (`Session`, `Story`).
* Over any number of starts, whatever goes wrong in them: all packets that went to clients and all publishes that went
  to the router are, one for one and in order, those of two histories, and event by event the histories are those of
  the events (`Story`; `Session.MQTTSession.RunLoop`, `Session.Lives`). So the next two are about packets and forwards:
* what is held under an identifier is what was issued under it or received for it and not answered since; no PUBLISH
  of the queue follows its PUBREC; when dup is set, and when it says what the standard asks; which identifiers are
  issued. The queue keeps its order within one start, and over several where its time stamps rise (`History`,
  `Outgoing`, `SessionData`);
* a QoS 2 publish of the client goes to the router once between releases of its identifier, exactly if no publish whose
  record failed comes again (`Incoming`).
* Router and sessions share the tables: however they take turns, fail, stop and start, all stay in order, with the
  histories they had; the calls of both are such turns (`Broker`).
* A byte stream decodes to the same messages and the same end however it is cut; it is waited for exactly while nothing
  can be decided, and never beyond the packet-size limit (`Codec.StepCases`); each parser accepts exactly the
  encodings of well-formed packets; what is printed comes back (`Codec` and the `Wire` modules).
* The validators end on every byte string; which texts they accept is stated exactly, with the characters they
  misjudge (`Validation`, `Grammar`).

## Where the code does something else than its documents

The model follows the code; a lemma says how far the two are apart.

* `#` does not stand for the parent level (section 4.7.1.2 of MQTT 3.1.1): `Matching.StandardGap`,
  `Matching.ParentLevelMissed`.
* Overlapping subscriptions give the QoS of the most specific filter, not the highest one (section 3.3.5); the two
  are the same exactly if no matching filter of the session asks for more than its most specific one:
  `Matching.HighestIff`, `Matching.OverlapNotHighest`.
* The character iterator of `src/messages/validation.rs` drops the bits of lead bytes, so some lawful names are refused
  and some unlawful filters accepted; which ones: `Grammar.NameText`, `Grammar.FilterText`, `Grammar.FilterJudged`, with
  the witnesses `Grammar.LawfulNameRefused` and `Grammar.UnlawfulFilterAccepted`.
* The printer of PUBLISH never writes dup: `PublishWire.PrintedFrame`, `Codec.RoundTrip`.
* The identifier counter wraps from 65535 to 0, as a release build does. Identifier 0, which section 2.3.1 forbids, is
  issued exactly when the number of identifiers drawn since the counter began is a multiple of 65536:
  `History.IssuedNumber`, `History.ZeroIssued`. Distinctness of the identifiers in flight does not depend on it:
  `Outgoing.RunWellFormed`.
* A PUBLISH goes to the client before its dup mark is stored. When the mark fails the session stops, and the next start
  sends the message again without dup (section 3.3.1.1); dup is right exactly where a send is on record if there was
  one: `History.DupExact`, `History.MarkFailed`, `SessionData.UnmarkedSentAgain`.
* A QoS 2 publish is forwarded before its identifier is stored. When the store fails the session stops; delivery is
  exactly once if and only if no publish whose store failed is received again before its release: `Incoming.OnceIff`,
  `Incoming.MissRepeats`, `Session.MissedPassRepeats`.
* A PUBREC deletes its PUBLISH before it is stored itself; when that store fails, neither is left:
  `Session.MQTTSession.ReplaceByPubRec`, the change `Lost` of `Outgoing`.
* The SUBACK holds the QoS asked for. It is not what is filed exactly if the session held the filter under another QoS
  and the update failed: `Story.CodeExact`, `Broker.CodeFiled`.
* Retained messages answering a SUBSCRIBE are sent as they are kept, not queued, under their publisher's identifier. One
  kept with QoS 1 and identifier 1 goes out while a PUBLISH of the session waits under 1, and one PUBACK then takes that
  away: `History.RetainedClash`. The identifiers sent above QoS 0 are those of the messages in flight exactly if each
  such answer has QoS 0 or an identifier that no other message of the queue has: `History.DistinguishedIff`,
  `Story.AnswerClashes`. What is proved about PUBLISH and PUBREC on the wire says so: `History.PacketAfterPubrec`.
* The queue is read back in the order of time stamps of one second, so entries stored within the same second may change
  places over a restart; where the stamps rise they do not: `SessionData.TieReorders`, `SessionData.OrderRestored`.
* `persist_retain` is not one transaction and can leave an orphan message row when it fails; marking dup looks its row
  up as a 16-bit number and can report an error although the mark is stored: `BrokerTables.PersistTopicSQL.PersistRetain`,
  `SessionTables.PersistSessionSQL.PersistOutDup`.
* A zero identifier is accepted in UNSUBSCRIBE and in the acknowledgements, any length in PINGREQ's own field outside
  a cut frame, anything at all in DISCONNECT, and any six bytes as protocol name: `SubscribeWire.UnsubscribeExact`,
  `AckWire.AckExact`, `AckWire.PingReqExact`, `Codec.ParseFrameExact`, `ConnectWire.ParseExact`.

## Files

| file | models |
|---|---|
| `Basics.dfy`, `Tables.dfy`, `Messages.dfy` | shared types, the database, the control packets |
| `Paths.dfy`, `Matching.dfy` | topics as levels, the lookup and its meaning |
| `TopicData.dfy`, `BrokerTables.dfy`, `Reload.dfy`, `IndexRuns.dfy` | the index as a map, its tables, reload, runs of operations |
| `Topics.dfy`, `Router.dfy` | the tree and the router's handlers |
| `Generations.dfy`, `Deliveries.dfy` | the protocol between sessions and router |
| `Outgoing.dfy`, `History.dfy`, `Incoming.dfy` | the outgoing queue within one start and over all, what was passed on |
| `Story.dfy` | what each event of a session adds to its histories, to the wire and to the router |
| `SessionTables.dfy`, `SessionData.dfy`, `Session.dfy` | the session's tables, their agreement with memory, the worker |
| `Broker.dfy` | router and all sessions over one set of tables |
| `Bits.dfy`, `Varint.dfy`, `Reader.dfy`, `Utf8.dfy` | bit operations, lengths, the cursor, UTF-8 |
| `Validation.dfy`, `Grammar.dfy` | the validators and the grammar they accept |
| `Packets.dfy`, `PublishWire.dfy`, `SubscribeWire.dfy`, `ConnectWire.dfy`, `AckWire.dfy` | parsers and printers |
| `Codec.dfy` | framing |

Strings are their UTF-8 bytes. A persistence call takes effect or fails without effect, unless said otherwise above;
which of the two, what the router answers and whether a client is still there is nondeterministic. The order of hash
maps and of rows without a sort key is left open.

## Model

| member | source | states |
|---|---|---|
| `Matching.MatchesAsFits` | src/broker/topics.rs:443-483 | Level-by-level matching (`+` one level, a final `#` one or more) is the same as fitting a prefix of the topic position by position |
| `Matching.FrontierExact` | src/broker/topics.rs:443-483 | After d levels of a topic without wildcard levels the frontier holds exactly the nodes whose path fits the first d levels, each once, `+` before the literal from the left |
| `Matching.HitsExact` | src/broker/topics.rs:450-480 | The nodes read during the whole walk are exactly the matching filters, each once, in order of rising specificity |
| `Matching.LookupCorrect` | src/broker/topics.rs:443-483 | On any prefix-closed index and any plain topic the collected answer is the flat one: a session is in it iff one of its filters matches, with the QoS of its most specific matching filter |
| `Matching.AnswerUnique` | src/broker/topics.rs:443-483 | Two indexes with the same clients on every path give the same answer, so blank nodes and the order of hash maps do not show |
| `Matching.PrecedesAsymmetric` | src/broker/topics.rs:458-478 | The specificity order never ranks two filters both ways |
| `Matching.SpecificBy` | src/broker/topics.rs:458-478 | What that order means: from the left, a level by name is read after "+", and deeper filters after those that end in "#" before |
| `Matching.OneDecides` | src/broker/topics.rs:458-478 | At most one filter decides the QoS of a session for a topic |
| `Matching.HighestIff` | src/broker/topics.rs:458-478 | A session found gets the highest QoS of its matching filters iff none of them asks for more than the most specific one |
| `Matching.StandardGap` | src/broker/topics.rs:452-481 | The filters section 4.7.1.2 of MQTT 3.1.1 wants matched but the broker does not are exactly those ending in `#` whose parent level fits the topic |
| `Matching.ParentLevelMissed` | src/broker/topics.rs:452-481 | Witness of that gap: `a/#` does not get what is published to `a` |
| `Matching.OverlapNotHighest` | src/broker/topics.rs:458-478 | The index with `#` at QoS 2 and `a` at QoS 0 answers `a` with QoS 0, which is not the highest |
| `Paths.JoinSplit` | src/broker/topics.rs:202-215 | Splitting a topic at `/` loses nothing |
| `Paths.SplitInjective` | src/broker/topics.rs:202-215 | Two topic strings never share a node |
| `Topics.Topic.SetSubscribed` | src/broker/topics.rs:508-513 | The client's entry is put in or replaced; the answer says whether it is new |
| `Topics.Topic.SetUnsubscribed` | src/broker/topics.rs:515-517 | The client's entry is gone; the answer says whether there was one |
| `Topics.Subscriptions.GetTopic` | src/broker/topics.rs:202-263 | The node of the topic, with a row id; nodes made on the way are blank, no other node changes, a failed row creation leaves the tables alone |
| `Topics.Subscriptions.MakeAncestors` | src/broker/topics.rs:202-229 | The first walk adds blank nodes for the missing levels but the last, and tells whether the last one needs a row |
| `Topics.Subscriptions.ObtainTopic` | src/broker/topics.rs:202-263 | On an index in order, only the obtained node may be left with a row but no use; the contents of the index are as before |
| `Topics.Subscriptions.Subscribe` | src/broker/topics.rs:287-329 | Index, tables and gauges move together: the new entry, a changed QoS or nothing, exactly as the answer says; a failure leaves the contents, and tables the router can be started from; the answer is at most 2, so the 0x80 branch is never taken |
| `Topics.Subscriptions.Resubscribe` | src/broker/topics.rs:293-314 | A session already there gets its new QoS; when storing it fails, the answer is the old QoS and neither index nor tables change |
| `Topics.Subscriptions.SubscribeNew` | src/broker/topics.rs:315-328 | A new entry is filed in tables and node, and counted |
| `Topics.Subscriptions.Unsubscribe` | src/broker/topics.rs:408-441 | The entry is gone, with its row; a node then unused loses its row and is blank; the gauge follows; when it fails half-way, the tables still mirror some index |
| `Topics.Subscriptions.Retain` | src/broker/topics.rs:343-377 | A non-empty message replaces what the topic kept, an empty one clears it and gives up an unused row; index, tables and gauge agree afterwards; when it fails half-way, an orphan message row included, the router can be started from the tables |
| `Topics.Subscriptions.GetRetainedMessages` | src/broker/topics.rs:379-398 | The message kept for exactly this topic, if any |
| `Topics.Subscriptions.GetSubscribed` | src/broker/topics.rs:443-483 | The loop over frontier and result map computes the flat answer for every plain topic |
| `Topics.Subscriptions.InsertTopic` | src/broker/topics.rs:166-200 | The node takes the contents of the item and keeps its children; missing levels become blank nodes |
| `Topics.Subscriptions.LoadPersistentState` | src/broker/topics.rs:113-156 | From any tables that mirror some index without dangling reference, those a failed call left included, rows in any order, an index is rebuilt that is in order and equals it up to generations and the message's flags and identifier; both gauges are right |
| `IndexRuns.MessageAfter` | src/broker/topics.rs:343-398 | After any sequence of subscribes, unsubscribes and retains a topic holds m iff m is its last retained publish and not empty |
| `IndexRuns.SubscriptionAfter` | src/broker/topics.rs:287-441 | After any such sequence a session holds a filter at QoS q iff its last word on the filter was a subscribe answered q |
| `TopicData.SubscribeAgree` | src/broker/topics.rs:315-328 | A subscription row and an index entry put in together keep index and tables in agreement |
| `TopicData.ResubscribeAgree` | src/broker/topics.rs:293-314 | Changing the QoS in both keeps them in agreement |
| `TopicData.UnsubscribeAgree` | src/broker/topics.rs:408-441 | Deleting the row and the entry keeps them in agreement |
| `TopicData.ClearRetainedAgree` | src/broker/topics.rs:350-361 | Deleting the retained row and the kept message keeps them in agreement |
| `TopicData.StoreRetainedAgree` | src/broker/topics.rs:355-361 | Storing a retained row and the message keeps them in agreement |
| `TopicData.DeleteTopicAgree` | src/broker/topics.rs:366-372 | Deleting an unused topic row and forgetting its id keeps them in agreement |
| `TopicData.SoundSubscribe` | src/broker/topics.rs:293-328 | With it every node has a row iff it is used, but for those a failed call left; references to message rows stay unique and none dangles |
| `TopicData.SoundUnsubscribe` | src/broker/topics.rs:408-441 | Removing an entry leaves at most its own node with a row but no use |
| `TopicData.SoundStore` | src/broker/topics.rs:350-361 | The same for a stored retained message |
| `TopicData.SoundClear` | src/broker/topics.rs:350-372 | The same for a cleared one |
| `TopicData.SoundDelete` | src/broker/topics.rs:366-372 | Deleting the row of an unused node restores that rows and use coincide |
| `TopicData.AgreeUnderSession` | src/sessions/persistsql.rs:191-617 | What sessions do to the shared tables never breaks the agreement of the index |
| `TopicData.OrphanLoadable` | src/broker/persistsql.rs:436-483 | The message row that a failed retain leaves behind does not keep the router from starting |
| `Reload.ReloadSound` | src/broker/topics.rs:113-156 | An index read back from tables is in order with respect to them |
| `Reload.ReloadSessions` | src/broker/topics.rs:113-156 | After a restart every topic is answered by the same sessions as before, each under its present generation, with the QoS of the most specific of its filters |
| `Reload.ReloadLookup` | src/broker/topics.rs:113-156 | The very same answer for every topic when all entries were of the current generation |
| `Reload.ReloadEntries` | src/broker/topics.rs:113-156 | Filter by filter the same sessions are filed after a restart, with the QoS they had and the generations of their rows |
| `Reload.ReloadRetained` | src/broker/topics.rs:113-156 | The same topics keep a message after a restart, with its topic, payload and QoS |
| `Reload.InsertsCommute` | src/broker/topics.rs:166-200 | Inserting two distinct topics gives the same index in either order |
| `Reload.RowsMakeClients` | src/broker/topics.rs:121-139 | The subscription rows of a topic, in any order, make exactly its clients |
| `BrokerTables.TopicConserved` | src/broker/persistsql.rs:290-316 | Inserting a topic row keeps message rows owned as they were, each by one reference and no orphan if there was none, and leaves sessions alone |
| `BrokerTables.DeleteTopicConserved` | src/broker/persistsql.rs:318-342 | So does deleting a topic row without retained message |
| `BrokerTables.RetainConserved` | src/broker/persistsql.rs:436-483 | So does storing a retained message under a topic row that has none |
| `BrokerTables.RetainNeedsClearedTopic` | src/broker/persistsql.rs:436-483 | And only then: a missing topic row or one with a retained id strands a message row |
| `BrokerTables.DeleteRetainConserved` | src/broker/persistsql.rs:485-548 | Deleting a retained message keeps ownership exact and touches no queued message |
| `BrokerTables.PersistTopicSQL.PersistTopic` | src/broker/persistsql.rs:290-316 | A fresh topic row, or no effect |
| `BrokerTables.PersistTopicSQL.PersistDeleteTopic` | src/broker/persistsql.rs:318-342 | The topic row gone, or no effect |
| `BrokerTables.PersistTopicSQL.PersistSubscribe` | src/broker/persistsql.rs:344-374 | A fresh subscription row, or no effect |
| `BrokerTables.PersistTopicSQL.PersistUpdateSubscribe` | src/broker/persistsql.rs:376-406 | The QoS of the session's row for the topic, or no effect |
| `BrokerTables.PersistTopicSQL.PersistUnsubscribe` | src/broker/persistsql.rs:408-434 | The session's rows for the topic gone, or no effect |
| `BrokerTables.PersistTopicSQL.PersistRetain` | src/broker/persistsql.rs:436-483 | Message row and reference, nothing, or an orphan message row: the two inserts are not one transaction |
| `BrokerTables.PersistTopicSQL.PersistDeleteRetain` | src/broker/persistsql.rs:485-548 | Reference and message row gone, or no effect |
| `BrokerTables.PersistTopicSQL.LoadPersistentTopics` | src/broker/persistsql.rs:142-186 | All topic rows, each once, in some order |
| `BrokerTables.PersistTopicSQL.LoadPersistentSubscriptions` | src/broker/persistsql.rs:235-288 | The subscription rows of the topic that join with a session, each once, in some order |
| `Generations.AlwaysSettled` | src/sessions/sessionworker.rs:814-940 | In every state of every interleaving of sessions and router: with the queue worked off, each entry of a session lies in its subscriptions and carries its generation |
| `Generations.QuietIndex` | src/sessions/sessionworker.rs:890-940 | So, with an empty queue, what is filed is wanted and current |
| `Generations.SubscribeMeetsOwn` | src/broker/topics.rs:295-314 | A subscribe the router turns to never meets an entry of another generation, so a re-subscribe with the same QoS is never swallowed by a forgotten one |
| `Generations.SettlesLoaded` | src/sessions/sessionworker.rs:226-276 | A restart that reads its subscriptions from the tables, while old unsubscribes are still queued, keeps this |
| `Generations.SubscribeActs` | src/sessions/sessionworker.rs:814-848 | What `Subscribe` sends and notes is a subscribe step of the protocol, whatever the others are at |
| `Generations.UnsubscribeActs` | src/sessions/sessionworker.rs:926-940 | What `Unsubscribe` sends and forgets is an unsubscribe step |
| `Generations.CleanActs` | src/sessions/sessionworker.rs:898-911 | What a clean session sends and changes is a clean step |
| `Generations.ReceiveActs` | src/sessions/sessionworker.rs:303-317 | Taking a delivery, or dropping it for its generation, is a receive step |
| `Deliveries.AcceptedSinceClean` | src/sessions/sessionworker.rs:306-316 | In every run, between a subscribe and a delivery accepted through its filter there is no clean session of that session |
| `Deliveries.HonestAccept` | src/sessions/sessionworker.rs:306-316 | A delivery whose tag equals the generation stems from a subscribe of that generation |
| `Router.MessageRouter.PublishMessage` | src/broker/router.rs:101-158 | A retained publish is stored first: its topic then keeps it, or nothing if it is empty, and no other topic or entry changes; then every identity found gets one copy, equal to the publish but for the QoS, which is the lower of its own and that of the deciding filter |
| `Router.MessageRouter.SubscribeMessage` | src/broker/router.rs:160-196 | The session is filed under the filter with the QoS answered, and no other entry or message changes; the answer holds the message kept at the topic, if any, at the lower of its QoS and the one answered, and the same in all else |
| `Router.MessageRouter.UnsubscribeMessage` | src/broker/router.rs:198-207 | The session's entries under each of the named topics are gone; no other entry and no message changes |
| `Router.FanOut` | src/broker/router.rs:110-158 | One copy per session found with an open inbox, equal to the publish but for the QoS, which is the lower of the two; others may have an inbox or get one |
| `Router.AnswerFansOut` | src/broker/router.rs:110-158 | Copies of a correct answer are deliveries through matching filters, most specific first, complete and without duplicates |
| `Router.ServedIsRouted` | src/broker/router.rs:110-158 | Each copy is a delivery in the sense of the generation protocol |
| `Generations.LoweredIs` | src/broker/router.rs:140-143 | A copy is the publish field by field, with the lower of the two QoS |
| `Router.SubscribedAt` | src/broker/router.rs:160-197 | A subscribe files the session at one topic with the QoS answered and touches nothing else in the index |
| `Router.RetainedAt` | src/broker/router.rs:101-105 | A retained publish replaces or clears the message of its topic and touches nothing else |
| `Router.UnsubscribedFrom` | src/broker/router.rs:198-207 | Unsubscribing takes the session's entries under exactly the named topics |
| `Outgoing.RunWellFormed` | src/sessions/sessionworker.rs:462-542 | After any run, wrapped identifier counter or not, the queue holds only PUBREC and QoS 1/2 PUBLISH entries with distinct identifiers |
| `Outgoing.RunOrdered` | src/sessions/sessionworker.rs:462-542 | After any run from any queue each entry stands in the order in which it was put at the end, those of the start first; it is the message issued or the PUBREC received then, and nothing took it away since |
| `Outgoing.ApplyWellFormed` | src/sessions/sessionworker.rs:462-542 | Every change of the queue the session makes keeps it well-formed and its identifier set exact |
| `Outgoing.ReplayStep` | src/sessions/sessionworker.rs:562-588 | One more entry replayed is its packet sent again and, if it is a PUBLISH, its dup mark |
| `Outgoing.HandingsPackets` | src/sessions/sessionworker.rs:562-588 | The packets of the changes a replay makes are the replay, one per entry in queue order |
| `Outgoing.ReplayIs` | src/sessions/sessionworker.rs:562-588 | A replay sends each queued PUBLISH as it is, and for each queued PUBREC the PUBREL of its identifier |
| `Outgoing.PacketOf` | src/sessions/sessionworker.rs:346-363 | Every packet that went to the client is that of one change of the history, in the order of the changes |
| `History.ApplyLook` | src/sessions/sessionworker.rs:418-542 | Each change of the queue is, identifier by identifier, the change its history makes |
| `History.FollowStep` | src/sessions/sessionworker.rs:418-542 | So queue and counter keep following the history of all starts, and the history stays lawful |
| `History.WaitingMeaning` | src/sessions/sessionworker.rs:462-542 | Over all starts: a PUBLISH is held under an identifier iff it was issued under it and neither answered, acknowledged, dropped nor forgotten since, and it is marked iff a mark came since |
| `History.AnsweredMeaning` | src/sessions/sessionworker.rs:485-528 | Over all starts: a PUBREC is held iff one was received and neither acknowledged nor forgotten since |
| `History.NoPublishAfterPubrec` | src/sessions/sessionworker.rs:485-588 | Over all starts: once PUBREC came, no PUBLISH goes out under the identifier, and none is issued under it, until it is acknowledged or forgotten |
| `History.PublishOnWire` | src/sessions/sessionworker.rs:562-622 | Every PUBLISH packet above QoS 0 is one that a change put there: the entry held under its identifier, or a retained message |
| `History.PublishedIs` | src/sessions/sessionworker.rs:562-622 | Such a packet holds what is held under its identifier at that moment, dup flag included, unless it is a retained message |
| `History.PacketAfterPubrec` | src/sessions/sessionworker.rs:485-588 | On the wire: after PUBREC and until it is acknowledged or forgotten, a PUBLISH above QoS 0 of the identifier can only be a retained message that clashes with it |
| `History.DistinguishedIff` | src/sessions/sessionworker.rs:797-801 | Over all starts: no PUBLISH packet above QoS 0 carries the identifier of another message in flight, iff no retained message is sent under the identifier of one |
| `History.RetainedClash` | src/sessions/sessionworker.rs:797-801 | Witness for retained answers: sent under the identifier of a queued PUBLISH, the acknowledgement of the one takes the other away |
| `History.DupMeaning` | src/sessions/sessionworker.rs:418-451 | Over all starts: a PUBLISH goes out with dup iff an earlier send of it was put on record; never on its first send |
| `History.DupExact` | src/sessions/sessionworker.rs:562-622 | So dup is set iff the message was sent before, exactly when some earlier send, if there was one, is on record |
| `History.DupTrue` | src/sessions/sessionworker.rs:562-622 | Where each first send since the issue was marked at once, dup is set iff the message was sent before |
| `History.MarkFailed` | src/sessions/sessionworker.rs:612-619 | Witness for the failing mark, any message of QoS 1 or 2: a lawful history in which it is sent twice without dup |
| `History.IssuedNumber` | src/sessions/sessionworker.rs:453-460 | The n-th identifier drawn since the counter began is n modulo 65536, so 0 is issued exactly at the multiples of 65536 |
| `History.ZeroIssued` | src/sessions/sessionworker.rs:453-483 | Witness: with each message acknowledged at once, the 65536th is issued under identifier 0 |
| `Incoming.OpenMeaning` | src/sessions/sessionworker.rs:544-560 | An identifier is on record iff it was passed on and that was neither missed nor released nor reset since |
| `Incoming.PassOnce` | src/sessions/sessionworker.rs:692-755 | Passing on a message keeps exactly-once iff no earlier pass of its identifier is unreleased |
| `Incoming.OtherReceipt` | src/sessions/sessionworker.rs:639-656 | A PUBREL or a clean session never breaks it |
| `Incoming.OnceIff` | src/sessions/sessionworker.rs:692-755 | Over all starts: QoS 2 is exactly once iff no message whose record failed is passed on again before its release |
| `Incoming.ForwardedOnce` | src/sessions/sessionworker.rs:692-755 | On what the router gets: where delivery is exactly once, two QoS 2 publishes of one identifier come with its release or a clean session between them |
| `Incoming.ForwardsBound` | src/sessions/sessionworker.rs:692-755 | On what the router gets, missed records or not: QoS 2 publishes of an identifier come at most once more often than it is released, reset or missed |
| `Incoming.NoneMissed` | src/sessions/sessionworker.rs:692-755 | So it is exactly once where every pass was put on record |
| `Incoming.MissRepeats` | src/sessions/sessionworker.rs:725-745 | After a pass whose record failed the identifier is not on record, and passing the message on again is lawful and breaks exactly-once |
| `SessionTables.PersistSessionSQL.PersistSession` | src/sessions/persistsql.rs:37-111 | The row of the name with what it holds, or a fresh one marked clean, or no effect |
| `SessionTables.PersistSessionSQL.LoadPersistentSubscriptions` | src/sessions/persistsql.rs:113-155 | The topics of the session's subscription rows |
| `SessionTables.PersistSessionSQL.PersistUpdateGeneration` | src/sessions/persistsql.rs:157-189 | New generation and identifier counter 1, or no effect |
| `SessionTables.PersistSessionSQL.PersistUpdateMid` | src/sessions/persistsql.rs:585-617 | The identifier counter, or no effect |
| `SessionTables.PersistSessionSQL.PersistIncomingStore` | src/sessions/persistsql.rs:191-225 | A fresh row for the identifier, or no effect |
| `SessionTables.PersistSessionSQL.PersistIncomingDelete` | src/sessions/persistsql.rs:227-255 | All rows of the identifier gone, or no effect |
| `SessionTables.PersistSessionSQL.PersistIncomingClear` | src/sessions/persistsql.rs:257-280 | All rows of the session gone, or no effect |
| `SessionTables.PersistSessionSQL.PersistIncomingLoad` | src/sessions/persistsql.rs:282-323 | The identifiers stored |
| `SessionTables.PersistSessionSQL.PersistOutStore` | src/sessions/persistsql.rs:325-402 | A queue row with the time it was made, and a message row for a PUBLISH, or no effect |
| `SessionTables.PersistSessionSQL.PersistOutDelete` | src/sessions/persistsql.rs:404-469 | The queue rows of the identifier and the message of the first one gone, or no effect |
| `SessionTables.PersistSessionSQL.PersistOutDup` | src/sessions/persistsql.rs:471-505 | dup set on the rows; an error may be reported although it was |
| `SessionTables.PersistSessionSQL.PersistOutClear` | src/sessions/persistsql.rs:507-583 | All queue rows and their messages gone, or no effect |
| `SessionTables.PersistSessionSQL.PersistOutLoad` | src/sessions/persistsql.rs:619-720 | The entries of all queue rows, each once, in the order of their times |
| `SessionData.StoreAgree` | src/sessions/sessionworker.rs:462-529 | Storing an entry with an identifier not in the queue keeps queue and rows in agreement |
| `SessionData.DeleteAgree` | src/sessions/sessionworker.rs:531-542 | Deleting an entry in both keeps them in agreement |
| `SessionData.DupAgree` | src/sessions/sessionworker.rs:418-451 | Marking dup in both keeps them in agreement |
| `SessionData.StoreConserved` | src/sessions/persistsql.rs:325-402 | Storing keeps every message row owned as it was and everybody else's rows as they are |
| `SessionData.DeleteConserved` | src/sessions/persistsql.rs:404-469 | So does deleting, because an identifier has at most one row |
| `SessionData.ClearConserved` | src/sessions/persistsql.rs:507-583 | So does clearing |
| `SessionData.LoadAgree` | src/sessions/persistsql.rs:619-720 | What is read back agrees with the rows, whatever their order |
| `SessionData.SameRowsSameQueue` | src/sessions/persistsql.rs:619-720 | Two queues that agree with the same rows have the same entries in topic, payload, QoS, identifier and dup, up to order and retain flag |
| `SessionData.AgreeRecorded` | src/sessions/persistsql.rs:325-583 | A queue that follows its history and agrees with the rows has history and counter on record in them |
| `SessionData.LoadFollows` | src/sessions/persistsql.rs:619-720 | What is read back follows the history on record, so histories go on over a restart |
| `SessionData.OrderRestored` | src/sessions/persistsql.rs:619-720 | If the times of the rows rise strictly along the queue, a restart restores it in its order, field by field but for the retain flag |
| `SessionData.StoreTimed` | src/sessions/persistsql.rs:325-402 | Storing with a later time than all before keeps them rising |
| `SessionData.TieReorders` | src/sessions/persistsql.rs:629-633 | Two neighbours stored at the same time may come back in either order |
| `SessionData.UnmarkedSentAgain` | src/sessions/sessionworker.rs:418-451 | A PUBLISH sent whose mark is not in the tables is sent without dup again by whoever starts next |
| `SessionData.RestartRestores` | src/sessions/sessionworker.rs:226-276 | A session dropped while in step and started again has the same generation, counter, open identifiers, and entries, field by field but for the retain flag |
| `SessionData.ReceiveInStep` | src/sessions/sessionworker.rs:544-549 | Memory and tables stay in step over a stored receipt |
| `SessionData.ReleaseInStep` | src/sessions/sessionworker.rs:555-560 | And over a released one |
| `SessionData.ResetInStep` | src/sessions/sessionworker.rs:890-896 | And over a cleared set |
| `SessionData.StoreInStep` | src/sessions/sessionworker.rs:462-529 | And over a stored entry |
| `SessionData.DeleteInStep` | src/sessions/sessionworker.rs:531-542 | And over a deleted one |
| `SessionData.DupInStep` | src/sessions/sessionworker.rs:418-451 | And over a dup mark |
| `SessionData.GenerationInStep` | src/sessions/sessionworker.rs:898-911 | And over a new generation |
| `SessionData.NewInStep` | src/sessions/persistsql.rs:83-111 | A fresh session row is in step with an empty memory |
| `SessionData.InStepUnderOther` | src/sessions/persistsql.rs:191-617 | Another session's writes leave a session in step |
| `SessionData.InStepUnderRouter` | src/broker/persistsql.rs:290-548 | So do the router's, failed ones included |
| `SessionData.RecordSame` | src/sessions/persistsql.rs:191-617 | What is on record of a session, running or not, stays on record under the writes of others |
| `Session.MQTTSession.QosOutgoingNextMid` | src/sessions/sessionworker.rs:453-460 | The counter's value is drawn and its successor modulo 65536 stored; memory, tables and history stay in step |
| `Session.MQTTSession.QosOutgoingInsert` | src/sessions/sessionworker.rs:462-529 | A PUBLISH is queued under the next identifier; it is refused if that is in flight, and as a duplicate only then; a PUBREC takes the place of its PUBLISH at the end of the queue, or is there already |
| `Session.MQTTSession.QosOutgoingRemove` | src/sessions/sessionworker.rs:531-542 | The entry of the identifier is gone from queue, set and tables |
| `Session.MQTTSession.QosOutgoingSetDup` | src/sessions/sessionworker.rs:418-451 | The queued PUBLISH is marked in memory, tables and history, also when the update is made and an error reported; not being found or not being stored cannot happen |
| `Session.MQTTSession.QosOutgoingMessagePosition` | src/sessions/sessionworker.rs:406-416 | The position of the entry with the identifier, if it is in flight |
| `Session.MQTTSession.Resend` | src/sessions/sessionworker.rs:562-588 | One entry is sent again, a PUBLISH as it is queued and a PUBREC by its PUBREL, and marked if it was not; if only the mark fails, the packet is out and history and tables say so, marked or not; a lost client changes nothing |
| `Session.MQTTSession.QosIncomingStore` | src/sessions/sessionworker.rs:544-549 | What was just passed on is on record in memory and tables, or the miss is part of the history |
| `Session.MQTTSession.QosIncomingRemove` | src/sessions/sessionworker.rs:555-560 | The identifier is released in memory, tables and history |
| `Session.MQTTSession.SendQueuedMessages` | src/sessions/sessionworker.rs:562-588 | One packet per entry in queue order, the PUBLISH as it is queued, for a PUBREC the PUBREL of its identifier, and a mark on each PUBLISH sent for the first time; a lost client stops it after some prefix with all in step; a failing mark stops it right after the packet of its entry, which stays in the history |
| `Session.MQTTSession.InternalPublishMessage` | src/sessions/sessionworker.rs:590-622 | A connected client gets topic, payload, QoS and retain flag of the delivery without dup, under the identifier drawn for it if its QoS is 1 or 2 and under its own otherwise; the queue gains exactly that at its end for QoS 1 and 2, marked once it is out; if it is given up over, it stopped before it was queued, or after it went out, and then packet and history say so |
| `Session.MQTTSession.HandOut` | src/sessions/sessionworker.rs:612-619 | The second half of a delivery: with no client nothing goes out; a mark that fails leaves the packet sent and in the history |
| `Session.MQTTSession.PubackMessage` | src/sessions/sessionworker.rs:624-637 | The entry is acknowledged |
| `Session.MQTTSession.PubrelMessage` | src/sessions/sessionworker.rs:639-656 | The identifier is released and PUBCOMP sent |
| `Session.MQTTSession.PubrecMessage` | src/sessions/sessionworker.rs:658-675 | The queue turns to PUBREC and PUBREL is sent |
| `Session.MQTTSession.PubcompMessage` | src/sessions/sessionworker.rs:677-690 | The entry is acknowledged |
| `Session.MQTTSession.PublishMessage` | src/sessions/sessionworker.rs:692-755 | A QoS 2 identifier on record is only answered again; otherwise the message goes to the router once, without dup, and its QoS 2 identifier is recorded; a client still there gets PUBACK for QoS 1, PUBREC for QoS 2 and nothing for QoS 0; given up over, it was not forwarded, or forwarded once and its record missed |
| `Session.MQTTSession.Subscribe` | src/sessions/sessionworker.rs:814-848 | The filter is noted and sent to the router under the present identity, a subscribe step of the asynchronous protocol; the answer is awaited |
| `Session.MQTTSession.SubscribeMessage` | src/sessions/sessionworker.rs:757-812 | Each filter is noted and sent to the router in turn with the QoS asked for; the SUBACK holds for each that QoS, or 0x80 where the router failed or refused; then the retained messages of the answers follow one by one, up to the packet at which the client is lost, if it is; the answer goes out even if the router failed |
| `Story.RetainedMeaning` | src/sessions/sessionworker.rs:767-795 | The retained messages sent are those of the answers not refused, answer after answer, none left out and none in between |
| `Story.ThroughMeaning` | src/sessions/sessionworker.rs:767-795 | When the router failed for some filters, the subscribes it got are exactly those of the others |
| `Story.AnswerClashes` | src/sessions/sessionworker.rs:797-801 | A retained message of an answer goes out under the identifier of another message in flight iff it is kept above QoS 0 and its identifier is that of another message in the queue |
| `Session.MQTTSession.UnsubscribeMessage` | src/sessions/sessionworker.rs:850-867 | Exactly the topics of the packet leave the subscriptions, and the router gets one message that names exactly them under the present identity; UNSUBACK is sent |
| `Session.MQTTSession.Unsubscribe` | src/sessions/sessionworker.rs:926-940 | The topics leave the session and go to the router in one message, an unsubscribe step of the asynchronous protocol |
| `Session.MQTTSession.CleanSession` | src/sessions/sessionworker.rs:890-911 | All is forgotten, all subscriptions are cancelled under the old generation and the next one begins, a clean step of the asynchronous protocol; failing with a queue left, memory and tables are in step |
| `Session.MQTTSession.NewClientConnected` | src/sessions/sessionworker.rs:365-404 | Whatever is survived, a client lost on the way included: the queue was emptied or kept as asked, the client before got its DISCONNECT or was lost, the new one got its CONNACK and the first k entries of the queue, and these are marked; a connect that succeeds sends the accepting CONNACK, with the session bit, and all that is queued; given up over, a prefix of that was sent |
| `Story.ConnectPackets` | src/sessions/sessionworker.rs:365-404 | On the wire, any survived connect is DISCONNECT if the client before still took it, CONNACK with its code if the new one took it, and the replay of the first k entries |
| `Session.MQTTSession.InitPersistSession` | src/sessions/sessionworker.rs:226-276 | From tables a session of the name can be started from, memory comes up in step with them and with both histories, with the subscriptions stored; a failed start changes nothing |
| `Session.MQTTSession.HandleEvent` | src/sessions/sessionworker.rs:300-345 | Each event survived, a lost client included, has exactly the packets, router messages, receipts and queue changes of its kind; given up over, a stated part of them; a delivery counts only under the own generation, a receive step of the asynchronous protocol; packets and forwards are those of both histories, and the tables carry these in any case |
| `Session.MQTTSession.ClientMessage` | src/sessions/sessionworker.rs:318-336 | Each client message has the answer, the router messages and the histories of its kind, also when the client is lost over the answer; given up over, it has the part that came before the failure |
| `Session.MQTTSession.RunLoop` | src/sessions/sessionworker.rs:278-363 | Over any sequence of events: event by event the packets, forwards and histories are those of the event, the last and failing one included; all that went to clients and to the router is what the histories say; memory and tables are in step while it runs, every first send is on record, and however it ends the tables carry both histories |
| `Session.DurableResumable` | src/sessions/sessionworker.rs:226-276 | A session that gave up, whatever failed, can be started again with the same histories |
| `Session.Lives` | src/sessions/mod.rs:99-184 | Over any number of starts on the same tables, whatever fails in them: the packets and forwards of all starts are those of the histories, these are lawful and orderly and made of the lives led, a QoS 2 identifier is forwarded at most once more often than it is released, reset or missed, and the next start can be made |
| `Session.FreshResumable` | src/sessions/persistsql.rs:94-111 | A name without a row can be started with empty histories |
| `Session.MissedPassRepeats` | src/sessions/sessionworker.rs:725-745 | Witness for the failing store: from tables in step, after a pass that is not on record, every memory started from them lacks the identifier, and passing the message on again breaks exactly-once |
| `Story.StepUnbroken` | src/sessions/sessionworker.rs:562-622 | After every event survived, each send of an unmarked PUBLISH is followed by its mark |
| `Story.CodeExact` | src/sessions/sessionworker.rs:767-795 | A SUBACK code is what the router answered iff that is the QoS asked for or 0x80 |
| `Broker.CodeFiled` | src/broker/topics.rs:293-328 | The SUBACK code differs from the QoS filed iff the session held the filter under another QoS and the update failed; then the index is as before |
| `Broker.LoadedAreFiled` | src/sessions/persistsql.rs:113-155 | The subscriptions a session reads back are exactly the filters under which the index files it |
| `Broker.SessionKeeps` | src/broker/mod.rs:176-248 | One session's step keeps the index and every other session in order |
| `Broker.RouterKeeps` | src/broker/router.rs:101-207 | A router's step, failed or not, keeps every session in order |
| `Broker.RunInOrder` | src/broker/mod.rs:176-248 | However router and sessions take turns, fail, stop and start on one set of tables, all stay in order: the index mirrors the tables or can be loaded, each session agrees with its rows and both its histories, which go on from those it had before the run |
| `Broker.RunConserved` | src/broker/mod.rs:176-248 | In such a run every message row keeps exactly one owner from first to last, if the router steps leave none behind |
| `Broker.SessionTurn` | src/sessions/sessionworker.rs:300-345 | An event of a running session, survived or given up over, is a step of such a run |
| `Broker.SessionStart` | src/sessions/sessionworker.rs:226-276 | So is a start, of a new name or from its rows, with the histories it had |
| `Broker.RouterTurn` | src/broker/router.rs:101-207 | So is a message to the router, served or failed over; only a publish that fails can leave a message row behind |
| `Broker.EmptyInOrder` | src/broker/mod.rs:208-232 | An empty database is in order, so every run from one is |
| `Varint.EncodeDecode` | src/messages/length.rs:16-58 | The shortest form of n reads back as n and its size, whatever follows |
| `Varint.EncodePrefix` | src/messages/length.rs:16-36 | On each proper prefix of it more bytes are waited for |
| `Varint.EncodeShortest` | src/messages/length.rs:38-58 | No accepted form of a value is shorter, and k bytes hold less than 128 to the k |
| `Varint.EncodeSize` | src/messages/length.rs:1-58 | Four bytes suffice exactly up to 268435455 |
| `Varint.EncodeDigits` | src/messages/length.rs:38-58 | The bytes of a number are its digits to the base of 128, lowest first, with the high bit on all but the last |
| `Varint.DecodeOpen` | src/messages/length.rs:16-36 | More bytes are waited for iff there are fewer than four and all continue; four that continue are refused |
| `Varint.DecodeStable` | src/messages/length.rs:16-36 | A decision is final when more bytes arrive |
| `Varint.Accumulate` | src/messages/length.rs:28 | Or-ing in the shifted next seven bits is adding them |
| `Varint.EncodeLength` | src/messages/length.rs:38-58 | The loop writes the shortest form |
| `Varint.ReadSizeCheck` | src/messages/length.rs:16-36 | The loop decodes at most four bytes: value and size, more bytes needed, or too long |
| `Varint.ReadSize` | src/messages/length.rs:3-14 | The unchecked loop agrees with it wherever the integer ends |
| `Reader.Reader.ReadU8` | src/messages/reader.rs:38-43 | The first unread byte, or an error at the end |
| `Reader.Reader.ReadU16` | src/messages/reader.rs:46-52 | The big-endian number of the next two bytes |
| `Reader.Reader.ReadBytes` | src/messages/reader.rs:55-60 | The next n bytes, never more than there are |
| `Reader.Reader.ReadMqttStringPrefixed` | src/messages/reader.rs:64-74 | The valid UTF-8 string behind its length |
| `Reader.Reader.ReadVarint` | src/messages/reader.rs:78-99 | The variable-length integer at the cursor with its size |
| `Reader.Reader.Skip` | src/messages/reader.rs:102-106 | n bytes passed over |
| `Reader.Reader.ExpectEnd` | src/messages/reader.rs:110-116 | Succeeds iff nothing is unread |
| `Reader.VarintReadersAgree` | src/messages/reader.rs:78-99 | On every byte string the cursor accepts (n, k) exactly when the framing layer does |
| `Reader.U16Exact` | src/messages/reader.rs:46-52 | Reading two bytes and writing them are inverse |
| `Reader.U16Order` | src/messages/reader.rs:46-52 | The high byte of a 16-bit number comes first |
| `Reader.PrefixedExact` | src/messages/reader.rs:46-60 | So are reading and writing length-prefixed bytes |
| `Utf8.ValidExact` | src/messages/reader.rs:64-68 | The strings `String::from_utf8` takes are exactly the encodings of texts, one each |
| `Utf8.DecodeEncode` | src/messages/reader.rs:64-68 | Decoding an encoded text gives it back |
| `Utf8.EncodeDecode` | src/messages/reader.rs:64-68 | Encoding what was decoded gives the bytes back |
| `Validation.UTF8Iterator.Next` | src/messages/validation.rs:20-60 | The value and advance of one step, on all bytes: without the lead byte's bits, and value 0 where it stands still |
| `Validation.CheckClientId` | src/messages/validation.rs:67-82 | Ends on every byte string; accepts up to 65535 bytes with no zero yielded |
| `Validation.CheckPublishTopic` | src/messages/validation.rs:84-107 | Ends on every byte string; accepts 1 to 65535 bytes with no zero, `+` or `#` yielded |
| `Validation.CheckTopicFilter` | src/messages/validation.rs:109-143 | Ends on every byte string; accepts 1 to 65535 bytes whose yields scan as a filter |
| `Grammar.AcceptedNamePlain` | src/messages/validation.rs:84-107 | Whatever the bytes, an accepted topic name holds no NUL, `+` or `#`, so no level is a wildcard and the index may be asked |
| `Grammar.NameAscii` | src/messages/validation.rs:84-107 | Over ASCII exactly the names of section 4.7.3 of MQTT 3.1.1 are accepted |
| `Grammar.FilterAscii` | src/messages/validation.rs:109-143 | Over ASCII a filter is accepted iff it has 1 to 65535 bytes, no NUL, and each level is `+`, a final `#`, or free of both characters |
| `Grammar.NameText` | src/messages/validation.rs:20-107 | Over every text: accepted iff lawful and without a character beyond ASCII whose low bits read as NUL, `+` or `#` |
| `Grammar.ClientText` | src/messages/validation.rs:20-82 | The same for client identifiers and NUL |
| `Grammar.FilterText` | src/messages/validation.rs:20-143 | Filters are judged as if each character were the one its low bits spell; without such characters the scan is that of the text itself |
| `Grammar.FilterLevels` | src/messages/validation.rs:20-143 | A text none of whose characters is taken for another is accepted iff it is a filter by the standard: not empty, not too long, no NUL, each `+` alone in its level, `#` alone in the last |
| `Grammar.FilterJudged` | src/messages/validation.rs:20-143 | Any text is judged as the standard says iff its size is refused anyway, or the characters it is taken for pass the scan exactly if its own do |
| `Grammar.LawfulNameRefused` | src/messages/validation.rs:26-34 | Witness: the name U+00AB is refused |
| `Grammar.UnlawfulFilterAccepted` | src/messages/validation.rs:26-34 | Witness: U+00AF followed by `+` is accepted |
| `PublishWire.FromBytes` | src/messages/mod.rs:190-240 | The parser, in the source's order of checks |
| `PublishWire.ParseExact` | src/messages/mod.rs:190-240 | On every buffer m is parsed iff m is well-formed and the buffer is an encoding of it: flags, length and body |
| `PublishWire.CutFrameLength` | src/messages/mod.rs:233-239 | In a buffer cut to its announced length, underflow and trailing bytes cannot be the error |
| `PublishWire.ToBytes` | src/messages/mod.rs:243-281 | The printer, dup never written |
| `PublishWire.HeaderValue` | src/messages/mod.rs:247-256 | Its first byte is type, QoS and retain, for every QoS up to 2 |
| `PublishWire.FlagBits` | src/messages/mod.rs:190-212 | Bit 3 is dup, bits 2 and 1 are the QoS, bit 0 is retain |
| `PublishWire.PrintedFrame` | src/messages/mod.rs:243-281 | A well-formed message is printed as its own encoding without dup |
| `SubscribeWire.SubscribeFromBytes` | src/messages/mod.rs:305-349 | The parser with its loop, which ends because each round reads bytes |
| `SubscribeWire.RequestsExact` | src/messages/mod.rs:325-342 | A payload parses to a list iff it is exactly the encoding of that list and every item is lawful |
| `SubscribeWire.SubscribeExact` | src/messages/mod.rs:305-349 | On every buffer (id, list) is parsed iff id is not 0, the list is not empty, and the buffer encodes it |
| `SubscribeWire.UnsubscribeFromBytes` | src/messages/mod.rs:467-501 | The same parser for filters alone; a zero identifier passes |
| `SubscribeWire.FiltersExact` | src/messages/mod.rs:483-494 | A payload parses to a list iff it is exactly its encoding |
| `SubscribeWire.UnsubscribeExact` | src/messages/mod.rs:467-501 | On every buffer (id, list) is parsed iff the list is not empty, lawful, and the buffer encodes it |
| `ConnectWire.FromBytes` | src/messages/mod.rs:607-682 | The parser, in the source's order of checks |
| `ConnectWire.WillExact` | src/messages/mod.rs:645-669 | The will is parsed iff flags and bytes are those of a lawful will, or of none |
| `ConnectWire.FlagsExact` | src/messages/mod.rs:625-630 | The flag byte and the fields it stands for determine each other |
| `ConnectWire.FlagBits` | src/messages/mod.rs:607-630 | Which bit of the connect flags says what |
| `ConnectWire.PayloadExact` | src/messages/mod.rs:635-681 | The payload is parsed iff it is exactly the encoding of client, will, user name and password |
| `ConnectWire.ParseExact` | src/messages/mod.rs:607-682 | On every buffer c is parsed iff c is well-formed and the buffer encodes it after any six bytes of protocol name |
| `AckWire.AckFromBytes` | src/messages/mod.rs:703-718 | The parser of the four acknowledgements |
| `AckWire.AckExact` | src/messages/mod.rs:703-862 | An identifier is parsed iff the packet has the flags, the length 2 and just its two bytes |
| `AckWire.AckToBytes` | src/messages/mod.rs:817-827 | The printer of the four acknowledgements and of UNSUBACK |
| `AckWire.SubAckToBytes` | src/messages/mod.rs:375-394 | Identifier, then one code per filter, behind their length |
| `AckWire.ConnAckToBytes` | src/messages/mod.rs:104-118 | Session-present bit and return code |
| `AckWire.ConnAckBytes` | src/messages/mod.rs:104-118 | A client reads the session bit and the return code of table 3.1 off the four bytes of a CONNACK |
| `AckWire.SubAckBytes` | src/messages/mod.rs:375-394 | A client reads the length, the identifier and all codes off a SUBACK |
| `AckWire.AckBytes` | src/messages/mod.rs:817-827 | The bytes of the acknowledgements of one identifier and of PINGRESP |
| `AckWire.PingReqFromBytes` | src/messages/mod.rs:420-433 | The parser |
| `AckWire.PingReqExact` | src/messages/mod.rs:420-433 | Accepted iff the flags are 0 and nothing follows the length |
| `AckWire.PingRespToBytes` | src/messages/mod.rs:405-410 | The two bytes |
| `Codec.MqttCodec.Decode` | src/messages/codec.rs:105-203 | One call is one step on the buffer: it waits exactly as long as it must and never on more than the limit and a fixed header, refuses every packet over the limit, and takes out exactly the packet it decodes |
| `Codec.MqttCodec.Encode` | src/messages/codec.rs:71-98 | The printed packet appended, nothing for the packets only clients send |
| `Codec.ParseFrameExact` | src/messages/codec.rs:175-202 | A frame yields a message iff it is an encoding of it |
| `Codec.StepExact` | src/messages/codec.rs:105-203 | A call yields (msg, n) iff the first n bytes are one frame within the limit that encodes msg |
| `Codec.StepCases` | src/messages/codec.rs:104-139 | All that a step can be, exactly: more bytes are waited for iff the length field is undecided or is within the limit and its packet not complete, so never on more than the limit and a fixed header; a length field of four continuing bytes and a length over the limit are refused at once; any other failure is a complete packet that says nothing |
| `Codec.StepOf` | src/messages/codec.rs:105-173 | A decoded message takes between two bytes and all of the data, a failure no more than is there, and more bytes are waited for only below the limit and a fixed header |
| `Codec.StepStable` | src/messages/codec.rs:105-203 | A message or an error is final when bytes are appended |
| `Codec.ProtocolLimitIdle` | src/messages/codec.rs:151-161 | The check against the protocol's own limit never fires |
| `Codec.PublishLengthFits` | src/messages/codec.rs:173-194 | PUBLISH is never refused for its length in frames cut here |
| `Codec.DecodedFitsRouter` | src/messages/codec.rs:175-202 | Decoded topics and QoS meet what the router asks of its callers |
| `Codec.DrainAppend` | src/messages/codec.rs:105-203 | Decoding a stream is decoding its front and going on with what is left |
| `Codec.ChunkingIrrelevant` | src/messages/codec.rs:105-203 | However a stream is cut into chunks, the same messages and the same end come out |
| `Codec.RoundTrip` | src/messages/codec.rs:71-203 | PUBLISH and the acknowledgements within the limits decode from their own bytes, leaving the rest; only dup is lost |
| `Codec.PrintedBytes` | src/messages/codec.rs:71-99 | The bytes of everything the broker sends besides PUBLISH, and that nothing else is sent |
| `Codec.StreamRoundTrip` | src/messages/codec.rs:71-203 | A whole sequence of them comes through any chunking complete and in order |

## Left out

- Session.MQTTSession.InitPersistSession: the queue comes back without retain flags, which the rows do not hold, and in the order of the rows' times; the clock gives any times, so that order is the queue's only under the condition of `SessionData.OrderRestored`.
- Topics.Subscriptions.LoadPersistentState: retained messages come back without identifier, dup and retain flag, which the tables do not hold.
- Session.MQTTSession.RunLoop: has the tables to itself while it runs; that sessions and router may take turns between events is `Broker.RunInOrder`, whose steps are `Broker.SessionTurn`, `Broker.SessionStart` and `Broker.RouterTurn`.
- Session.Lives: the starts of one session follow each other; `get_session` and the channels to a running one are not part of this model.
- Session.MQTTSession.Subscribe: the router's answer is any answer; `Router.MessageRouter.SubscribeMessage` says which one it gives.
- Router.MessageRouter.PublishMessage: a session without an open inbox may be started for a delivery above QoS 0 or not; starting sessions (`src/sessions/mod.rs`) is not part of this model.
- Generations.AlwaysSettled: the router stays up, and a session does not stop while it waits for a subscribe answer; for the loss of the router with its queue only the tables are covered (`Broker.RunInOrder`).
- ConnectWire.ParseExact: an absent user name or password is `None`; the program keeps an empty string for both.
- Codec.ChunkingIrrelevant: for one packet-size limit; the program raises it once, after authentication.
- Codec.MqttCodec.Decode: reserving buffer space has no effect in the model, and a message whose parsing failed is dropped with what was assigned to it.
- Topics.Subscriptions.Subscribe: the two gauges are modelled, the other metrics are not.
- The router's `start` loop and `Drop` handlers: each handler is modelled; the loop dispatches to them and stops at the first that fails.
- The subscriptions of a session, a map whose values are always true, are a set.
- Channels, timers, TLS, websockets, the server and client tasks (`src/server`, `src/client`): input and output.
- SQL text, connection pools and schema versions: only the effect of each call on the tables is modelled.
- Authentication, configuration, logging, metrics export, `src/main.rs`: lookups and foreign calls.
- `src/broker/persisttest.rs`, `src/sessions/persisttest.rs`: stubs that store nothing.
- Plain getters and setters: settled by reading them.
