# A verified model of the gott MQTT broker

gott is a broker for MQTT 3.1.1, written in Go. This project models, in Dafny, the parts of it that decide
who gets which message, and proves what they do.

* **The topic index** (`topic_filter.go`, `atomic.go`, and the tree half of `broker.go`). `TopicLevels` and
  `TopicStorage` are the linked classes, with parent pointers, cached wildcard flags, early exits and updates
  in place; each method is proved against a function on a pure tree (`TopicTree`). `TreeUpdates` and
  `TreeQueries` say what those functions mean for the flat index (path to entries and retained message);
  `Matching` states sections 4.7.1.2 and 4.7.1.3 of MQTT 3.1.1 level by level, without any tree; `IndexSpec`
  compares the tree that a run of operations builds with a history of who holds which filter and which message
  each topic retains, and `IndexDelivery` says, operation by operation and topic by topic, exactly when a client
  still gets what it is owed.
* **The broker as a step system** (`Delivery`): an event (a packet, a closed socket, one check of a retry loop)
  is a list of actions, each an atomic change of the index, the stores, the sessions, the retry loops or the
  log of what is written. `Reactions` says event by event what is written and what becomes of connections,
  stores and sessions, and `ToldHistory` what a run means for who holds which filter and which message each
  topic retains, told from the events alone. `BrokerInvariant` and `Wiring` are the invariants over every run;
  `Handshake`, `Settled`, `Resending`, `Freshness`, `InboundOnce`, `Offline`, `Replay`, `Leaving`,
  `IndexInRuns`, `Reaching` and `ConnectingOnce` hold the theorems about whole runs, `FanOut` those about one
  Publish in any of them, and `Scenes` runs from the start on which the code departs from the standard.
* **The broker as objects** (`Broker`, `MessageStores`, `Sessions`): the class `Gott` changes its fields in
  place, with the loops of `broker.go`, `client.go`, `session.go` and `message_store.go`. `Gott.Handle` is
  proved to be `Delivery.Step`, and the constructor to start in `Delivery.Initial`, on whatever session store
  it finds, so the theorems about runs are theorems about these methods.
* **The wire** (`Encoding`, `Sequencer`, `Packets`, `Extractors`, `Connect`, `Listening`, `Serving`):
  encoders and decoders against each other; `Listening.Listen` turns the bytes of a connection into events,
  and `Serving.Serve` runs the whole connection: bytes in, `Step` by `Step`, bytes out. `Readable` closes the
  circle: over every run, every PUBLISH that is ever written decodes to its own fields.

Where the code does not do what MQTT 3.1.1 promises, the model follows the code. For each departure a lemma
names an input, and another gives the exact condition:

* Unsubscribing from `p/#` leaves its second entry on `p` (`IndexDelivery.UnsubscribedHashStillDelivers`), and
  unsubscribing from `p` deletes the entry that `p/#` shares (`IndexDelivery.UnsubscribedParentIsLost`). When
  the index stays in step with what is held: `IndexSpec.UnsubscribeInSyncIffSafe`; when a topic still reaches
  the client exactly if it is owed, which can be so even out of step: `IndexDelivery.UnsubscribeDeliversIff`.
* A graceful disconnect of a persistent client deletes its entries on the first level
  (`IndexDelivery.GracefulDisconnectForgets`; `IndexSpec.UnsubscribeAllInSyncIffSafe`,
  `IndexDelivery.UnsubscribeAllDeliversIff`).
* A clean CONNECT leaves the entries of the client's earlier persistent session in the index
  (`IndexDelivery.CleanConnectKeepsEntries`; `IndexSpec.BeginInSyncIffSafe`, `IndexDelivery.BeginDeliversIff`).
* `Encode(0)` is empty, and a length of four bytes is refused: all such lengths
  (`Encoding.RoundTripIff`, `Encoding.DecodeRefusesFour`).
* `a/+b` is accepted (`Filters.AcceptedIllegalFilter`; `Filters.LegalFiltersAreAccepted`).
* A persistent client that comes back without subscribing again is sent nothing live, although it is owed it
  (section 3.1.2.4): its entries belong to its older session object (`Scenes.ReconnectedIsSentNothing`). It is
  sent a copy if and only if it has an entry of its present session on a node that the topic takes
  (`Reaching.PublishSendsOwed`; counted exactly in `Reaching.PublishSends`).
* What is queued through such an entry is saved together with all that the older session object holds: a
  message that the client has answered with PUBREC is published to it again
  (`Scenes.PublishedAgainAfterPubRec`). An acknowledgement settles its message if and only if no other copy is
  in use (`Settled.AcknowledgementSettlesIff`), and then for good (`Settled.AcknowledgedForGood`); one Publish
  brings it back if and only if the last copy it queues goes through a session object that still holds it
  (`Settled.PublishBringsBackIff`).
* Two copies queued by calls 65533 and 65534 of the sequencer are replayed in the opposite order
  (`Scenes.IdsFallAtTheWrap`; `Replay.OrderOfIds`).
* The 65535th message to a client that acknowledges nothing takes the place of the first, which is still
  stored (`Scenes.ReusedIdentifierOverwrites`; `Freshness.NextIdTakenIff`).

## Model

| member | source | states |
|---|---|---|
| `Filters.SplitThenJoin` | topic_filter.go:264-269 | joining the segments of a string with slashes gives the string back |
| `Filters.JoinThenSplit` | topic_filter.go:264-269 | splitting a joined path of slash-free segments gives the path back, so the two are inverse |
| `Filters.IndexAllByte` | utils/slices.go:14-21 | the loop returns exactly the positions of the byte, ascending |
| `Filters.ValidFilter` | topic_filter.go:376-398 | the byte-level checks accept exactly the filters that are valid segment by segment |
| `Filters.ValidByBytesIffBySegments` | topic_filter.go:376-398 | validity by segments is: non-empty, `#` only as the whole last segment, `+` only as the first byte of a segment, and a first segment starting with `+` is exactly `+` |
| `Filters.LegalFiltersAreAccepted` | topic_filter.go:389-395 | every filter legal under section 4.7.1 is accepted; an accepted one is illegal exactly when a later segment starts with `+` and goes on |
| `Filters.AcceptedIllegalFilter` | topic_filter.go:389-395 | `a/+b` is accepted and illegal |
| `Filters.TopicBySegments` | topic_filter.go:400-402 | a topic name without wildcard bytes is one without them in any segment |
| `Matching.MatchesThroughParent` | topic_filter.go:102-105 | a filter matches a topic through its own node or, for `q/#`, through the node of `q` |
| `Matching.ParentAndHashExclusive` | topic_filter.go:102-109 | no topic takes both `q` and `q/#` |
| `TopicTree.UpsertProps` | topic_filter.go:194-216 | overwriting or appending an entry keeps client ids distinct and adds exactly that client |
| `TopicTree.UpsertEntries` | topic_filter.go:194-216 | afterwards the client's one entry has the new session and QoS; the entries of others are the same, in their order |
| `TopicTree.RemoveProps` | atomic.go:27-34 | removing an entry keeps client ids distinct and removes exactly that client |
| `TopicTree.RemoveEntries` | atomic.go:27-34 | the entries of others are the same, in their order |
| `TreeUpdates.InsertFlat` | topic_filter.go:86-112 | Subscribe writes the node of the filter and, for `p/#`, also `p`; every other path keeps its entries in order, and every path its retained message |
| `TreeUpdates.InsertKeepsWellFormed` | topic_filter.go:86-112 | and keeps the representation invariant |
| `TreeUpdates.RetainFlat` | topic_filter.go:114-132 | Retain replaces the message of its own topic and nothing else |
| `TreeUpdates.RetainKeepsWellFormed` | topic_filter.go:114-132 | and keeps the representation invariant |
| `TreeUpdates.DeleteFlat` | topic_filter.go:134-149 | Unsubscribe removes one client's entry from one path and nothing else |
| `TreeUpdates.DeleteKeepsWellFormed` | topic_filter.go:134-149 | and keeps the representation invariant |
| `TreeUpdates.DropAllFlat` | topic_filter.go:151-156 | UnsubscribeAll removes the client on the first level, and below it only for a clean session; nothing else moves |
| `TreeUpdates.DropAllKeepsWellFormed` | topic_filter.go:151-156 | and keeps the representation invariant |
| `TreeQueries.AtPath` | topic_filter.go:264-269 | the node under a path carries that path |
| `TreeQueries.PathsNameNodes` | topic_filter.go:264-269 | no two nodes share a path |
| `TreeQueries.FindAllMember` | topic_filter.go:167-192 | the children a level continues in are exactly its `+`, its `#` and the one of the same name |
| `TreeQueries.FindAllStopsEarly` | topic_filter.go:187-189 | stopping once no later child can hit loses no hit |
| `TreeQueries.MatchSound` | topic_filter.go:59-76 | every node that match returns lies on a path the topic takes |
| `TreeQueries.MatchComplete` | topic_filter.go:59-76 | every node with entries on a path the topic takes is returned |
| `TreeQueries.MatchDistinct` | topic_filter.go:59-76 | match never returns a node twice |
| `TreeQueries.ReverseSound` | topic_filter.go:33-57 | every node that reverse returns has a retained message and a path the filter matches |
| `TreeQueries.ReverseComplete` | topic_filter.go:33-57 | every such node is returned |
| `TreeQueries.ReverseDistinct` | topic_filter.go:33-57 | none of them twice |
| `IndexSpec.EveryRunIsWellFormed` | topic_filter.go:86-132 | after every run: sibling names distinct, wildcard flags true exactly when such a child exists, `#` a leaf, retained messages on wildcard-free paths, client ids distinct per node |
| `IndexSpec.UnsubscribeInSyncIffSafe` | broker.go:249-270 | Unsubscribe keeps the index in step with the history if and only if the client does not hold the filter's own `/#` extension and, for `p/#`, also holds `p` or does not hold `p/#` |
| `IndexSpec.UnsubscribeAllInSyncIffSafe` | broker.go:274-281 | a disconnect keeps the index in step if and only if the session is clean, or the disconnect is not graceful, or the client holds no first-level entry |
| `IndexSpec.BeginInSyncIffSafe` | client.go:341-343 | a CONNECT keeps the index in step if and only if it is not clean or the client holds nothing |
| `IndexSpec.StepInSyncIffSafe` | broker.go:205-309 | the same if-and-only-if for every operation |
| `IndexSpec.CleanRunsAreSafe` | broker.go:205-281 | every run of Subscribe, Retain, and UnsubscribeAll of clean sessions, in which a client connects only after its last session was ended, is safe |
| `IndexSpec.IndexEqualsSpecification` | broker.go:334-366 | over every safe run, a topic reaches a client exactly when one of its filters matches, with at least one and at most as many copies as it has matching filters |
| `IndexSpec.NotBoth` | topic_filter.go:102-109 | nodes `q` and `q/#` are never both returned for one topic |
| `IndexSpec.RetainedLookupEqualsSpecification` | topic_filter.go:353-374 | after every run of all operations, the lookup of a valid filter returns exactly the topics that retain a message and that the filter matches, each once, with the latest message |
| `IndexSpec.ForwardAndReverseAgree` | topic_filter.go:33-76 | a tree holding only the filter delivers the topic if and only if a tree holding only the retained topic returns it for the filter |
| `IndexSpec.FilterNodeHasItsName` | topic_filter.go:264-269 | the node that Subscribe builds for a filter has that string as its path and holds the entry |
| `IndexSpec.TopicNodeHasItsName` | topic_filter.go:264-269 | the same for the node that Retain builds for a topic |
| `IndexDelivery.DeliveredByNode` | topic_filter.go:59-76 | a topic reaches a client exactly through the nodes that hold it and that the topic takes |
| `IndexDelivery.UnsubscribeDelivers` | broker.go:249-270 | after Unsubscribe from an index in step, a topic reaches the client if and only if a node other than the filter's was expected to hold it and is taken |
| `IndexDelivery.UnsubscribeDeliversIff` | broker.go:249-270 | a topic still reaches the client exactly if it is owed, except in exactly two cases: `p/#` is held and the only matching filters are `p` and `p/#` (its entry is lost), or the filter is `q/#` and alone matches, through `q` (its entry is left) |
| `IndexDelivery.UnsubscribeAllDeliversIff` | broker.go:274-281 | the same of a disconnect, if and only if it is not graceful, or the session is clean, or not everything that answers the topic is on the first level |
| `IndexDelivery.BeginDeliversIff` | client.go:341-343 | the same of a CONNECT, if and only if it is not clean or nothing held matches |
| `IndexDelivery.StepDeliversIff` | broker.go:205-309 | the same if-and-only-if for every operation, topic and client |
| `IndexDelivery.UnsubscribedHashStillDelivers` | topic_filter.go:142-142 | a run after which a client still gets topic `a`, having unsubscribed from `a/#` |
| `IndexDelivery.UnsubscribedParentIsLost` | topic_filter.go:142-142 | a run after which a client that holds `a/#` does not get topic `a`, having unsubscribed from `a` |
| `IndexDelivery.GracefulDisconnectForgets` | broker.go:278-278 | a run after which a persistent client that holds `a` does not get topic `a` |
| `IndexDelivery.CleanConnectKeepsEntries` | client.go:341-343 | a run after which a client that lost its connection and began a clean session still gets topic `a` |
| `TopicLevels.SubscriptionList.Delete` | atomic.go:27-34 | the list without the entry at that index, the rest in order |
| `TopicLevels.SubscriptionList.Add` | atomic.go:42-46 | the list with the entry at its end |
| `TopicLevels.SubscriptionList.Locate` | atomic.go:54-72 | the loop stops at the client's first entry, or runs to the end |
| `TopicLevels.TopicLevel.constructor` | topic_filter.go:96-97 | a new level: no children, no entries, no message, its path that of its parent and its own name |
| `TopicLevels.TopicLevel.Path` | topic_filter.go:264-269 | following the parent pointers gives the joined path |
| `TopicLevels.TopicLevel.Find` | topic_filter.go:158-165 | the first child with that name, or null when there is none |
| `TopicLevels.TopicLevel.CreateOrUpdateSubscription` | topic_filter.go:194-216 | the client's entry is overwritten in place, or appended |
| `TopicLevels.TopicLevel.DeleteSubscription` | topic_filter.go:219-233 | the entry goes when graceful or clean; otherwise it stays and its session loses its connection; true exactly when there was one |
| `TopicLevels.TopicLevel.FindOrAdd` | topic_filter.go:92-98 | the child of that name, added when missing |
| `TopicLevels.TopicLevel.MarkWildcard` | topic_filter.go:100-105 | the wildcard flags and the second entry of `p/#` |
| `TopicLevels.TopicLevel.ParseChildren` | topic_filter.go:86-112 | the linked levels afterwards stand for `TopicTree.Insert`, and all are new or were there before |
| `TopicLevels.TopicLevel.Retain` | topic_filter.go:78-80 | the retained message of this level only |
| `TopicLevels.TopicLevel.ParseChildrenRetain` | topic_filter.go:114-132 | the linked levels afterwards stand for `TopicTree.Retain` |
| `TopicLevels.TopicLevel.TraverseDelete` | topic_filter.go:134-149 | they stand for `TopicTree.Delete`; true exactly when the path held the client; no session is touched |
| `TopicLevels.TopicLevel.TraverseDeleteAll` | topic_filter.go:151-156 | they stand for `TopicTree.DropAll`, and exactly the sessions of entries left behind lose their connection |
| `TopicLevels.TopicLevel.FindAll` | topic_filter.go:167-192 | with its flags and early exit, the loop returns all the children the topic can continue in, in order |
| `TopicLevels.TopicLevel.Match` | topic_filter.go:59-76 | appends the nodes of `TopicTree.Match`, in order, to the slice it is given |
| `TopicLevels.TopicLevel.Reverse` | topic_filter.go:33-57 | appends the nodes of `TopicTree.Reverse`, in order, to the slice it is given |
| `TopicStorage.Storage.AddTopLevel` | topic_filter.go:284-293 | a new level at the end, with the two cached flags brought up to date |
| `TopicStorage.Storage.Find` | topic_filter.go:295-302 | the first top level with that name, or null |
| `TopicStorage.Storage.FindAll` | topic_filter.go:304-330 | with its flags and early exit, all the top levels the topic can continue in, in order |
| `TopicStorage.Storage.Subscribe` | broker.go:205-228 | true exactly for a valid filter; the index afterwards stands for the tree operation |
| `TopicStorage.Storage.Unsubscribe` | broker.go:249-270 | the same, true exactly when a valid filter's node held the client |
| `TopicStorage.Storage.UnsubscribeAll` | broker.go:274-281 | the same, with the sessions that lose their connection |
| `TopicStorage.Storage.Retain` | broker.go:284-309 | the same; a message with an invalid topic of its own changes nothing |
| `TopicStorage.Storage.Match` | topic_filter.go:340-351 | the nodes of `TopicTree.Match` for the topic, in order |
| `TopicStorage.Storage.ReverseMatch` | topic_filter.go:353-374 | the three branches at the top return the nodes of `TopicTree.Reverse`, in order |
| `Detaching.DetachKidsSpares` | topic_filter.go:219-233 | a departing client detaches no session but those of its own remaining entries, and changes nothing else in them |
| `Detaching.DetachKidsExactly` | topic_filter.go:219-233 | exactly the sessions of its entries that are left behind lose their connection |
| `Encoding.Encode` | bytes/encoding.go:8-18 | the loop computes the base-128 form |
| `Encoding.EncodedLengths` | bytes/encoding.go:8-18 | the bytes of 127, 128, 321, 16383, 16384 and 2097151 |
| `Encoding.Decode` | bytes/encoding.go:22-39 | the loop computes the value, with the error past three bytes |
| `Encoding.DecodeUndoesEncode` | bytes/encoding.go:8-39 | decoding an encoded length below 128^3 gives it back whatever follows |
| `Encoding.RoundTripIff` | bytes/encoding.go:8-39 | the round trip holds if and only if 1 <= x < 128^3 |
| `Encoding.DecodeRefusesFour` | bytes/encoding.go:28-32 | from 128^3 on, decoding reports an error |
| `Encoding.DecodedFits` | bytes/encoding.go:22-39 | whatever decodes is below 128^3 |
| `Encoding.EncodedIsMinimal` | bytes/encoding.go:8-18 | continuation bit on all bytes but the last, last byte nonzero |
| `Encoding.EncodedPrefixFree` | bytes/encoding.go:8-18 | no encoded length is a prefix of another |
| `Encoding.ReadHeader` | client.go:133-154 | the reading loop splits first byte, length bytes and the rest; of a stream of one byte the length byte reads as 0 |
| `Encoding.LoneByte` | client.go:133-142 | a stream that ends after the first byte still makes a header, with length byte 0 |
| `Encoding.HeaderOfPacket` | client.go:133-154 | a packet is split exactly where its encoded length ends |
| `Sequencer.Sequence.Next` | sequencer.go:12-22 | call k, counted from 0, returns 1 + (k mod 65534) |
| `Sequencer.Sequence.Val` | sequencer.go:24-29 | the identifier returned last, or 0 before the first call |
| `Sequencer.SameIdIff` | sequencer.go:12-22 | identifiers lie in 1..65534; two calls share one if and only if a multiple of 65534 lies between them |
| `Sequencer.FreshWithinPeriod` | sequencer.go:12-22 | any 65534 consecutive identifiers are distinct |
| `Packets.BigEndian` | packets.go:79-80 | two-byte numbers have their high byte first |
| `Packets.PublishBytes` | packets.go:61-116 | two PUBLISH packets, byte by byte |
| `Packets.MakePublishPacket` | packets.go:61-88 | an identifier is drawn exactly for QoS above 0, and is that of this call |
| `Packets.MakePublishPacketWithID` | packets.go:90-116 | the same packet under a given identifier |
| `Packets.FlagBits` | extractors.go:49-89 | the flag bits of a built first byte are read back as the flags that went in |
| `Packets.PublishFlagsIff` | extractors.go:49-89 | a first byte is read as these flags if and only if they are its bits and the QoS is at most 2; QoS 3 is refused |
| `Packets.BodyRoundTrip` | client.go:390-424 | topic, identifier and payload are read back from the remaining bytes |
| `Packets.BodyExactly` | client.go:390-424 | the remaining bytes are let through if and only if they are those of a PUBLISH with a valid topic name, and read as exactly that |
| `Packets.PublishRoundTrip` | client.go:374-424 | a built PUBLISH is read back field by field, DUP cleared for QoS 0, and what follows is left, exactly when its remaining length fits three bytes; a longer one closes the connection |
| `Packets.MakeSubAckPacket` | packets.go:31-47 | one code per filter, in order: the QoS asked for, or the failure code exactly for invalid filters |
| `Packets.SubackCodes` | packets.go:37-44 | the code is 0x80 for an invalid filter, and the QoS asked for otherwise |
| `Packets.SubackLength` | packets.go:31-47 | its remaining length is that of the identifier and the codes |
| `Extractors.ExtractSubTopicFilters` | extractors.go:91-117 | returns a list if and only if that list, serialised, is the whole payload; otherwise a slice is out of range; the final error is unreachable |
| `Extractors.ExtractUnsubTopicFilters` | extractors.go:119-139 | the same for UNSUBSCRIBE |
| `Extractors.SubItemsExactly` | extractors.go:91-117 | parsing and serialising SUBSCRIBE payloads are inverse, in both directions |
| `Extractors.UnsubItemsExactly` | extractors.go:119-139 | parsing and serialising UNSUBSCRIBE payloads are inverse, in both directions |
| `Connect.FlagsRoundTrip` | extractors.go:11-45 | a byte is read as these flags if and only if the flags are valid and the byte is theirs |
| `Connect.ParseWill` | client.go:253-282 | the two fields of the will, or a refusal exactly when one is empty or cut short |
| `Connect.ParseOptional` | client.go:284-330 | a user name or password, exactly when it is whole and non-empty |
| `Connect.ParseConnectPayload` | client.go:230-330 | whenever the payload starts with acceptable serialised fields, exactly those are recovered with the head behind them; whatever is accepted is such a beginning |
| `Connect.ConnectRoundTrip` | client.go:230-330 | serialised fields are recovered, with the head at the payload's end |
| `BrokerInvariant.RunKeepsInv` | broker.go:334-366 | over every run: the index stays well-formed, stored messages exist under the identifier of their own call, no message sent live is in a session's store, each connection has a session object of its own, and every index entry points to a session object |
| `BrokerInvariant.EntryOrigin` | topic_filter.go:194-216 | an index entry after an operation was there before or is that of the subscribing session |
| `Wiring.RunKeepsWired` | session.go:10-40 | over every run: no two places of the sessions' stores share a message object, a retry loop of a message that a session holds has the session's identifier for it, and only connections that made their CONNECT are pointed to |
| `Handshake.AcknowledgedIsNotPublishedAgain` | broker.go:432-434 | over every run, the status of one message object never returns to Unacknowledged, and once it is acknowledged in any way no PUBLISH is written of that object; a CONNECT loads a stored message as a new object, for which see `Settled` |
| `Handshake.PubRecStopsPublishing` | client.go:503-505 | so of the object that the broker's store holds under an identifier, from the moment a PUBREC for it is processed |
| `Handshake.CompletionIsFinal` | client.go:478-479 | a PUBACK or PUBCOMP for a stored message that was sent when it was made leaves it in no store under any identifier |
| `Handshake.RetryStopsAfterCompletion` | broker.go:416-450 | and through every run after it, the message's retry loop writes nothing at its next check and returns |
| `Settled.AcknowledgementSettlesIff` | client.go:478-549 | after the PUBACK, PUBREC or PUBCOMP of a persistent client, its message is unacknowledged neither in the session store, nor in a session object of the client that an entry or a live connection points to, nor in a retry loop to the client, if and only if no other copy under the identifier was in such a place before |
| `Settled.RunSettled` | session.go:35-60 | and that stays so through every run, reconnects included, in which no new message for the client takes the identifier and its CONNECTs come on new connections |
| `Settled.AcknowledgedForGood` | broker.go:398-450 | so, after any run, once the message is acknowledged and no other copy is in use, no action of such a run writes a PUBLISH under the identifier to any connection of the client, by retry loop or by replay, and the session store never again holds it unacknowledged |
| `Settled.UntakenBeforeWrap` | sequencer.go:12-22 | no new message takes the identifier as long as the sequencer has not come round since the call that drew it |
| `Settled.PublishBringsBackIff` | broker.go:359-362 | a Publish brings an acknowledged message back into the session store if and only if the last copy it queues for the client goes through an entry of a session object that still holds it unacknowledged |
| `Scenes.PublishedAgainAfterPubRec` | topic_filter.go:200-200 | a run from the start after which a message answered with PUBREC is unacknowledged in the session store again, and published at the next CONNECT |
| `Resending.WrittenIsTracked` | broker.go:353-391 | whatever PUBLISH above QoS 0 is written for a PUBLISH, for a will or for the retained messages of a SUBSCRIBE: its message is then in the broker's store under its identifier, with the fields that were written, unacknowledged, for that connection, and a retry loop of it has begun |
| `Resending.NewRetainedTracked` | broker.go:380-394 | the same of one retained message |
| `Resending.Tick` | broker.go:416-450 | one check of a loop: a returned one does nothing, one whose message is completed or whose connection is gone returns, the first check writes nothing, and the second writes the PUBLISH again with DUP set above QoS 0, the PUBREL after a PUBREC, or the PUBCOMP after a PUBREL |
| `Resending.EverySecondCheck` | broker.go:416-450 | through every run in which the message is not completed and its connection stays, exactly every second check of its loop writes what its status then asks for |
| `Resending.EverySecondTick` | broker.go:432-435 | as long as a message that was sent when it was made stays unanswered, that is its own PUBLISH, to the same connection, under the same identifier, with the same fields |
| `Resending.WrittenIsRepeated` | broker.go:353-450 | so of every PUBLISH above QoS 0 that an event writes |
| `Resending.ReconnectResumes` | broker.go:398-413 | a CONNECT to a stored session puts every stored message above QoS 0, answered or not, into the broker's store again, for the new connection, with a retry loop |
| `Freshness.StoreChanges` | broker.go:353-357 | an event without replay puts messages into the store only under identifiers drawn in it |
| `Freshness.ActionPreserves` | broker.go:356-357 | one action, however many identifiers its event draws: a stored message stays under its identifier unless an acknowledgement of it deletes it |
| `Freshness.NeverOverwritten` | message_store.go:35-40 | over every run in which no session is replayed and no stored message outlives 65533 identifiers drawn after its own, no action of any event puts another message in the place of a stored one, and all stored messages were sent when they were made |
| `Scenes.ReusedIdentifierOverwrites` | sequencer.go:12-22 | a run of 65535 messages to a client that acknowledges nothing, after which the last is stored in the place of the first |
| `Freshness.NextIdTakenIff` | packets.go:76-80 | the next identifier is that of a stored message if and only if a multiple of 65534 calls lies between: the bound is sharp |
| `Freshness.ReplayOnlyOnReconnect` | client.go:343-367 | only a CONNECT to a stored persistent session replays anything |
| `FanOut.CopyIdsDistinct` | broker.go:338-338 | all copies above QoS 0 of one Publish have distinct identifiers while there are at most 65534 |
| `FanOut.OneCopy` | broker.go:335-365 | a copy that is emitted adds one PUBLISH with its own QoS and identifier, DUP and RETAIN clear; one kept or dropped writes nothing; each is found where its fate puts it |
| `FanOut.CopyFrame` | broker.go:335-365 | and nothing else changes: a dropped copy leaves no trace but its identifier, an emitted one leaves sessions and session store alone, a kept one the broker's store and the loops |
| `FanOut.RetainedFrame` | broker.go:372-395 | a retained message is not kept for a session that cannot be reached; one of QoS 0 is only written |
| `FanOut.PublishConserves` | broker.go:334-366 | every entry is emitted, kept or dropped as connectivity, clean flag and smaller QoS decide; what is written is the emitted copies in order; every copy above QoS 0 is accounted for afterwards |
| `FanOut.PublishCallConserves` | broker.go:312-369 | the same of a whole Publish in every reachable state, retained or not |
| `InboundOnce.PublishStep` | client.go:426-452 | a QoS 2 PUBLISH gets one PUBREC, is handed on unless it is a marked duplicate of a pending one, and is pending afterwards |
| `InboundOnce.ReleaseStep` | client.go:524-525 | its PUBREL ends that and hands nothing on |
| `InboundOnce.InboundCounts` | client.go:426-452 | over every allowed run of any client: the exact number of PUBRECs and of PUBLISHes handed on |
| `InboundOnce.ExactlyOnce` | client.go:426-452 | over every allowed run of a client that marks its retransmissions, one PUBLISH is handed on per handshake and every PUBLISH gets its PUBREC |
| `InboundOnce.OnceBeforeRelease` | client.go:426-452 | however often it is sent before its PUBREL, it is handed on once |
| `InboundOnce.ConnectIsUp` | client.go:337-367 | a clean CONNECT brings the starting situation about |
| `Offline.RunAway` | broker.go:359-362 | through every run in which a persistent client stays away and the sequencer does not come round, all that was held for it and everything queued for it stays in its session and in the session store |
| `Offline.PlanIsHarmless` | broker.go:359-362 | no event of other clients touches what is queued |
| `Replay.AscendingIsSorted` | message_store.go:75-93 | the replay order lists every identifier once, ascending |
| `Replay.ReconnectReplays` | session.go:49-60 | reconnecting writes a CONNACK, then one PUBLISH per unacknowledged stored message above QoS 0, ascending by identifier, and nothing else |
| `Replay.ReplayedAscends` | broker.go:398-413 | nothing past its PUBREC is among them |
| `Replay.QueuedIsReplayedOnce` | session.go:35-60 | every copy held or queued while the client was away is replayed exactly once from the session store it finds |
| `Replay.OrderOfIds` | message_store.go:84-86 | the identifiers of two held copies ascend in publish order if and only if the sequencer did not wrap between them |
| `Scenes.IdsFallAtTheWrap` | sequencer.go:12-22 | a run in which calls 65533 and 65534 queue two messages for a client that is away, and the second is written before the first when it comes back |
| `Replay.ReconnectSendsQueued` | session.go:49-60 | when a persistent client comes back, a CONNACK and then every copy held or queued for it is written to its connection exactly once, and two of them in publish order if and only if the sequencer did not wrap between them |
| `Leaving.DisconnectIsAway` | client.go:652-698 | a persistent client that disconnects is away, with nothing queued yet |
| `Leaving.LostConnectionIsAway` | client.go:668-698 | a persistent client that loses its connection is away, and holds the copies of its own will that were queued for it |
| `Leaving.LostAndBack` | client.go:668-698 | from losing its connection, through every run without it, to its next CONNECT: every copy queued for it, its own will's included, is written to it exactly once, in publish order up to the wrap |
| `Reactions.Accepted` | broker.go:189-202 | a new connection is up, with no session and no will; nothing else changes |
| `Reactions.CleanConnect` | client.go:339-367 | a clean CONNECT deletes the stored session, makes a new empty one with the will that was sent, and is answered with CONNACK without session present; nothing else changes |
| `Reactions.FirstConnect` | client.go:339-367 | of a persistent client that is not known: an empty session is stored |
| `Reactions.KnownConnect` | client.go:343-367 | of one that is: the new session holds exactly the stored identifiers, and the stored session stays |
| `Reactions.NamelessIsClosed` | client.go:166-172 | a connection without a client id is closed by anything but a CONNECT with one |
| `Reactions.ClosedIsIgnored` | client.go:121-124 | nothing that arrives on a closed connection has an effect |
| `Reactions.PublishAnswered` | client.go:426-452 | a PUBLISH is answered first, with PUBACK at QoS 1, PUBREC at QoS 2 and nothing at QoS 0, under its identifier, and then one copy is written to each entry that can be reached, in their order |
| `Reactions.DuplicateAnswered` | client.go:432-435 | a marked duplicate of a PUBLISH that waits for its PUBREL gets its PUBREC again, and nothing else happens |
| `Reactions.HeldForRelease` | client.go:437-442 | a message of QoS 2 waits in its session, marked as received |
| `Reactions.Completed` | client.go:478-549 | a PUBACK or PUBCOMP marks its message and removes it from the broker's store, the session and, for a persistent client, the session store; nothing is written |
| `Reactions.Received` | client.go:503-505 | a PUBREC marks its message where it is, in the session store too, and is answered with PUBREL |
| `Reactions.Released` | client.go:524-525 | a PUBREL removes the inbound message from the session, without a save, and is answered with PUBCOMP |
| `Reactions.Unsubscribed` | client.go:637-649 | an UNSUBSCRIBE changes the index only, and is answered with one UNSUBACK |
| `Reactions.Pinged` | client.go:650-651 | a PINGREQ is answered with PINGRESP |
| `Reactions.Disconnected` | client.go:652-655 | a DISCONNECT closes the connection and leaves the index; nothing is written and the will is not published |
| `Reactions.LostWithoutWill` | client.go:668-698 | whatever else ends a connection without a will: the index is left, and nothing is written |
| `Reactions.LostPublishesWill` | client.go:668-698 | whatever else ends a connection with a will: the will is written to the entries that are left, in their order |
| `Reactions.LeftParts` | broker.go:274-281 | what leaving does to the index, the sessions and the rest |
| `Reactions.LeftSessions` | topic_filter.go:219-233 | and exactly which sessions lose their connection |
| `ToldHistory.RunTopics` | broker.go:205-309 | the index in a run of the broker is the one its operations build |
| `ToldHistory.ToldIsRecorded` | broker.go:205-332 | over every run, what the operations on the index record, of filters held and messages retained, is what the events say |
| `ToldHistory.RetainedIsTold` | broker.go:321-332 | after every run, each topic retains the message that the last PUBLISH or will with RETAIN left there, and nothing if that had no payload |
| `ToldHistory.PublishRetains` | broker.go:321-332 | after any run, a PUBLISH with RETAIN set leaves its topic with its payload, its QoS and the time of the event, or with nothing if it has no payload |
| `ToldHistory.WillRetains` | client.go:682-691 | the same of a will when its connection is lost |
| `IndexInRuns.PublishReachesOwed` | broker.go:334-366 | so in every safe run of the broker, clean CONNECTs included, Publish goes through entries of a client exactly when one of its filters matches, at most as many as match |
| `IndexInRuns.SortedByTime` | broker.go:231-233 | the sort by timestamp is an ordered permutation |
| `IndexInRuns.SortIsStable` | broker.go:231-233 | and stable: nodes of one timestamp stay in the order in which they were found |
| `IndexInRuns.FoundAfterRun` | broker.go:230-233 | after every run, each filter of a SUBSCRIBE finds exactly the topics that retain a message and that it matches, each once, with the latest message, oldest first |
| `Reaching.PublishWrites` | broker.go:334-366 | Publish writes the emitted copies in the order of the entries and nothing else |
| `Reaching.PublishSends` | broker.go:334-366 | Publish writes copies of the message only, each for an entry and at the smaller QoS of entry and message, and to a live connection exactly as many as there are entries on matched nodes whose session object is reached through it |
| `Reaching.PublishSendsOwed` | broker.go:334-366 | after every safe run, a connected client is sent a copy if it has an entry of its present session on a node that the topic takes, and, when its connection has made one CONNECT, if and only if it has, and at most as many as it has matching filters; for a client whose entries are all of its present session that is being owed the message |
| `Scenes.ReconnectedIsSentNothing` | client.go:339-339 | a safe run after which a persistent client is connected again and owed the message, and sent nothing |
| `ConnectingOnce.OneConnectOnlyLast` | client.go:339-339 | over every run in which a client id makes one CONNECT, all its entries are of its one session object |
| `ConnectingOnce.OneConnectOnlySession` | session.go:10-17 | over every run in which a connection makes one CONNECT, it reaches one session object |
| `ConnectingOnce.OneConnectAboutToLeave` | client.go:668-698 | such a run brings about the starting situation of `Leaving.LostAndBack` for a persistent client that is up |
| `ConnectingOnce.OnceLostAndBack` | client.go:668-698 | so, from the start of the broker: a client that connects once, loses its connection, stays away and comes back is sent every copy queued for it exactly once, in publish order up to the wrap |
| `ConnectingOnce.OncePublishSendsOwed` | broker.go:334-366 | and, over every safe run from the start in which client and connection make one CONNECT, a connected client is sent a copy if and only if it is owed it, and at most as many as it has matching filters |
| `Reaching.SubscribeWrites` | client.go:591-603 | a SUBSCRIBE on a connection that is up writes the retained messages, filter by filter, then one SUBACK, and nothing else |
| `Reaching.SubscribeSendsRetained` | client.go:591-603 | after every run, a SUBSCRIBE for a valid filter writes one PUBLISH marked RETAIN for each matching topic that retains a message, with the latest message at the smaller QoS, oldest first, and then the SUBACK |
| `MessageStores.MessageStore.Store` | message_store.go:35-40 | the map with that entry |
| `MessageStores.MessageStore.Acknowledge` | message_store.go:42-50 | an unknown identifier changes nothing; a known one sets the status in the shared object and goes when asked |
| `MessageStores.SortedKeys` | message_store.go:79-86 | in whatever order the keys come, the result is all of them ascending |
| `Broker.WireBytes` | packets.go:10-60 | the packets of the broker, byte by byte |
| `Broker.Gott.constructor` | broker.go:48-69 | the initial state of the step system, with the session store that was left on disk |
| `Broker.Gott.StoreMessage` | session.go:35-40 | the message enters the session's store, and the session store too unless the session is clean |
| `Broker.Gott.SessionAcknowledge` | session.go:42-47 | the step system's acknowledgement in a session |
| `Broker.Gott.Load` | session.go:19-25 | new message objects, one per stored one, ascending |
| `Broker.Gott.ReplaySession` | session.go:49-60 | the replay actions for all identifiers ascending; none for a clean session |
| `Broker.Gott.PublishToClient` | broker.go:398-413 | one replay action |
| `Broker.Gott.DeliverCopy` | broker.go:335-365 | one delivery action |
| `Broker.Gott.Publish` | broker.go:312-369 | the nested loops carry out exactly the planned actions |
| `Broker.Gott.PublishRetained` | broker.go:372-395 | one retained delivery |
| `Broker.Gott.SortNodes` | broker.go:231-233 | the nodes in the stable order of their timestamps |
| `Broker.Gott.Subscribe` | broker.go:205-246 | the planned actions: the entry, then the retained messages |
| `Broker.Gott.Unsubscribe` | broker.go:249-270 | the index action, true exactly when a valid filter's node held the client |
| `Broker.Gott.UnsubscribeAll` | broker.go:274-281 | the index action, with the sessions that lose their connection |
| `Broker.Gott.Leave` | client.go:668-698 | closing, leaving the index, and the will unless graceful |
| `Broker.Gott.Connect` | client.go:337-367 | session, session store, CONNACK and replay |
| `Broker.Gott.HandlePublish` | client.go:426-452 | the acknowledgement, the duplicate check, and Publish |
| `Broker.Gott.HandlePubAck` | client.go:478-479 | both acknowledgements |
| `Broker.Gott.HandlePubRec` | client.go:503-505 | both acknowledgements and the PUBREL |
| `Broker.Gott.HandlePubRel` | client.go:524-525 | the session's entry goes, and the PUBCOMP |
| `Broker.Gott.HandlePubComp` | client.go:548-549 | both acknowledgements |
| `Broker.Gott.HandleSubscribe` | client.go:591-603 | filter by filter, then one SUBACK |
| `Broker.Gott.HandleUnsubscribe` | client.go:637-649 | filter by filter, then one UNSUBACK |
| `Broker.Gott.Retry` | broker.go:416-450 | one check of a retry loop |
| `Broker.Gott.Handle` | client.go:120-663 | whatever happens next, the objects change exactly as `Delivery.Step` says, and what was written is the log, byte for byte |
| `Broker.KeysAtReplay` | session.go:19-25 | the identifiers replay goes through are those the session store held at the CONNECT |
| `Listening.SameClientIff` | client.go:238-251 | two CONNECTs with ids of their own are of one client if and only if the ids are the same bytes; without one, of the id generated for it |
| `Listening.ConnectMeaning` | client.go:253-282 | the clean flag, and a will if and only if its flag is set, with the topic, payload, QoS and RETAIN flag that were sent |
| `Listening.PacketMeaning` | client.go:133-660 | all other packets keep their kind, identifier, filters, topic, payload and flags |
| `Listening.ConnectBytes` | client.go:175-251 | a CONNECT, byte by byte |
| `Listening.SubscribeBytes` | extractors.go:91-117 | a SUBSCRIBE, byte by byte |
| `Listening.UnsubscribeBytes` | extractors.go:119-139 | an UNSUBSCRIBE, byte by byte |
| `Listening.AckBytes` | constants.go:8-24 | the packets without a payload, byte by byte |
| `Listening.SendableIff` | client.go:133-660 | a packet as it stands on the wire, with anything behind it, is taken as what the stream starts with if and only if it is well-formed |
| `Listening.FirstBytes` | client.go:174-660 | nothing else is taken: no other packet type, no PUBREL, SUBSCRIBE or UNSUBSCRIBE with flags other than 0010, no PUBLISH of QoS 3 |
| `Listening.ConnectNeeds` | client.go:190-243 | no CONNECT without the protocol name and level 4, with the reserved flag, with a will of QoS 3, or without a client id unless the session is clean |
| `Listening.ReadPublish` | client.go:374-424 | the event is that of a PUBLISH if and only if the bytes hold one, which it then means; everything else closes the connection |
| `Listening.ReadConnect` | client.go:175-330 | the same of a CONNECT, whatever stands behind its fields |
| `Listening.ReadAck` | client.go:457-551 | the two bytes of identifier; PUBREL alone ignores the remaining length |
| `Listening.ReadSubscribe` | client.go:552-587 | the same of a SUBSCRIBE |
| `Listening.ReadUnsubscribe` | client.go:604-635 | the same of an UNSUBSCRIBE |
| `Listening.ReadPacket` | client.go:174-660 | the same of any packet under its type and flags |
| `Listening.Listen` | client.go:133-660 | whatever bytes come: the event is the meaning of the packet they start with, and the bytes after it are left; if they start with none, the connection is closed |
| `Listening.ParsedFits` | extractors.go:49-89 | a PUBLISH that is let through has a QoS of at most 2, a topic with a two-byte length and a remaining length below 128^3 |
| `Listening.WillOfFits` | extractors.go:11-45 | a will that is let through can be published within the same bounds |
| `Readable.RetainedKept` | broker.go:284-309 | every operation on the index keeps the bounds of all retained messages |
| `Readable.RunFits` | broker.go:334-366 | over every run of events such as `Listening.Listen` lets through, every message object, stored session, will, retained message and written packet keeps the bounds of a readable PUBLISH, although SUBSCRIBE admits any QoS byte |
| `Readable.EveryPublishIsReadable` | packets.go:61-116 | over every run, whatever PUBLISH is written, live, retained, replayed, sent again or as a will, the broker's own decoder reads it back field by field, and what follows it is left |
| `Serving.Serve` | client.go:109-666 | any stream takes the broker through the run of the meanings of the packets it starts with, in order, until one closes the connection or the bytes left start with none; a stream of well-formed packets, of exactly those; the bytes written are those of the run's log |

## Left out

- Sockets, TLS, WebSockets and listeners: a connection is the bytes read from it and the bytes written to it; a failed write is not modelled.
- Plugins, logging, configuration and panic recovery: every hook agrees, and a Go panic (a slice out of range, a nil pointer) closes the connection like a malformed packet.
- Badger and JSON: the session store is a map from client id to the exported fields of the stored messages; its error returns are not modelled.
- Mutexes and data races: every event is atomic, as is every check of a retry loop, so interleavings inside one Publish are not modelled.
- Wall-clock time: a retry check is an event, and the clock counts events; the five and fifteen second waits are only an order.
- Keep-alive, which the source does not implement, `Print` helpers, and rules for topics starting with `$`, which the source does not have.
- UUIDs: the id of a client that sends none is a parameter of `Listening.Listen`.
- The CONNACK codes of refused CONNECTs, and the user name and password, which only plugins see.
- `Broker.Gott.Leave`: closes a connection without a session and does no more; the source, when a CONNECT is refused after its client id was read, runs UnsubscribeAll on that connection without a session (a nil pointer if the id has an entry) and publishes its will.
- `Broker.Gott.Connect`: does not close an older connection of the same client (client.go:364, broker.go:169-181), as the `clients` map is not part of this model.
- A nil topic in Retain, and slices of length 0 from Split: the source's own checks for them are never reached.
- Pointers to message, session and connection objects are indices into tables, so that all holders share one object; a subscription record is an element of the one list that owns it. `Origin`, the log and the count of sequencer calls are bookkeeping that the source does not have.
- The return value of `match`, which no caller uses, and the QoS check of `extractSubTopicFilters`, which can never fire, are dropped.
- `TopicStorage.Storage.Retain`: requires a valid topic whenever the message's own topic is valid, as its only caller has checked it.
- `TopicLevels.TopicLevel.FindAll`: requires a segment that is no wildcard; every segment of a topic name is one, and Publish rejects all others first.
- `TopicStorage.Storage.FindAll`: the same.
- `TopicLevels.TopicLevel.Match`: requires segments of a topic name, for the same reason.
- `TopicStorage.Storage.Match`: the same.
- `TopicLevels.TopicLevel.ParseChildrenRetain`: the same, as its callers pass on the topic of a PUBLISH or a will.
- `IndexSpec.IndexEqualsSpecification`: for safe runs only, because Unsubscribe, graceful disconnects and clean CONNECTs take the index out of step exactly when `IndexSpec.StepInSyncIffSafe` says so.
- `Freshness.NeverOverwritten`: excludes runs that replay a session, because replayed messages are stored under their old identifiers.
- `InboundOnce.ExactlyOnce`: excludes a PUBACK or PUBCOMP of the same identifier, a second connection of the same client and a second CONNECT, each of which changes the session's one map of identifiers.
- `Offline.RunAway`: assumes that the client's subscriptions were all made in its last connection, as `ConnectingOnce.OneConnectOnlyLast` shows of clients that connect once; older entries point to an older session object whose saves overwrite the stored one, as `Settled.PublishBringsBackIff` says.
- `Settled.AcknowledgedForGood`: excludes runs in which the client sends a second CONNECT on a connection, which section 3.1.0 of MQTT 3.1.1 forbids and the source does not refuse.
- `Encoding.ReadHeader`: takes the whole input to be there; a read that returns one of two header bytes while the other is still on its way is not modelled.
- `Serving.Serve`: serves one connection with nothing else going on; interleavings with other connections and retry loops are runs of `Broker.Gott.Handle`.
