# A verified model of the MQTT 5.0 broker

This project models the broker's wire codec, its topic matching, its packet
handlers, its outgoing command queue and its pool allocator, and proves what
they keep over every input and every run.  Check it with
`dafny verify dfyconfig.toml`.

## What is modelled

- **Bytes and codec** (`Bytes`, `VarInt`, `Properties`, `Headers`, `Packets`,
  `Parsers`).  Buffers and C++ strings are sequences of bytes.  Serializers
  write into arrays and are tied to the byte sequences they produce; parsers
  are tied to functions from bytes to values.  Every truncation the source
  performs is kept: property sizes and string sizes in a `uint8_t`, the size
  of a chain and the length of a payload in a `uint16_t`.
- **Bytes written out** (`Wire`, `Responses`).  What the parsers make of literal
  bytes and what bytes the serializers write, number by number as the sections
  of MQTT 5.0 have them, without the constants of the codec: network order,
  variable integers, the property table, separators and wildcards, flags, the
  packets the broker reads, and every answer it sends.
- **Topics** (`Topics`).  Tokenizing, and the loops of the live and of the
  retained matcher, against recursive relations over tokens, and those against
  section 4.7.1 of MQTT 5.0 on names cut at slashes.
- **Broker** (`BrokerModel`, `Deliveries`, `BrokerIndex`, `BrokerQos2`,
  `BrokerQueues`, `BrokerIds`, `BrokerWitnesses`, `BrokerLoops`,
  `BrokerEffects`, `Broker`, `Dispatch`, `EndToEnd`).
  `BrokerModel.Step` is one atomic step of the whole broker on values: a
  handler, a new or closed connection, a lost one with its will, a round of
  `QoSThread`, or a call of `AddQosEvent` from outside.  What hash maps,
  multimaps and the random generator decide is part of the action, and
  `Enabled` says which decisions are possible.  The class `Broker.Broker` has
  the source's tables and client objects and its loops; every handler is
  proved to take a step of the model, for every order in which its hash maps
  may be walked.  `Dispatch.HandlePacket` goes from bytes to those handlers.
  `BrokerEffects` says for every action, field by field and packet by packet,
  what the state after it is, in terms of the action and the state before alone.
  By `BrokerLoops.StepExtendsRun` the theorems about runs of the model hold of
  the objects as well.
- **Outgoing packets** (`Commands`).  The queue, the sender threads and
  partial writes.  `BrokerModel.State.out` is everything ever handed to
  `AddCommand`; taking it off again is the business of `Commands`.
- **Pool allocator** (`Pool`).  Addresses are element indices, and
  `operator new` is an oracle for fresh pools.

## What the proofs found

Where the code and the standard, or the code and the obvious expectation,
differ, the code is modelled as it is and the exact condition is proved.

- `HandleMqttPublish` hands on a copy of the property chain
  (src/handlers.cpp:115-119), and a copied binary property grows by the two
  bytes behind it.  A well-formed PUBLISH is recovered in full exactly when its
  chain has no binary property; topic, packet id and payload always are.
- The size of a property comes back in a `uint8_t`: it is right exactly up to
  255 bytes, and behind a property of 256 bytes, or a multiple of that, the loop
  of `Create` makes no progress.
- `tokenize` cuts at white space and bars as well as slashes, and drops empty
  levels.  So each matcher agrees with section 4.7.1 of MQTT 5.0 on a topic, for
  all proper filters, exactly if every level of the topic is non-empty and free
  of white space and bars: "a/b" takes "a//b" and "a b" takes "a/b".  On such
  names the live matcher still misses the parent level of a final `#`, and the
  retained matcher also accepts filters with one or more `+` between the topic's
  last level and the `#`; besides, `/#` gets every retained topic.
- `SubscribeVH::GetSize` leaves out the length prefix of its chain, and
  `PublishVH` without a packet id writes two bytes less than it announces.
- `Create` with a declared length of 0 keeps the chain's former properties
  (src/mqtt_protocol.cpp:601): a well-formed chain is recovered exactly unless
  it is empty and the former one was not, so a repeated CONNECT without properties keeps
  those of the first.
- The parser of CONNECT loses its place behind a client id, user name or
  password of more than 253 bytes, because the size comes back in a `uint8_t`.
- The packet-id generator wraps to 0, so the size assertion of
  `CreateMqttPacket` fails for a client's 65536th message above QoS 0.  Retained
  messages go out at the subscription's unmasked options, so it fails for the
  first message already if those are 4, 8, 12 and so on.  Runs of ordinary
  packets that lead there are given.
- A client that once connected without an id is told its current id in every
  later CONNACK.  If that is one of 65522 bytes or more, which it sent itself,
  the CONNACK fails the size assertion.
- The name of the protocol in a CONNECT is not looked at, only the version.
- Every postponed packet is postponed only because its queue is already in
  use, so without an outside caller nothing is ever postponed or re-sent.
- As long as writes succeed, the packets of a connection stay in order under
  every interleaving exactly if there is at most one sender thread; the broker
  starts two.
- In every state it can get to, `PoolAllocator` may next hand out a block that
  overlaps a live one exactly if a live block of the last pool reaches beyond
  that pool's counter.  While live blocks tile their pools, a free leads there
  exactly if its block was in the last pool and not on top of it; a block freed
  from below others in an earlier pool does no harm until the later pools are
  erased.

## Conventions

- A read behind the end of a buffer is an explicit outcome (`Overrun`,
  `PastEnd`, `CutShort`), and a chain whose parsing never ends because a
  property reports size 0 is the outcome `Hang`.
- Neither matcher bounds its index into the shorter token list; such a read is
  taken to be a mismatch.
- `subscribed_clients` holds weak pointers.  `Broker.Broker.Valid` says that
  each refers to the client registered under the same descriptor; that it
  covers every client with a subscription is a theorem about runs.
- Random client ids are assumed not to be in use.
- The rest of a CONNECT that is refused for its client id is never read, and may
  be anything.

## Model

| member | source | states |
|---|---|---|
| VarInt.DecodeOfCode | src/mqtt_protocol.cpp:28-60 | Decoding an encoding yields the value and its length exactly below 2^28, with at most four bytes; from 2^28 on it yields the error, whatever follows (section 1.5.5 of MQTT 5.0). |
| VarInt.CodeIsShortest | src/mqtt_protocol.cpp:28-60 | No accepted byte string is shorter than the encoding of the value it decodes to. |
| VarInt.CodeVarInt | src/mqtt_protocol.cpp:47-60 | The loop writes exactly the recursive encoding at its place in the buffer, changes nothing else, and reports its length. |
| VarInt.DeCodeVarInt | src/mqtt_protocol.cpp:28-45 | The loop with its running multiplier, wrap-around included, agrees with the definition of decoding by groups of seven bits on value, size and error. |
| VarInt.ReadVariableInt | src/mqtt_protocol.cpp:9-26 | The stream reader agrees with the buffer decoder on status and value for every stream, and consumes exactly the encoding when it succeeds. |
| VarInt.GetVarIntSize | src/mqtt_protocol.cpp:62-70 | The counted size is the number of bytes the encoder emits. |
| Topics.TokensWellFormed | src/functions.cpp:160-165 | Tokens are non-empty and hold no white space, no bar and no slash. |
| Topics.TokensOfJoin | src/functions.cpp:160-165 | Tokenizing inverts joining with slashes for every list of well-formed tokens. |
| Topics.Tokenize | src/functions.cpp:160-165 | The loop that cuts pieces and drops empty ones yields the recursively defined tokens. |
| Topics.LiveLevels | src/client.cpp:115-125 | The inner loop of the live matcher accepts exactly when there is a topic level and the recursive level relation holds. |
| Topics.CheckWildCards | src/client.cpp:107-128 | For every order of the subscriptions: found exactly when some subscribed filter matches, and the options returned belong to a filter that matches. |
| Topics.LiveIsMatches | src/client.cpp:107-128 | On topics with a level, live matching (shortcuts included) is exactly level-by-level matching where `#` needs a remaining level. |
| Topics.RetainedLevelsLoop | src/topic_storage.cpp:63-72 | The inner loop of the retained matcher, which goes on after a hit, accepts exactly when the level relation holds or the filter goes on beyond the topic with pluses and a hash. |
| Topics.GetMatchedTopics | src/topic_storage.cpp:52-76 | The result is exactly the stored topics whose name matches, for every order of the store. |
| Topics.RetainedVersusLive | src/topic_storage.cpp:52-76 | For every topic with a level, live acceptance implies retained acceptance, and they differ exactly when the filter matches all levels and continues with zero or more `+` and then `#`. |
| Topics.MatchersOnEmptyTopic | src/client.cpp:107-128 | On topics without a level: live accepts only `#` and the identical filter, retained accepts exactly pluses followed by a hash. |
| Topics.MatchersVersusStandard | src/client.cpp:116-124 | On token lists, for filters with `#` last only: the live relation is the level relation of section 4.7.1 minus the parent level of `#`, and what the retained one adds agrees with it exactly on that parent level. |
| Topics.PlainIff | src/functions.cpp:160-165 | The tokens of a name are its levels between slashes exactly if every level is non-empty and free of white space and bars. |
| Topics.MatchersVersusSection | src/client.cpp:107-128 | On filters and topics of that kind: live matching is section 4.7.1 of MQTT 5.0 minus the parent level of a final `#`; retained matching is the section plus the filters that go beyond the topic with pluses and a hash. |
| Topics.AgreementIffPlain | src/topic_storage.cpp:52-76 | For every topic name without wildcard characters: each matcher agrees with the section (up to those filters) on all proper filters if and only if the topic is of that kind. |
| Topics.AgreementIffPlainFilter | src/client.cpp:107-128 | For every filter with `#` as last level only: each matcher agrees with the section (up to those filters) on all ordinary topics if and only if the filter is of that kind or has no token at all. |
| Topics.SlashHashShortcut | src/topic_storage.cpp:54 | `/#` gets every retained topic, where the section asks for an empty first level. |
| Topics.SeparatorsMatter | src/functions.cpp:160-165 | Inputs outside that kind, for any two ordinary characters: both matchers let "a/b" take "a//b" and "a b" take "a/b", and the section lets neither. |
| Properties.ParsePropertyRoundTrip | src/mqtt_protocol.cpp:654-732 | Every well-typed property with strings below 65536 bytes parses back from its bytes, whatever follows, with its size reported modulo 256: correctly exactly up to 255 bytes. |
| Properties.LoopStuckIff | src/mqtt_protocol.cpp:607-616 | At any well-typed property, the loop of `Create` makes no progress if and only if its size is a multiple of 256. |
| Properties.LongPropertyHangs | src/mqtt_protocol.cpp:595-620 | So `Create` never returns on the serialized form of a chain that holds just such a property. |
| Properties.FillOfWire | src/mqtt_protocol.cpp:606-617 | The loop of `Create` on any list of encoded properties adds them one after the other to the chain, ends, and consumes exactly their bytes. |
| Properties.FirstOccurrenceWins | src/mqtt_protocol.cpp:553-556 | Of repeated identifiers on the wire the first one is kept. |
| Properties.ChainRoundTrip | src/mqtt_protocol.cpp:580-620 | `Create` on the serialized form of every well-formed chain, into a chain with any former contents, consumes exactly the bytes written, and yields the same map if and only if the list is not empty or the former contents are (section 2.2.2 of MQTT 5.0). |
| Properties.EmptyListKeepsOldChain | src/mqtt_protocol.cpp:599-618 | A declared length of 0 leaves the chain's former properties in place. |
| Properties.CopyPreservesIff | src/mqtt_protocol.cpp:455-491 | A copied chain equals the original exactly when it holds no binary property, whatever lies behind the binary data; identifiers are always kept. |
| Properties.GetChainSize | src/mqtt_protocol.cpp:572-578 | The `uint16_t` sum is the length of the serialized properties modulo 65536. |
| Properties.SerializeChain | src/mqtt_protocol.cpp:580-593 | The length prefix and the properties in ascending identifier order land at their place, nothing else changes, and the offset advances by what was written. |
| Properties.PropertyChain.AddProperty | src/mqtt_protocol.cpp:553-556 | Inserting never replaces a property that is there already. |
| Properties.PropertyChain.Create | src/mqtt_protocol.cpp:595-620 | The parsing loop leaves exactly the chain, status and size of the recursive definition, in its error cases as well. |
| Properties.AscendingOrder | src/mqtt_protocol.cpp:580-593 | A chain is written property by property, the smallest identifier first. |
| Wire.NetworkOrder | src/functions.cpp:125-139 | Two and four bytes are read and written most significant first (sections 1.5.2 and 1.5.3 of MQTT 5.0). |
| Wire.VariableBytes | src/mqtt_protocol.cpp:28-45 | For all bytes: one to four of them decode to the sum of their low seven bits times 1, 128, 16384 and 2097152, up to the first below 128; four that all continue are an error (section 1.5.5 of MQTT 5.0). |
| Wire.PropertyTable | src/mqtt_protocol.cpp:654-732 | For every identifier from 0 to 255, in literal numbers, what literal bytes behind it are read as; all others are refused (section 2.2.2.2 of MQTT 5.0). |
| Wire.PropertyBytes | src/mqtt_protocol.cpp:654-732 | The literal bytes each type of property is written as. |
| Wire.SeparatorBytes | src/functions.cpp:160-165 | A name of one byte has a token exactly if the byte is none of 9 to 13, 32, 47 and 124. |
| Wire.WildcardBytes | src/client.cpp:107-128 | Of the filters of one byte, 35 takes every topic, 43 every topic of one level, and any other that level alone, in both matchers but for the live one's shortcut. |
| Wire.HeaderBytes | src/mqtt_variable_header.cpp:148-352 | The literal bytes of the variable headers of PUBLISH, SUBSCRIBE and UNSUBSCRIBE without properties. |
| Wire.PublishPacket | src/handlers.cpp:110-126 | Literal bytes of a PUBLISH without properties are read as topic, id and payload, with an id exactly if bits 1 and 2 of the first byte are not both clear (section 3.3 of MQTT 5.0). |
| Wire.FilterBytes | src/handlers.cpp:134-147 | The literal bytes of filters with their options, and of names. |
| Wire.SubscribePacket | src/handlers.cpp:128-175 | Literal bytes of a SUBSCRIBE and of an UNSUBSCRIBE are read as packet id, filter and options (sections 3.8 and 3.10 of MQTT 5.0). |
| Wire.ConnectFlags | src/client.cpp:19-40 | The bits of the CONNECT flags, for every combination of them (section 3.1.2.3 of MQTT 5.0). |
| Wire.ConnectPacket | src/handlers.cpp:6-108 | The literal bytes, field by field, of the CONNECT packets `Parsers.ConnectRoundTrip` recovers, without properties (section 3.1 of MQTT 5.0). |
| Wire.VersionDecides | src/handlers.cpp:17-19 | A CONNECT is refused for its version exactly if its seventh byte is not 5, whatever the protocol name. |
| Wire.Credentials | src/handlers.cpp:88-106 | An announced user name or password of length 0 is the error it should be, and without a user name no password is read. |
| Responses.AnswerFitsIff | src/mqtt_protocol.cpp:734-752 | Every answer is as long as announced, if and only if it is not a CONNACK with an assigned id of at least 65522 bytes. |
| Responses.CreateAnswer | src/mqtt_protocol.cpp:734-752 | The buffer the handlers get for an answer with a variable header. |
| Responses.FirstByteOf | src/mqtt_packet_handler.cpp:17-278 | The first byte of everything the broker sends, in literal numbers: 0x30 to 0x3F for PUBLISH, 0x62 for PUBREL (section 2.1 of MQTT 5.0). |
| Responses.AnswersAre | src/mqtt_packet_handler.cpp:69-256 | Every byte of PUBACK, PUBREC, PUBREL, PUBCOMP, SUBACK, UNSUBACK, PINGRESP and the DISCONNECT of a timeout (sections 3.4 to 3.7, 3.9, 3.11, 3.13 and 3.14 of MQTT 5.0). |
| Responses.ConnackIs | src/mqtt_packet_handler.cpp:36-44 | Every byte of a CONNACK, with and without an assigned id: session flag, reason code 0, properties in ascending order (section 3.2 of MQTT 5.0). |
| Responses.ConnackBody | src/mqtt_protocol.cpp:800-828 | The properties the builder collects, as bytes, whatever the order of its calls. |
| Responses.PublishIs | src/broker.cpp:429-440 | Every byte of a PUBLISH the notifiers send whose QoS and packet id are zero together (section 3.3 of MQTT 5.0). |
| Headers.FirstByteRoundTrip | src/mqtt_fixed_header.cpp:9-13 | The flags built by `FHBuilder` read back as packet type, DUP and QoS for QoS below 4; above, the QoS reads modulo 4, its third bit is or-ed into DUP and the rest into the packet type. |
| Headers.FirstByteIs | src/mqtt_fixed_header.cpp:51-73 | The first byte is 16 times the type, plus 8 for DUP, plus twice the QoS (section 2.1 of MQTT 5.0). |
| Headers.FlagsAre | src/mqtt_fixed_header.cpp:9-13 | Of a first byte composed so, with a RETAIN bit, the readers return the parts. |
| Headers.FixedRoundTrip | src/broker.cpp:387-401 | Reading a serialized fixed header yields first byte, remaining length and exactly the bytes behind it, below 2^28. |
| Headers.HeaderSize | src/mqtt_variable_header.cpp:17-419 | For chains below 65536 bytes every header class writes what `GetSize` announces, except two bytes less for PUBLISH with id 0, and for SUBSCRIBE the chain's length prefix more (two less with id 0). |
| Headers.HeaderSizeOverflow | src/mqtt_variable_header.cpp:17-419 | With a longer chain at least 65536 bytes more are written than announced. |
| Headers.HeaderSizeExactIff | src/mqtt_variable_header.cpp:17-419 | Exactly which headers write what they announce, for all header classes and all chains. |
| Headers.SerializeHeader | src/mqtt_variable_header.cpp:17-419 | Every class puts its encoding at its place, changes nothing else, and advances by the bytes written. |
| Packets.PublishAssertionIff | src/mqtt_protocol.cpp:772-798 | The final size assertion of the PUBLISH overload holds exactly when QoS bits and packet id are zero together and the chain fits its size. |
| Packets.CreatePublish | src/mqtt_protocol.cpp:772-798 | Under that condition the freshly allocated buffer holds exactly fixed header, variable header and payload. |
| Packets.CreateBuffer | src/mqtt_protocol.cpp:741-750 | The three writes at running offsets fill a buffer of the announced size completely and in order. |
| Packets.CreatePacket | src/mqtt_protocol.cpp:734-752 | The overload without payload yields fixed and variable header whenever the header announces its size correctly. |
| Packets.HandleMqttPublish | src/handlers.cpp:110-126 | The parser with its offsets agrees with the reading of PUBLISH on values, the cases of running over the packet included. |
| Packets.PublishBodyRoundTrip | src/handlers.cpp:110-126 | For every first byte whose QoS bits agree with the id: topic, id and payload are recovered and the chain comes back as its copy. |
| Packets.PublishRoundTrip | src/mqtt_variable_header.cpp:113-122 | Whole packets (section 3.3 of MQTT 5.0): fixed-header reader, constructor and handler recover type, DUP, QoS, topic, id, payload and the copied chain from the bytes of `CreateMqttPacket`, consuming all of them; the chain is the original exactly if it has no binary property. |
| Parsers.FiltersRoundTrip | src/handlers.cpp:134-147 | Every list of filters with options parses back from its bytes. |
| Parsers.FilterLoop | src/handlers.cpp:134-147 | The loop over the offset ends, and agrees with the recursive parser on every payload, well-formed or not. |
| Parsers.SubscribeRoundTrip | src/handlers.cpp:128-150 | Every SUBSCRIBE with a packet id parses back to id, chain and filters in order (section 3.8.3 of MQTT 5.0). |
| Parsers.NameLoop | src/handlers.cpp:165-172 | The same for the loop of UNSUBSCRIBE. |
| Parsers.UnsubscribeRoundTrip | src/handlers.cpp:160-175 | Every UNSUBSCRIBE parses back to id, chain and names in order (section 3.10.3 of MQTT 5.0). |
| Parsers.ClientIdAdvanceIff | src/mqtt_protocol.cpp:622-636 | The client id is read in full, and the parser continues right behind it exactly for ids of at most 253 bytes. |
| Parsers.ShortAdvanceIff | src/mqtt_protocol.cpp:622-652 | The same for the user name and the password. |
| Parsers.ReadConnectFront | src/handlers.cpp:6-56 | The statements up to the client id, on the client's own chain object, agree with the reading of CONNECT on values and leave the parsed properties in the object. |
| Parsers.ConnectRoundTrip | src/handlers.cpp:6-108 | Every well-formed CONNECT, on a client with any properties left from an earlier one, is recovered field by field, optional ones included, and nothing is left over; each list of properties is recovered exactly unless it is empty and the former one was not (sections 3.1.2 and 3.1.3 of MQTT 5.0). |
| Commands.CommandQueue.Execute | src/command.cpp:20-28 | Takes exactly the front; a prefix of its bytes is written, and all of them if every call of `write` succeeds. |
| Commands.WriteData | src/functions.cpp:88-97 | For any results of `write`: what is out is a prefix, the return value tells whether it is everything, and positive results always suffice. |
| Commands.Fifo | src/command.cpp:14-28 | For every interleaving of producers and senders, popped commands followed by the queue are all commands added, in order. |
| Commands.StreamInOrder | src/functions.cpp:88-97 | If no descriptor has two writers at a time and writes succeed: what is on the wire, then in flight, then queued is the concatenation of all packets for it, however writes are cut up. |
| Commands.StreamComplete | src/functions.cpp:88-97 | Once queue and senders are idle, each connection's stream is exactly the concatenation of its packets in the order they were added. |
| Commands.SingleSenderIsExclusive | src/command.cpp:20-28 | A single sender with successful writes always meets that condition. |
| Commands.TwoSendersInterleave | src/broker.cpp:257-258 | With the two senders that are started it can fail: a run in which the second packet lands in the middle of the first. |
| Commands.OrderedIffOneSender | src/command.cpp:20-28 | For n senders: every run with successful writes that ends idle leaves every connection the concatenation of its packets, if and only if n is at most 1. |
| BrokerModel.PrepareKeepsConnections | src/mqtt_packet_handler.cpp:17-278 | Whoever a handler notifies is still registered after everything the handler did before. |
| Deliveries.DeliverAllFrame | src/broker.cpp:412-476 | Notifying leaves index, retained messages, QoS 2 store and all clients but their id generators alone. |
| Deliveries.DeliverAllSends | src/broker.cpp:430-437 | Notifying appends only to queues already in use, and sends at once only packets that are no duplicates and, above QoS 0, only to clients with nothing postponed. |
| Deliveries.FanOutFor | src/broker.cpp:412-446 | In one fan-out a connection has one delivery if it is in the index and a filter was chosen for it, at that filter's masked options, and none otherwise. |
| Deliveries.DeliverAllSeen | src/broker.cpp:412-446 | With one delivery each, every connection sees exactly its own packet, queue entry and id, unaffected by the others the shared topic went to. |
| BrokerIndex.StepKeepsTables | src/broker.cpp:216-237 | Every step keeps the subscriber index in agreement with the clients, and non-empty client ids distinct: takeover, re-CONNECT, rejected duplicates and disconnects included. |
| BrokerIndex.ConnectKeepsIds | src/handlers.cpp:36-53 | CONNECT keeps client ids distinct, whether it takes an id over, takes a new one, gets a generated one or is rejected. |
| BrokerIndex.ReachableTables | src/broker.cpp:539-545 | In every reachable state the index holds registered connections only and every client with a subscription, and non-empty client ids are pairwise distinct. |
| BrokerIndex.ScanIsIndex | src/broker.cpp:414-415 | Then a scan of all clients, in any order, makes exactly the deliveries the loop over the index makes. |
| BrokerIndex.OnePublishEach | src/broker.cpp:412-446 | Whoever has a matching filter gets exactly one PUBLISH, at the QoS of a filter that matches and with its own next packet id, sent or postponed; everybody else sees nothing; the order of the loop does not matter. |
| BrokerQos2.FindAndRemove | src/topic_storage.cpp:90-117 | Lookup and removal mean the same entry, the first waiting under that packet id, and removal touches no other id. |
| BrokerQos2.StepConserves | src/mqtt_packet_handler.cpp:70-85 | In every step, for every client id and packet id: waiting plus taken in is let out plus waiting afterwards (section 4.3.3 of MQTT 5.0). |
| BrokerQos2.Conservation | src/mqtt_packet_handler.cpp:205-240 | The same over every run, as multisets of messages. |
| BrokerQos2.AtMostOnce | src/mqtt_packet_handler.cpp:227-236 | However many PUBRELs arrive, no message is released more often than it was received. |
| BrokerQos2.ExactlyOnceInOrder | src/mqtt_packet_handler.cpp:205-240 | If ids are not reused while in use, released messages and then the one waiting are the received ones in order, and at most one waits. |
| BrokerQos2.PubrelAnnounces | src/mqtt_packet_handler.cpp:227-236 | A PUBREL fans out exactly the message it removes from the store, and nobody is notified if there is none. |
| BrokerQueues.StepRespectsQueues | src/broker.cpp:478-523 | From any queues, in every step: each queue becomes the old one less the acknowledged id's entries, in order, plus a suffix; only the front is re-sent; no new PUBLISH above QoS 0 passes a queue in use. |
| BrokerQueues.QueuesStayEmpty | src/mqtt_packet_handler.cpp:73-79 | Without outside calls of `AddQosEvent`, empty queues stay empty over every run and no packet put out is marked as a duplicate. |
| BrokerQueues.TickDoesNothing | src/broker.cpp:28-58 | And a round of `QoSThread` changes and sends nothing. |
| BrokerIds.GeneratorCounts | src/client.cpp:87-89 | In every run a client's generator stands at one more than the ids drawn since it was registered, modulo 65536. |
| BrokerIds.PacketIdOfMessage | src/broker.cpp:422-424 | In every run the k-th message above QoS 0 to a client carries packet id k modulo 65536 (section 2.2.1 of MQTT 5.0). |
| BrokerIds.TopicSizesAgreeIff | src/broker.cpp:429-440 | The notifiers' size assertion holds exactly when masked QoS and packet id are zero together. |
| BrokerIds.SizeAssertionInRuns | src/broker.cpp:422-441 | In every run, for every PUBLISH of both notifiers and any options: the exact condition in terms of QoS and message number; for options at most 3 it fails exactly when 65536 divides the count, so not for the first 65535 messages. |
| BrokerIds.RetainedSizesAgreeIff | src/mqtt_packet_handler.cpp:119-124 | For retained messages, whose options are not masked, the exact condition for any options and any state of the generator. |
| BrokerWitnesses.Published | src/broker.cpp:412-446 | For every n: after a connection, CONNECT, SUBSCRIBE and n times PUBLISH, the next PUBLISH is message n + 1 above QoS 0 to its subscriber. |
| BrokerWitnesses.WrappedIdFails | src/client.cpp:87-89 | So the assertion does fail: after 65535 PUBLISH packets the client's 65536th message has packet id 0. |
| BrokerWitnesses.RetainedOptionsFailIff | src/mqtt_packet_handler.cpp:115-126 | After CONNECT and a retained PUBLISH, a first SUBSCRIBE with any options byte gets the retained message, whose assertion fails if and only if the options are a positive multiple of 4. |
| BrokerIds.DeliveredAsSent | src/broker.cpp:429-440 | The bytes of a PUBLISH the broker makes for any QoS it masks options to parse back to the QoS, DUP, name, id and payload that were delivered. |
| BrokerIds.FirstSubscriptionStays | src/client.cpp:69-71 | After a SUBSCRIBE a filter is subscribed exactly if it was or was listed, with the options it had first. |
| BrokerIds.UnsubscribeCodes | src/mqtt_packet_handler.cpp:189-193 | One code a name; the i-th is success exactly if the filter was subscribed and not named before in the list; exactly the named filters are gone. |
| BrokerEffects.AddClientEffect | src/broker.cpp:216-228 | A new descriptor gets a client without id, flags, subscriptions or will whose first packet id is 1; nothing else changes. |
| BrokerEffects.CloseEffect | src/broker.cpp:406-410 | The connection leaves clients and index; nothing else changes. |
| BrokerEffects.PingEffect | src/mqtt_packet_handler.cpp:170-177 | One PINGRESP for the sender and nothing else; DISCONNECT changes nothing. |
| BrokerEffects.RemoveIdIs | src/broker.cpp:490-500 | Removing an id drops exactly its entries, wherever they stand, and keeps the others in order. |
| BrokerEffects.PostponeEffect | src/broker.cpp:478-488 | One entry more at the end of one queue and nothing else. |
| BrokerEffects.PubackEffect | src/mqtt_packet_handler.cpp:135-154 | The sender is put out the front of its queue without the id, if there is one; only that queue and the output change. |
| BrokerEffects.PubrecEffect | src/mqtt_packet_handler.cpp:245-256 | One PUBREL with the id for the sender, its queue without the id, and nothing else. |
| BrokerEffects.PubcompEffect | src/mqtt_packet_handler.cpp:261-278 | The sender is put out the front of its queue, if there is one, and nothing changes besides. |
| BrokerEffects.TickEffect | src/broker.cpp:28-58 | In a round of `QoSThread` every connection is put out exactly the front of its queue, if that is in use, and nothing changes besides. |
| BrokerEffects.UnsubscribeEffect | src/mqtt_packet_handler.cpp:182-200 | Exactly the named filters leave the sender's subscriptions; one UNSUBACK with its id and a code for each name, 0 for the first naming of a subscribed filter and 0x11 otherwise; nothing else changes. |
| BrokerEffects.SubscribeEffect | src/mqtt_packet_handler.cpp:93-130 | A name is subscribed afterwards exactly if it was or is listed, at its former options or those of its first listing; one SUBACK with the id and a code 2 for each filter, then only PUBLISH packets to the sender: with nothing postponed, the retained messages filter by filter, each match once, at the filter's options. Other clients, their packets and queues, stored and retained messages stay. |
| BrokerEffects.PublishEffect | src/mqtt_packet_handler.cpp:51-88 | Not at QoS 2: with RETAIN name and payload are kept under the name, PUBACK with the id exactly at QoS 1, and the message is fanned out; all else stays but packet ids, queues and output. |
| BrokerEffects.Qos2Effect | src/mqtt_packet_handler.cpp:51-88 | At QoS 2: the same retained copy, the message in the sender's group, and exactly one PUBREC with the id, put out or, with the queue in use, appended to it as a duplicate. |
| BrokerEffects.PubrelEffect | src/mqtt_packet_handler.cpp:205-240 | PUBCOMP with the id, then the front of the queue without the id, then the fan-out of the first message waiting under the id, which leaves; what waits under other ids stays. |
| BrokerEffects.LostEffect | src/broker.cpp:147-179 | A DISCONNECT exactly on a timeout, then the fan-out of the client's will exactly if bit 2 of its flags is set. |
| BrokerEffects.ConnectEffect | src/handlers.cpp:6-108 | CONNECT in all its branches: unchanged for a wrong version, only the flags new for bad properties or an id in use without a clean start, and otherwise id, flags, will, random-id mark, takeover and CONNACK, with all other clients, subscriptions and packet ids kept. |
| BrokerEffects.RetainedEffect | src/topic_storage.cpp:5-10 | Over all actions: only a PUBLISH with RETAIN changes retained messages, and only the one of its name. |
| BrokerEffects.ClientKept | src/mqtt_packet_handler.cpp:17-278 | Over all actions: a client's id, flags and will change by its own CONNECT only, its subscriptions by its own SUBSCRIBE and UNSUBSCRIBE only, and another's packet changes nothing but its packet ids. |
| BrokerEffects.WillKept | src/handlers.cpp:57-86 | So over every run on which the connection stays and sends no further CONNECT its will and flags are as they were. |
| BrokerLoops.StepExtendsRun | src/broker.cpp:142-146 | A step taken by a handler extends any run that led to its state, so theorems on runs carry over to the objects. |
| BrokerLoops.MetOneMore | src/broker.cpp:415-444 | One more turn of the notifying loop, with or without a match, adds exactly that connection's delivery, and those met earlier keep theirs. |
| BrokerLoops.TickOneMore | src/broker.cpp:47-52 | One more turn of the loop of `QoSThread` re-sends one more front and leaves the earlier ones as they are. |
| Broker.Client.AddSubscriptions | src/handlers.cpp:143-145 | The loop over the parsed filters subscribes to them in order and yields one SUBACK code each. |
| Broker.Client.DelSubscriptions | src/mqtt_packet_handler.cpp:189-193 | The loop over the names leaves the subscriptions and yields the codes `BrokerIds.UnsubscribeCodes` is about. |
| Broker.Client.MyTopic | src/client.cpp:81-85 | True exactly if some subscribed filter matches; the options belong to such a filter. |
| Broker.Broker.AddCommand | src/command.cpp:14-18 | Exactly one packet for the descriptor goes out, and nothing else of the broker's state changes. |
| Broker.Broker.CheckIfMoreMessages | src/broker.cpp:506-512 | Whether the client's queue is non-empty, for ids without an entry too. |
| Broker.Broker.AddQosEvent | src/broker.cpp:478-488 | Appends to the client's queue, creating it where needed, and changes nothing else. |
| Broker.Broker.DelQosEvent | src/broker.cpp:490-500 | Removes every entry with that packet id from the client's queue, keeps the others in order, and touches no other queue. |
| Broker.Broker.ResendFront | src/mqtt_packet_handler.cpp:143-151 | Puts out the front of a queue in use once more and leaves it there. |
| Broker.Broker.NotifyClient | src/broker.cpp:448-476 | One delivery of the model: id drawn only above QoS 0, postponed as a duplicate exactly if above QoS 0 and the queue is in use. |
| Broker.Broker.NotifyClients | src/broker.cpp:412-446 | Although one topic object is changed on the way: for every order of the index, the effect of delivering the fan-out of the original message; some valid choice of filters explains it. |
| Broker.Broker.SendRetained | src/mqtt_packet_handler.cpp:115-126 | Every retained topic the filter matches is sent once, in some order, at the filter's unmasked options. |
| Broker.Broker.AddQoSTopic | src/topic_storage.cpp:85-88 | Adds the message to its client's group, at any place a multimap may choose. |
| Broker.Broker.LocateQoSTopic | src/topic_storage.cpp:93-101 | The walk stops at the first entry with that packet id, if there is one. |
| Broker.Broker.GetQoSTopic | src/topic_storage.cpp:90-104 | Finds the first stored message of that client with that packet id. |
| Broker.Broker.DelQoSTopic | src/topic_storage.cpp:106-117 | Removes that entry and no other; without one nothing changes. |
| Broker.Broker.AddClient | src/broker.cpp:216-228 | A step of the model; a descriptor already registered keeps its client. |
| Broker.Broker.CloseConnection | src/broker.cpp:406-410 | The connection leaves clients and index together; everything else stays. |
| Broker.Broker.GetClientFd | src/broker.cpp:532-537 | Some connection with that id, or none exactly if nobody has it. |
| Broker.Broker.ClaimId | src/handlers.cpp:40-46 | An id in use is refused without a clean start, and otherwise its holder, possibly the same connection, is closed. |
| Broker.Broker.TakeId | src/handlers.cpp:36-53 | The client gets the id it brings, or a generated one, unless it is refused, exactly if its id is in use and it wants no clean start. |
| Broker.Broker.HandleMqttConnect | src/handlers.cpp:6-108 | The client object, the tables and the verdict for a CONNECT in all its branches; changes to an object whose connection was just taken over are lost to the tables. |
| Broker.Broker.HandleConnect | src/mqtt_packet_handler.cpp:17-46 | CONNECT takes the model's step, with CONNACK exactly if it is accepted. |
| Broker.Broker.HandlePublish | src/mqtt_packet_handler.cpp:51-88 | PUBLISH takes the model's step: retained copy, PUBACK or PUBREC (postponed exactly if the queue is in use), fan-out below QoS 2, storing at QoS 2. |
| Broker.Broker.HandleSubscribe | src/mqtt_packet_handler.cpp:93-130 | SUBSCRIBE takes the model's step: subscriptions, SUBACK, retained messages filter by filter, then the index. |
| Broker.Broker.HandlePuback | src/mqtt_packet_handler.cpp:135-154 | PUBACK takes the model's step: entries of the id removed first, then the new front re-sent. |
| Broker.Broker.HandleUnsubscribe | src/mqtt_packet_handler.cpp:182-200 | UNSUBSCRIBE takes the model's step. |
| Broker.Broker.HandlePubrel | src/mqtt_packet_handler.cpp:205-240 | PUBREL takes the model's step: PUBCOMP, queue, then fan-out and removal of one and the same stored message. |
| Broker.Broker.HandlePubrec | src/mqtt_packet_handler.cpp:245-256 | PUBREC takes the model's step. |
| Broker.Broker.HandlePubcomp | src/mqtt_packet_handler.cpp:261-278 | PUBCOMP takes the model's step and acknowledges nothing in the queue. |
| Broker.Broker.HandlePing | src/mqtt_packet_handler.cpp:170-177 | PINGREQ takes the model's step. |
| Broker.Broker.ConnectionLost | src/broker.cpp:155-179 | A lost or timed-out connection takes the model's step: the will goes out exactly if its flag is set, through the client's own topic object. |
| Broker.Broker.QoSTick | src/broker.cpp:28-58 | A round of `QoSThread` takes the model's step for any order of the clients. |
| Dispatch.HandlePacket | src/mqtt_packet_handler.cpp:285-290 | From bytes: the broker takes exactly the step the packet asks for, or none for a type without a handler; the connection is kept exactly unless that happens, CONNECT is not accepted or it is a DISCONNECT. |
| Dispatch.TypesRequest | headers/mqtt_protocol.h:27-44 | For every packet that can be read, in literal type numbers of section 2.1.2 of MQTT 5.0: which type asks for which step and which for none, and the packet id, QoS and RETAIN flag it asks with. |
| Dispatch.PublishRequests | src/mqtt_packet_handler.cpp:51-88 | A well-formed PUBLISH asks for its own message to be published, at its QoS and with its RETAIN flag, whatever its properties. |
| Dispatch.SubscribeRequests | src/mqtt_packet_handler.cpp:93-104 | A well-formed SUBSCRIBE asks for exactly its filters in order. |
| Dispatch.UnsubscribeRequests | src/mqtt_packet_handler.cpp:182-187 | A well-formed UNSUBSCRIBE asks for exactly its names in order. |
| Dispatch.AckRequests | src/mqtt_packet_handler.cpp:139-141 | Of an acknowledgement only the packet id counts, not the reason code or the properties. |
| Dispatch.ConnectRequests | src/mqtt_packet_handler.cpp:26-30 | A well-formed CONNECT, on a client with any former properties, asks for a CONNECT with all its fields, and is accepted exactly unless some registered client has its id and it wants no clean start. |
| EndToEnd.FanOutReaches | src/broker.cpp:412-446 | Every fan-out, connection by connection: one packet more is put out, or postponed at the end of the client's queue, exactly if the client has a matching filter, and nothing otherwise; the bytes of either, the first of which is 0x30 plus 8 for DUP plus twice the QoS, read back, to the last one, as the same name and payload at the delivered QoS, unless the packet id has wrapped to 0. |
| EndToEnd.PublishReaches | src/mqtt_packet_handler.cpp:51-88 | Bytes of a PUBLISH not at QoS 2 in: its sender is first put out a PUBACK with its id, exactly at QoS 1, the message is retained exactly with RETAIN, and it reaches every connection in that way; nobody gets anything else. |
| EndToEnd.Qos2Waits | src/mqtt_packet_handler.cpp:70-85 | Bytes of a QoS 2 PUBLISH in, its id not in use: nobody is notified, exactly this message waits under the id, it is retained exactly with RETAIN, and its sender gets exactly one PUBREC with the id, put out or queued. |
| EndToEnd.PubrelReaches | src/mqtt_packet_handler.cpp:205-240 | Bytes of the PUBREL in: its sender is put out PUBCOMP with its id and then the front of its queue without the id; the waiting message reaches every connection in that way, nobody gets anything else, and nothing waits under the id any more. |
| EndToEnd.RetainedReaches | src/mqtt_packet_handler.cpp:93-130 | Bytes of a SUBSCRIBE in, one of whose filters matches a retained message: behind the SUBACK the sender is put out that name and payload, at the options of the filter. |
| EndToEnd.ConnectLeaves | src/handlers.cpp:6-108 | Bytes of a CONNECT in that is not refused: the client has the flags of the packet, its id or the generated one, and its will, keeps subscriptions and packet ids, and is put out a CONNACK whose session flag is set exactly if bit 1 of the flags is clear; a former holder of the id is gone. |
| EndToEnd.WillReaches | src/broker.cpp:155-179 | Bytes of a CONNECT with a will in, and then any run on which the connection stays and sends no other CONNECT: once it is lost, that will reaches every connection in that way. |
| Pool.PoolAllocator.Alloc | headers/functions.h:65-71 | Refuses exactly blocks larger than a pool; otherwise the state and address of the allocation on values. |
| Pool.PoolAllocator.Free | headers/functions.h:73-90 | The loop with its early exit agrees with the release on values, for any address. |
| Pool.AllocConserves | headers/functions.h:65-71 | From any balanced state, each pool's counter is again the sum of its live blocks and within 1..num, every block lies in a pool, and the current pointer is the last pool's base. |
| Pool.FreeConserves | headers/functions.h:73-90 | The same for freeing any live block, in any order. |
| Pool.Reach | headers/functions.h:44-90 | So the balance holds in every state a trace of non-empty allocations and frees leads to. |
| Pool.FreeTiledIff | headers/functions.h:73-90 | A free keeps the live blocks tiling their pools exactly when the block lies on top of its pool. |
| Pool.OverlapsIff | headers/functions.h:65-71 | In every balanced state, so after any trace: some possible allocation overlaps a live block if and only if a live block of the last pool reaches beyond its counter. |
| Pool.FreeOverlapsIff | headers/functions.h:65-90 | After a free from a tiled state, that is so if and only if the freed block was in the last pool and not on top of it. |
| Pool.BuriedFreeResurfaces | headers/functions.h:73-90 | A trace after which no allocation can overlap a live block, and where a free of the last pool's topmost block makes one possible, because an earlier free was buried in the first pool. |
| Pool.TiledNeverOverlaps | headers/functions.h:65-71 | Tiled blocks never overlap and stay below their pool's counter. |
| Pool.TopFreesTile | headers/functions.h:44-90 | Over every trace that frees only from the top of pools, live blocks tile a prefix of each pool and never overlap. |
| Pool.LifoTiles | headers/functions.h:44-90 | Traces whose frees are last-in first-out are of that kind. |
| Pool.OutOfOrderOverlaps | headers/functions.h:65-90 | A trace of four operations, one free among them, after which two live blocks share their address. |

## Left out

- Sockets, `poll`, the control socket, configuration and `main.cpp`: incoming data are byte sequences, `write` is a list of results.
- Logging, ownership by `shared_ptr`, copying and moving of single entities.
- Condition variables, sleeping, the clock behind keep-alive: a timeout is an action that may happen at any time.
- Data races between `AddClient`, `QoSThread` and the server thread: every action is atomic.
- The internals of `std::regex`: tokenizing is splitting at runs of white space, bars and slashes.
- The order of hash maps and of equal keys in a multimap: any order is allowed, except that a lookup starts at the first entry of the group; the set of retained topics may be walked in any order as well.
- `GenRandom`, `loginClient`, and reading a CONNECT's user name and password into the client: accepted or not is modelled, what is done with them is not.
- The error handlers' own writes to the socket, and `HandleError`.
- The client's will keeps name and payload only in the state; its QoS and packet id are overwritten whenever it is sent.
- The client's two property chains are inputs of `Dispatch.HandlePacket` and not part of the broker's state; the broker never reads them.
- The broker's output holds packets as values; their bytes are in `Responses`, and `Commands` has them as strings of bytes.
- Wire.HeaderBytes, Wire.PublishPacket, Wire.SubscribePacket and Wire.ConnectPacket: with empty property lists only; other lists are in `Wire.PropertyBytes`, `Properties.AscendingOrder` and the round trips.
- `ReadFromBuf` of the MQTT 3 headers, which are stubs, and headers the broker never reads.
- Sizes beyond 2^32 bytes, and `used_elements` beyond 2^31.
- Dispatch.HandlePacket: asks that no parser reads beyond the packet, and that packets come from registered connections; `clients[fd]` would otherwise insert a null pointer.
- Broker.Broker.HandleConnect: asks that a client id that is there is not empty, which is all the parser yields, and that the random id is not in use.
- Commands.CommandQueue.Execute: starts where the queue is not empty; before that the thread waits.
- Broker.Broker.HandleMqttConnect: takes the parsed fields and not the bytes; `Dispatch.HandlePacket` supplies them.
- `MqttPacketHandler::AddHandler` and the thread start-up in `Broker::Start`.
