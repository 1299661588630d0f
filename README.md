# Vaults node core, modelled in Dafny

Vaults is a peer-to-peer node built on a Hyperswarm transport and a
Corestore log store. This project models the three pieces of its API
layer that hold the node's own logic.

- **The message consumer** (`src/api/consumer.js`, module `Dispatch`).
  `handle(initiator, data)` splits a byte buffer at its first space after
  the leading byte into a protocol tag and a payload. It then routes the
  buffer by exact tag equality to one of three branches: the
  `hypercore/alpha` handshake, the end-of-message sentinel, or unknown
  data. The decision is the pure function `Classify`; the class
  `Consumer` is the object that writes the resulting debug line.
- **The peer node** (`src/api/peer.js`, module `Node`). The class `Peer`
  holds:
  - the `booted`/`started` lifecycle flags and their times;
  - the application core and the node's `publicKeys` map, filled by
    `ready`;
  - the `peers` table from hex remote public key to connection, changed
    in place by the swarm's `connection` event and each connection's
    one-shot `close` event;
  - the `broadcast` fan-out over a snapshot of the swarm's connections.
- **The logger** (`src/api/log.js`, module `Logging`). The class `Logger`
  has:
  - option resolution for EOL, label and level, including the
    debug/quiet fallback;
  - `label()` and `level()`;
  - the rank filter over `error < warn < info < debug`;
  - the upper-cased, space-padded level column and the line format;
  - routing of every line to `vfunctions.log`, and of errors and
    warnings to `error.log` as well.

  The two files are the sequences of entries appended to them (class
  `LogFiles`).

Module `Runtime` holds the JavaScript behaviour the code relies on:
- `Buffer.indexOf` for a one-byte needle;
- `subarray` with its clamping of negative and over-long indices;
- hexadecimal rendering of byte buffers;
- decimal rendering of numbers in template literals, for integers below 10^21 in magnitude;
- the `undefined`/`null`/string distinction of option fields.

The model follows what the code does, including behaviour that is easy
to assume but that the code does not have:
- A buffer without a space after its first byte is not rejected. `indexOf`
  returns -1, the tag is the buffer minus its last byte and the payload is
  the whole buffer (`Dispatch.SplitWithoutSpace`,
  `Dispatch.UndelimitedHandshake`). An empty buffer is not skipped either.
- A second connection from the same remote key replaces the first
  (`Node.LaterConnectionWins`); it is not rejected.
- A close event deletes by key, even when a newer connection has replaced
  the entry (`Node.StaleCloseRemovesNewer`).
- There is no teardown "destroying" flag that silences close events. There
  is no suppression of the node's own connection, and no filtering of
  "connection reset by peer" errors (`Node.Peer.OnError` logs every
  error).
- `ready` has no re-entry guard.
- The public keys are named `vaults` and `discovery`.
- `broadcast` writes to the swarm's current connections, not to the
  `peers` table (`Node.Peer.Broadcast`).
- Incoming connection data is only logged (`Node.Peer.OnData`); it never
  reaches the consumer.
- The consumer's logger is built with no level at all. Its level is
  therefore `undefined`, the debug/quiet fallback never runs, and nothing
  it is given is filtered (`Dispatch.ConsumerLoggerKeepsEverything`,
  `Dispatch.Consumer.Handle`).

## Model

| member | source | states |
|---|---|---|
| Runtime.IndexOf | src/api/consumer.js:44 | -1 exactly when no byte at or after the start offset is the needle; otherwise the first position at or after the offset that holds it |
| Runtime.Clamp | src/api/consumer.js:47-48 | an in-range index is kept; a negative one counts back from the end and is floored at 0; one past the end is capped at the length; the result always lies in [0, length] |
| Runtime.Subarray | src/api/consumer.js:47-48 | never longer than the buffer; in-range, non-crossing indices give exactly that slice; an end past the buffer stops at its end; a negative end counts back from the end; an end before the start, whether negative or not, gives the empty buffer |
| Runtime.HexByte | src/api/peer.js:92 | two lower-case hexadecimal digits (0-9, a-f) whose value is the byte |
| Runtime.Hex | src/api/peer.js:92 | two characters per byte |
| Runtime.HexAt | src/api/peer.js:92 | characters 2i and 2i+1 of the rendering are the digits of byte i |
| Runtime.HexInjective | src/api/peer.js:92-96 | two buffers with the same rendering are equal, so a table keyed by the hex string is keyed by the public key |
| Runtime.HexDigits | src/api/peer.js:92 | every character of a rendering is a lower-case hexadecimal digit, so never a space |
| Runtime.NatToString | src/api/peer.js:129 | a non-empty string of decimal digits |
| Runtime.IntToString | src/api/peer.js:118 | non-empty, with a leading minus sign exactly for negative numbers |
| Runtime.NatToStringValue | src/api/peer.js:129 | the digits, read most significant first, denote the number itself |
| Runtime.IntToStringValue | src/api/peer.js:118 | a non-negative number renders as its own digits, a negative one as a minus sign and the digits of its magnitude; distinct numbers render differently |
| Logging.ResolveEol | src/api/log.js:34 | the option's EOL when it is a string, "\n" when it is nullish or there are no options |
| Logging.ResolveLabel | src/api/log.js:35 | the option's label as given (`undefined` included); `null` exactly when there are no options or the label is `null` |
| Logging.ResolveLevel | src/api/log.js:36-43 | `null` only without options; a level that is not strictly `null` is kept as is; a `null` level becomes "debug" if debug, else "error" if quiet, else "info" |
| Logging.EffectiveLabel | src/api/log.js:57-61 | never `null`; the stored label when not `null`, otherwise "default" |
| Logging.EffectiveLevel | src/api/log.js:63-67 | never `null`; the stored level when not `null`, otherwise "info" |
| Logging.Rank | src/api/log.js:23-28 | a rank exactly for the four listed levels, never above the rank of "debug"; "error" ranks 0 and "debug" 3 |
| Logging.Dropped | src/api/log.js:72-73 | only a listed level other than "error" can be dropped, and only under a listed current level other than "debug" |
| Logging.ToErrorLog | src/api/log.js:90-92 | a line also goes to error.log exactly when its level is "error" or "warn" |
| Logging.Upper | src/api/log.js:76 | same length, each character upper-cased |
| Logging.Spaces | src/api/log.js:76 | n characters, all spaces |
| Logging.PadLevel | src/api/log.js:76 | width max(5, length of the level); ends with the upper-cased level; everything before it is spaces, so longer names are unchanged |
| Logging.Line | src/api/log.js:77 | the line starts with the timestamp, then " [" and the label, then "] ", the upper-cased level padded to five and ": ", and ends with the message; its length is the sum of its parts plus the six separator characters |
| Logging.UnlistedLevelsNeverDropped | src/api/log.js:72-73 | a level that is not a key of LEVELS is never dropped, whatever the current level |
| Logging.UnlistedCurrentDropsNothing | src/api/log.js:72-73 | when the current level is not a key of LEVELS, nothing is dropped |
| Logging.DroppedIffMoreVerbose | src/api/log.js:72-73 | between listed levels, a line is dropped exactly when its rank exceeds the current level's rank |
| Logging.KeptMonotone | src/api/log.js:72-73 | a more verbose current level keeps every line a less verbose one keeps |
| Logging.DefaultDropsOnlyDebug | src/api/log.js:63-73 | with no stored level ("info"), exactly "debug" lines are dropped |
| Logging.FallbackPicksListedLevel | src/api/log.js:39-43 | the debug/quiet fallback always yields a key of LEVELS |
| Logging.UndefinedLevelDisablesFilter | src/api/log.js:36-43 | options whose level is `undefined` skip the fallback, keep `undefined`, and then no line is dropped |
| Logging.ListedLevelsFit | src/api/log.js:23-28 | every key of LEVELS is at most five characters long |
| Logging.PadFillsWidth | src/api/log.js:76 | a level of at most five characters becomes exactly five: spaces, then the upper-cased level |
| Logging.LogFiles.constructor | src/api/log.js:45-46 | the folder is present or not as given, and both files start with no entries |
| Logging.Logger.constructor | src/api/log.js:33-50 | EOL, label and level are the resolved options; the folder exists afterwards; when it was missing, exactly the "Created logs folder" debug line (if not filtered) is appended; error.log is untouched |
| Logging.Logger.Label | src/api/log.js:57-61 | never `null`; the stored label when not `null`, otherwise "default" |
| Logging.Logger.Level | src/api/log.js:63-67 | never `null`; the stored level when not `null`, otherwise "info" |
| Logging.Logger.Emit | src/api/log.js:72-87 | at most one entry for vfunctions.log, and none exactly when the level is dropped; the entry starts with the timestamp and ends with the message followed by the EOL |
| Logging.Logger.EmitError | src/api/log.js:90-92 | error.log gets the vfunctions.log entry for "error" and "warn" and nothing for any other level; an error always yields one entry |
| Logging.Logger.Print | src/api/log.js:69-93 | a dropped level writes nothing anywhere; otherwise exactly the formatted line plus EOL is appended to vfunctions.log, and to error.log too exactly for "error" and "warn"; the folder flag is unchanged |
| Logging.Logger.Log | src/api/log.js:95-98 | prints at "info": vfunctions.log gains the info line unless the level filters it, error.log nothing |
| Logging.Logger.Info | src/api/log.js:100-103 | prints at "info": vfunctions.log gains the info line unless the level filters it, error.log nothing |
| Logging.Logger.Warn | src/api/log.js:105-108 | prints at "warn": both files gain the same warn line unless the level filters it |
| Logging.Logger.Error | src/api/log.js:110-113 | prints at "error": both files gain the same error line |
| Logging.Logger.Debug | src/api/log.js:115-118 | prints at "debug": vfunctions.log gains the debug line unless the level filters it, error.log nothing |
| Logging.UnfilteredEmit | src/api/log.js:72-87 | a logger stored without a level writes exactly one formatted line for every level |
| Logging.ErrorsAlwaysWritten | src/api/log.js:72-92 | an error line is never filtered, whatever the logger's level, and goes to both files |
| Dispatch.Split | src/api/consumer.js:43-48 | the tag is a prefix of the buffer with no space after its first byte; the buffer is tag, space, payload, or else the payload is the whole buffer |
| Dispatch.PeerIdentifier | src/api/consumer.js:39 | the first min(8, length) bytes of the initiator |
| Dispatch.Classify | src/api/consumer.js:36-70 | handshake exactly when the tag equals the 19-byte handshake tag; end-of-message exactly when it equals the 8-byte sentinel; unknown exactly otherwise; the handshake reports the peer identifier and a topic that is the first min(32, length) payload bytes; the unknown branch carries the whole buffer |
| Dispatch.LogMessage | src/api/consumer.js:51-69 | a debug line exists for every branch except end-of-message |
| Dispatch.ConsumerLoggerOptions | src/api/consumer.js:24-31 | options that resolve to label "Consumer", EOL "\n" and an `undefined` level, carrying the given debug and quiet flags |
| Dispatch.SplitAtFirstSpace | src/api/consumer.js:43-48 | with the first space at or after offset 1 at position s, tag = data[..s] and payload = data[s+1..] |
| Dispatch.SplitWithoutSpace | src/api/consumer.js:43-48 | with no space at offset 1 or later, the tag is the buffer minus its last byte (empty for an empty buffer) and the payload is the whole buffer |
| Dispatch.FirstByteInTag | src/api/consumer.js:43-44 | for buffers of two bytes or more, a space at offset 0 is never the split point and the first byte belongs to the tag |
| Dispatch.RoundTrip | src/api/consumer.js:43-48 | splitting tag + space + payload gives back that tag and payload, for any non-empty tag with no space after its first byte |
| Dispatch.EmptyTagNotRecovered | src/api/consumer.js:43-48 | for every payload the round trip fails for an empty tag: a leading space is kept as the first byte of the tag, or, with nothing after it, the tag is empty and the payload is the space |
| Dispatch.TagsHaveNoSpace | src/api/consumer.js:17-18 | neither built-in tag contains a space, and the two tags differ |
| Dispatch.HandshakeTopic | src/api/consumer.js:51-58 | a handshake frame reaches the handshake branch with the first 32 payload bytes as topic; later bytes are ignored |
| Dispatch.EndOfMessageReached | src/api/consumer.js:60-64 | every end-of-message frame reaches the end-of-message branch, whatever its payload |
| Dispatch.ExtendedTagIsUnknown | src/api/consumer.js:51-69 | matching is exact, not by prefix: the handshake tag plus one byte is unknown, reported with the whole buffer |
| Dispatch.UndelimitedHandshake | src/api/consumer.js:43-58 | the handshake tag followed by one non-space byte and no delimiter still reaches the handshake branch, with the buffer itself read as topic |
| Dispatch.ConsumerLoggerKeepsEverything | src/api/consumer.js:24-31 | the consumer's logger has level `undefined` and drops no line, whatever the debug and quiet flags |
| Dispatch.UnknownLogsWholeData | src/api/consumer.js:69 | two unknown buffers with the same debug line are the same buffer: the line carries all of it |
| Dispatch.SeparatedRenderings | src/api/consumer.js:53-56 | two hex renderings joined by a separator starting with a space can be taken apart again uniquely |
| Dispatch.HandshakeLogDeterminesPeerAndTopic | src/api/consumer.js:53-56 | two handshakes with the same debug line have the same peer identifier and the same topic |
| Dispatch.Consumer.constructor | src/api/consumer.js:24-31 | the logger is labelled "Consumer", has no level and EOL "\n"; the logs folder exists afterwards; only the folder-creation line may be written |
| Dispatch.Consumer.Handle | src/api/consumer.js:36-70 | an end-of-message frame writes nothing; every other frame appends exactly its own debug line to vfunctions.log, never to error.log; the folder flag is unchanged |
| Node.Swarm.constructor | src/api/peer.js:43 | the swarm starts with its key and connections, no topic joined and nothing written |
| Node.Swarm.Join | src/api/peer.js:87 | the topic is appended to the joined topics |
| Node.Swarm.WriteTo | src/api/peer.js:133 | exactly one write of the data to that connection is recorded |
| Node.ConfigLevel | src/api/peer.js:30-32 | a key of LEVELS: "debug" exactly when debug is set, "error" exactly when only quiet is set |
| Node.PeerKey | src/api/peer.js:92 | two hex characters per byte of the remote public key |
| Node.PublicKeysOf | src/api/peer.js:79-80 | exactly the keys "vaults" and "discovery", mapped to the core's key and discovery key |
| Node.StartingLineDeterminesVersion | src/api/peer.js:40 | two equal starting lines report the same version |
| Node.CoreLinesDetermineKeys | src/api/peer.js:83-84 | the core-key and discovery-key lines each determine the key they print |
| Node.ConnectionLinesDetermineValues | src/api/peer.js:93-107 | the connection, data, close and error lines each determine the value they report, and a connection line is never a close line |
| Node.NodeKeyLineDeterminesKey | src/api/peer.js:117 | two equal node-key lines print the same swarm public key |
| Node.StartupLineDeterminesElapsed | src/api/peer.js:118 | two equal startup lines report the same elapsed time, negative times included |
| Node.BroadcastLinesDetermineValues | src/api/peer.js:129-138 | the broadcast-count and broadcast-time lines each determine the number they print |
| Node.Connected | src/api/peer.js:96 | the key of the connection maps to it; every other entry stays; no other key appears |
| Node.Closed | src/api/peer.js:104 | that key is gone; every other entry stays unchanged |
| Node.Fanout | src/api/peer.js:132-134 | one write per snapshot element, every one carrying the broadcast data |
| Node.UpdatesKeepKeying | src/api/peer.js:92-104 | both table updates keep every entry under the hex of its own remote public key |
| Node.OneEntryPerIdentity | src/api/peer.js:92-96 | in such a table one remote public key has at most one entry |
| Node.LaterConnectionWins | src/api/peer.js:92-96 | a later connection from the same remote key overwrites the earlier one |
| Node.DistinctIdentitiesCoexist | src/api/peer.js:92-96 | connections from different remote keys do not displace each other |
| Node.CloseIdempotent | src/api/peer.js:102-105 | deleting twice is deleting once; deleting an absent key changes nothing |
| Node.StaleCloseRemovesNewer | src/api/peer.js:96-104 | the close of a replaced connection removes the newer entry under the same key |
| Node.FanoutAppend | src/api/peer.js:132-134 | one more element of the snapshot adds exactly one write at the end |
| Node.FanoutInOrder | src/api/peer.js:132-134 | one write per snapshot element, the i-th write going to the i-th element |
| Node.FanoutOncePerConnection | src/api/peer.js:127-134 | with distinct connection identities, each snapshot element receives the data exactly once |
| Node.ConfigLevelMatchesFallback | src/api/peer.js:30-38 | the node's own debug/quiet level choice agrees with the logger's fallback for the same flags |
| Node.KeysOverwritten | src/api/peer.js:79-80 | the two `publicKeys.set` calls yield exactly the vaults and discovery keys, from an empty map or from an earlier core's keys |
| Node.Peer.constructor | src/api/peer.js:28-56 | the logger is labelled "Peer" at the configured level with EOL "\n"; the logs folder exists afterwards; booted, boot time now, not started, no start time, no core, empty peers and publicKeys; the "Starting Vaults" line, unless filtered, follows any folder-creation line |
| Node.Peer.Ready | src/api/peer.js:69-119 | started with start time now, the core recorded, publicKeys exactly vaults and discovery, the discovery key joined, the invariant kept, and the four ready lines appended in order, each unless the level filters it; the folder flag is unchanged |
| Node.Peer.Start | src/api/peer.js:75-115 | the state changes of `ready`: core, keys, joined topic, listener and started flag, keeping the invariant |
| Node.Peer.LogReady | src/api/peer.js:83-118 | the core-key, discovery-key, node-key and startup-time lines, in that order and each unless filtered, and nothing in error.log; the folder flag is unchanged |
| Node.Peer.OnConnection | src/api/peer.js:90-111 | before `ready` nothing happens; afterwards the table gains the connection under its key, its listeners are attached, the connection line is logged unless filtered, and the invariant holds; the folder flag is unchanged |
| Node.Peer.Attach | src/api/peer.js:92-107 | the table update and listener registration of one connection, keeping the invariant |
| Node.Peer.OnData | src/api/peer.js:99 | data on a connection with listeners appends its debug line unless the level filters it, as the default "info" does, and changes nothing else; the folder flag is unchanged |
| Node.Peer.OnClose | src/api/peer.js:102-105 | a close listener fires at most once; when it fires it deletes the key it captured and logs the close line unless filtered; otherwise nothing changes; the folder flag is unchanged |
| Node.Peer.Disarm | src/api/peer.js:102-105 | the one-shot listener is removed and its captured key deleted, keeping the invariant |
| Node.Peer.OnError | src/api/peer.js:107 | an error on a connection with listeners is logged to both files; nothing else, and never the table, changes; the folder flag is unchanged |
| Node.Peer.Broadcast | src/api/peer.js:124-139 | exactly one write per connection of the snapshot, in snapshot order; the count and timing debug lines are appended unless filtered; the folder flag is unchanged |
| Node.Peer.WriteAll | src/api/peer.js:132-134 | the writes made are exactly the fan-out of the snapshot |

## Left out

- Console output (`console.log` in `print`) and the extra `opts` argument printed with it: they do not reach the files.
- File I/O: `existsSync`, `mkdirSync` and `appendFileSync` become the `present` flag and the two entry sequences of `LogFiles`; the logs path is a plain string. The Corestore data path (`dataPath`) is not part of this model.
- Clocks: each event method takes one timestamp string for all the lines it writes. The boot, start and broadcast times are integer parameters.
- Hyperswarm and Corestore are abstract inputs:
  - `store.get` and `appstore.ready` give the `Core`;
  - `swarm.keyPair.publicKey` and `swarm.connections` are fields of `Swarm`;
  - the swarm's connection set is a fixed input: a real swarm adds a connection before firing `connection` and drops it on close, but here `Node.Peer.OnConnection` and `Node.Peer.OnClose` do not change what `Node.Peer.Broadcast` writes to;
  - `swarm.join` and `conn.write` are recorded in `Swarm`.
  - `appstore.replicate`, `_teardown`/`swarm.destroy` and `Pear.teardown` are not part of this model.
- `JSON.stringify` of connection data: `Node.Peer.OnData` takes the rendered string. Error values are likewise taken already rendered.
- Failures of foreign calls are not modelled; each is taken to succeed:
  - a rejected `appstore.ready()` (src/api/peer.js:75-76), which would leave `appstore` set while the node is not started;
  - a throwing `conn.write` (src/api/peer.js:133), which would end the broadcast early;
  - a throwing `mkdirSync` or `appendFileSync` (src/api/log.js:46, 87, 91), which would abort the logger's constructor or `print` part-way.
- Configuration loading: debug, quiet and version are parameters.
- `toUpperCase` is modelled on ASCII letters only.
- Numbers of magnitude 10^21 or more, which a template literal renders in exponent form, are not modelled; the node renders only millisecond differences and a connection count.
- The swarm's events arrive as method calls. Concurrency and the asynchronous ordering of callbacks are not modelled.
- Node.Peer.Ready: a second call leaves one connection listener, whereas the code would register a second listener and then handle every connection twice.
- Node.Peer.OnConnection: it requires that the swarm reports each connection identity once.
- Node.Peer.Ready: the four log lines are not interleaved with the state changes as in the code; logging and state are disjoint, so no observable order is lost.
- Logging.Logger.Print: the default level "info" for a call without a level is not modelled, since every caller passes one.
- The Logger's `timestamp()` is not modelled: the UTC date string is a parameter.
