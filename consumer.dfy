/** The message consumer: splits an incoming buffer at its first space
    after the leading byte into a protocol tag and a payload, and routes it
    by exact tag equality to the handshake branch, the end-of-message branch
    or the unknown-data branch. */
module Dispatch {
  import opened Runtime
  import Logging

  const SPACE: byte := 0x20

  /** "\x00\x01\x01\x0fhypercore/alpha", 19 bytes. */
  const MSG_HYPERCORE_ALPHA: seq<byte> :=
    [0x00, 0x01, 0x01, 0x0f, 0x68, 0x79, 0x70, 0x65, 0x72, 0x63, 0x6f, 0x72, 0x65, 0x2f, 0x61, 0x6c, 0x70, 0x68, 0x61]

  /** The end-of-message sentinel, 8 bytes. */
  const MSG_END_OF_MESSAGE: seq<byte> := [0x00, 0x00, 0x01, 0x05, 0x00, 0x07, 0x00, 0x00]

  /** Bytes of the handshake payload read as the topic. */
  const TOPIC_LENGTH: nat := 32

  /** Bytes of the initiator shown as the peer identifier. */
  const PEER_ID_LENGTH: nat := 8

  datatype Frame = Frame(tag: seq<byte>, payload: seq<byte>)

  /** The three ways `handle` can end. */
  datatype Outcome =
    | Handshake(peer: seq<byte>, topic: seq<byte>)
    | EndOfMessage
    | Unknown(data: seq<byte>)

  /** True when no byte at position 1 or later is a space. */
  predicate NoSpaceAfterFirst(s: seq<byte>)
  {
    forall j :: 1 <= j < |s| ==> s[j] != SPACE
  }

  /** `data.indexOf(' ', 1)` followed by `subarray(0, at)` and
      `subarray(at + 1)`; when no space is found `at` is -1, the tag loses
      its last byte and the payload is the whole buffer. */
  function Split(data: seq<byte>): (f: Frame)
    ensures f.tag <= data
    ensures NoSpaceAfterFirst(f.tag)
    ensures data == f.tag + [SPACE] + f.payload || f.payload == data
  {
    var at := IndexOf(data, SPACE, 1);
    Frame(Subarray(data, 0, at), Subarray(data, at + 1, |data|))
  }

  /** `initiator.subarray(0, 8)`. */
  function PeerIdentifier(initiator: seq<byte>): (r: seq<byte>)
    ensures r <= initiator
    ensures |r| == if |initiator| < PEER_ID_LENGTH then |initiator| else PEER_ID_LENGTH
  {
    Subarray(initiator, 0, PEER_ID_LENGTH)
  }

  /** The branch `handle(initiator, data)` takes, with the values it
      reports there. */
  function Classify(initiator: seq<byte>, data: seq<byte>): (o: Outcome)
    ensures o.Handshake? <==> Split(data).tag == MSG_HYPERCORE_ALPHA
    ensures o.EndOfMessage? <==> Split(data).tag == MSG_END_OF_MESSAGE
    ensures o.Handshake? ==> o.peer == PeerIdentifier(initiator)
    ensures o.Handshake? ==> o.topic <= Split(data).payload
    ensures o.Handshake? ==>
              |o.topic| == if |Split(data).payload| < TOPIC_LENGTH then |Split(data).payload| else TOPIC_LENGTH
    ensures o.Unknown? <==> Split(data).tag != MSG_HYPERCORE_ALPHA && Split(data).tag != MSG_END_OF_MESSAGE
    ensures o.Unknown? ==> o.data == data
  {
    var peerIdentifier := PeerIdentifier(initiator);
    var frame := Split(data);
    if frame.tag == MSG_HYPERCORE_ALPHA then
      Handshake(peerIdentifier, Subarray(frame.payload, 0, TOPIC_LENGTH))
    else if frame.tag == MSG_END_OF_MESSAGE then
      EndOfMessage
    else
      Unknown(data)
  }

  /** The debug line `handle` writes, if any. */
  function LogMessage(o: Outcome): (m: Option<string>)
    ensures m.None? <==> o.EndOfMessage?
  {
    match o
    case Handshake(peer, topic) => Some("* Received handshake from " + Hex(peer) + " for topic " + Hex(topic))
    case EndOfMessage => None
    case Unknown(data) => Some("? Received unknown data sequence: " + Hex(data))
  }

  /** The options the consumer builds its logger with: a label, the
      configured debug and quiet flags, and no level at all. */
  function ConsumerLoggerOptions(debug: bool, quiet: bool): (o: Logging.Options)
    ensures Logging.ResolveLevel(Some(o)) == Undefined
    ensures Logging.ResolveLabel(Some(o)) == Str("Consumer")
    ensures Logging.ResolveEol(Some(o)) == "\n"
    ensures o.debug == debug && o.quiet == quiet
  {
    Logging.Options(Undefined, Str("Consumer"), Undefined, debug, quiet)
  }

  // ---------------------------------------------------------------------
  // The split point

  /** With a space at some position s >= 1 and none in between, the tag is
      everything before s and the payload everything after it. */
  lemma SplitAtFirstSpace(data: seq<byte>, s: nat)
    requires 1 <= s < |data| && data[s] == SPACE
    requires forall j :: 1 <= j < s ==> data[j] != SPACE
    ensures Split(data) == Frame(data[..s], data[s + 1..])
  {
  }

  /** Without a space at position 1 or later the buffer is not rejected:
      the tag is the buffer minus its last byte (empty for an empty buffer)
      and the payload is the whole buffer. */
  lemma SplitWithoutSpace(data: seq<byte>)
    requires NoSpaceAfterFirst(data)
    ensures Split(data).tag == if data == [] then [] else data[..|data| - 1]
    ensures Split(data).payload == data
  {
  }

  /** A space at offset 0 is never the split point: the first byte always
      belongs to the tag. */
  lemma FirstByteInTag(data: seq<byte>)
    requires |data| >= 2
    ensures |Split(data).tag| >= 1 && Split(data).tag[0] == data[0]
  {
  }

  /** Reassembling a tag that has no space after its first byte with a
      space and any payload gives back that tag and payload. */
  lemma RoundTrip(tag: seq<byte>, payload: seq<byte>)
    requires |tag| >= 1 && NoSpaceAfterFirst(tag)
    ensures Split(tag + [SPACE] + payload) == Frame(tag, payload)
  {
    var data := tag + [SPACE] + payload;
    SplitAtFirstSpace(data, |tag|);
    assert data[..|tag|] == tag;
    assert data[|tag| + 1..] == payload;
  }

  /** The round trip needs a non-empty tag: the delimiter of an empty tag
      sits at offset 0, where the search never looks, so for no payload
      does the empty tag come back; with a payload the leading space is
      taken for the first byte of the tag. */
  lemma EmptyTagNotRecovered(payload: seq<byte>)
    ensures Split([SPACE] + payload) != Frame([], payload)
    ensures payload == [] ==> Split([SPACE]) == Frame([], [SPACE])
    ensures payload != [] ==> |Split([SPACE] + payload).tag| >= 1 && Split([SPACE] + payload).tag[0] == SPACE
  {
    if payload == [] {
      SplitWithoutSpace([SPACE]);
    } else {
      FirstByteInTag([SPACE] + payload);
    }
  }

  // ---------------------------------------------------------------------
  // Dispatch

  lemma TagsHaveNoSpace()
    ensures NoSpaceAfterFirst(MSG_HYPERCORE_ALPHA) && SPACE !in MSG_HYPERCORE_ALPHA
    ensures NoSpaceAfterFirst(MSG_END_OF_MESSAGE) && SPACE !in MSG_END_OF_MESSAGE
    ensures MSG_HYPERCORE_ALPHA != MSG_END_OF_MESSAGE
  {
  }

  /** A handshake frame reaches the handshake branch; its topic is the first
      32 payload bytes and the trailer after them is ignored. */
  lemma HandshakeTopic(initiator: seq<byte>, topic: seq<byte>, trailer: seq<byte>)
    requires |topic| == TOPIC_LENGTH
    ensures Classify(initiator, MSG_HYPERCORE_ALPHA + [SPACE] + topic + trailer)
            == Handshake(PeerIdentifier(initiator), topic)
  {
    TagsHaveNoSpace();
    RoundTrip(MSG_HYPERCORE_ALPHA, topic + trailer);
    assert MSG_HYPERCORE_ALPHA + [SPACE] + topic + trailer == MSG_HYPERCORE_ALPHA + [SPACE] + (topic + trailer);
    assert (topic + trailer)[0..TOPIC_LENGTH] == topic;
  }

  /** Every end-of-message frame, whatever follows the delimiter, ends in
      the end-of-message branch. */
  lemma EndOfMessageReached(initiator: seq<byte>, payload: seq<byte>)
    ensures Classify(initiator, MSG_END_OF_MESSAGE + [SPACE] + payload) == EndOfMessage
  {
    TagsHaveNoSpace();
    RoundTrip(MSG_END_OF_MESSAGE, payload);
  }

  /** Matching is exact equality: a tag that extends the handshake tag by a
      byte is unknown, and the whole buffer is reported. */
  lemma ExtendedTagIsUnknown(initiator: seq<byte>, extra: byte, payload: seq<byte>)
    requires extra != SPACE
    ensures Classify(initiator, MSG_HYPERCORE_ALPHA + [extra, SPACE] + payload)
            == Unknown(MSG_HYPERCORE_ALPHA + [extra, SPACE] + payload)
  {
    TagsHaveNoSpace();
    var tag := MSG_HYPERCORE_ALPHA + [extra];
    assert NoSpaceAfterFirst(tag);
    RoundTrip(tag, payload);
    assert MSG_HYPERCORE_ALPHA + [extra, SPACE] + payload == tag + [SPACE] + payload;
    assert |tag| != |MSG_HYPERCORE_ALPHA|;
  }

  /** A buffer with no delimiter at all is still dispatched: the handshake
      tag followed by one more non-space byte lands in the handshake branch,
      and its "topic" is read from the start of the buffer itself. */
  lemma UndelimitedHandshake(initiator: seq<byte>, last: byte)
    requires last != SPACE
    ensures Classify(initiator, MSG_HYPERCORE_ALPHA + [last])
            == Handshake(PeerIdentifier(initiator), MSG_HYPERCORE_ALPHA + [last])
  {
    TagsHaveNoSpace();
    var data := MSG_HYPERCORE_ALPHA + [last];
    assert NoSpaceAfterFirst(data);
    SplitWithoutSpace(data);
    assert data[..|data| - 1] == MSG_HYPERCORE_ALPHA;
  }

  /** The consumer's logger is built without a level, so the debug/quiet
      fallback never runs and every line it is given is written. */
  lemma ConsumerLoggerKeepsEverything(debug: bool, quiet: bool, level: string)
    ensures Logging.ResolveLevel(Some(ConsumerLoggerOptions(debug, quiet))) == Undefined
    ensures !Logging.Dropped(level, Logging.EffectiveLevel(Logging.ResolveLevel(Some(ConsumerLoggerOptions(debug, quiet)))))
  {
    Logging.UndefinedLevelDisablesFilter(ConsumerLoggerOptions(debug, quiet), level);
  }

  // ---------------------------------------------------------------------
  // What gets logged

  /** The unknown branch logs the whole buffer, not just its tag: two
      unknown buffers with the same log line are the same buffer. */
  lemma UnknownLogsWholeData(initiator: seq<byte>, a: seq<byte>, b: seq<byte>)
    requires Classify(initiator, a).Unknown? && Classify(initiator, b).Unknown?
    requires LogMessage(Classify(initiator, a)) == LogMessage(Classify(initiator, b))
    ensures a == b
  {
    var prefix := "? Received unknown data sequence: ";
    assert (prefix + Hex(a))[|prefix|..] == Hex(a);
    assert (prefix + Hex(b))[|prefix|..] == Hex(b);
    HexInjective(a, b);
  }

  /** Two hexadecimal renderings joined by a separator that starts with a
      space can be taken apart again: the space cannot occur inside a
      rendering, so the first rendering ends where the separator begins. */
  lemma {:induction false} SeparatedRenderings(a1: seq<byte>, b1: seq<byte>, a2: seq<byte>, b2: seq<byte>, sep: string)
    requires |sep| >= 1 && sep[0] == ' '
    requires Hex(a1) + sep + Hex(b1) == Hex(a2) + sep + Hex(b2)
    ensures a1 == a2 && b1 == b2
  {
    var s := Hex(a1) + sep + Hex(b1);
    var k1, k2 := |Hex(a1)|, |Hex(a2)|;
    if k1 < k2 {
      assert s[k1] == ' ' && s[k1] == Hex(a2)[k1];
      HexDigits(a2, k1);
      assert false;
    } else if k2 < k1 {
      assert s[k2] == ' ' && s[k2] == Hex(a1)[k2];
      HexDigits(a1, k2);
      assert false;
    }
    assert Hex(a1) == s[..k1] == Hex(a2);
    assert Hex(b1) == s[k1 + |sep|..] == Hex(b2);
    HexInjective(a1, a2);
    HexInjective(b1, b2);
  }

  /** The handshake line names both the peer and the topic unambiguously:
      two handshakes with the same line have the same peer identifier and
      the same topic. */
  lemma HandshakeLogDeterminesPeerAndTopic(p1: seq<byte>, t1: seq<byte>, p2: seq<byte>, t2: seq<byte>)
    requires LogMessage(Handshake(p1, t1)) == LogMessage(Handshake(p2, t2))
    ensures p1 == p2 && t1 == t2
  {
    var prefix := "* Received handshake from ";
    var sep := " for topic ";
    var m1 := prefix + Hex(p1) + sep + Hex(t1);
    var m2 := prefix + Hex(p2) + sep + Hex(t2);
    assert m1[|prefix|..] == Hex(p1) + sep + Hex(t1);
    assert m2[|prefix|..] == Hex(p2) + sep + Hex(t2);
    SeparatedRenderings(p1, t1, p2, t2, sep);
  }

  /** The consumer: a logger labelled "Consumer" and the `handle` entry
      point. */
  class Consumer {
    const logger: Logging.Logger

    /** The logger was built from `ConsumerLoggerOptions`. */
    ghost predicate Valid()
    {
      && logger.labelValue == Str("Consumer")
      && logger.level == Undefined
      && logger.eol == "\n"
    }

    constructor (debug: bool, quiet: bool, files: Logging.LogFiles, timestamp: string)
      modifies files
      ensures Valid() && logger.files == files
      ensures files.present
      ensures files.vfunctions == old(files.vfunctions) +
                (if old(files.present) then [] else logger.Emit("debug", "Created logs folder at " + files.path, timestamp))
      ensures files.errors == old(files.errors)
    {
      logger := new Logging.Logger(Some(ConsumerLoggerOptions(debug, quiet)), files, timestamp);
    }

    /** `handle(initiator, data)`: an end-of-message frame writes nothing;
        any other frame writes exactly its debug line, whatever the
        configured debug and quiet flags were. */
    method Handle(initiator: seq<byte>, data: seq<byte>, timestamp: string)
      requires Valid()
      modifies logger.files
      ensures Classify(initiator, data).EndOfMessage? ==> logger.files.vfunctions == old(logger.files.vfunctions)
      ensures !Classify(initiator, data).EndOfMessage? ==>
                logger.files.vfunctions == old(logger.files.vfunctions)
                  + [Logging.Line(timestamp, Str("Consumer"), "debug", LogMessage(Classify(initiator, data)).value) + "\n"]
      ensures logger.files.errors == old(logger.files.errors)
      ensures logger.files.present == old(logger.files.present)
    {
      var outcome := Classify(initiator, data);
      var message := LogMessage(outcome);
      if message.Some? {
        Logging.UnfilteredEmit(logger, "debug", message.value, timestamp);
        logger.Debug(message.value, timestamp);
      }
    }
  }
}
