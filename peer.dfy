/** The peer node: its boot/ready lifecycle flags, the table of live
    connections keyed by the hex of each remote public key (updated by the
    swarm's connection and close events), the node's own public keys, and
    the fan-out broadcast over the swarm's connections. */
module Node {
  import opened Runtime
  import Logging

  /** A connection the swarm hands over: an identity for the socket and
      the remote side's public key. */
  datatype Conn = Conn(id: nat, remotePublicKey: seq<byte>)

  /** The application core once it is ready. */
  datatype Core = Core(key: seq<byte>, discoveryKey: seq<byte>)

  /** One `conn.write(data)`. */
  datatype Sent = Sent(conn: nat, data: seq<byte>)

  /** The configuration values the node reads. */
  datatype Config = Config(debug: bool, quiet: bool, version: string)

  /** The swarm, as far as the node uses it: its key pair's public key, its
      current connections (in insertion order), the topics joined and every
      write made to one of its connections. */
  class Swarm {
    const publicKey: seq<byte>
    const connections: seq<Conn>
    var joined: seq<seq<byte>>
    var sent: seq<Sent>

    constructor (publicKey: seq<byte>, connections: seq<Conn>)
      ensures this.publicKey == publicKey && this.connections == connections
      ensures joined == [] && sent == []
    {
      this.publicKey := publicKey;
      this.connections := connections;
      joined := [];
      sent := [];
    }

    /** `swarm.join(topic)`. */
    method Join(topic: seq<byte>)
      modifies this`joined
      ensures joined == old(joined) + [topic]
    {
      joined := joined + [topic];
    }

    /** `conn.write(data)` on the connection with identity `conn`. */
    method WriteTo(conn: nat, data: seq<byte>)
      modifies this`sent
      ensures sent == old(sent) + [Sent(conn, data)]
    {
      sent := sent + [Sent(conn, data)];
    }
  }

  /** The level the node configures its logger with. */
  function ConfigLevel(debug: bool, quiet: bool): (r: string)
    ensures r in Logging.LEVELS
    ensures r == "debug" <==> debug
    ensures r == "error" <==> !debug && quiet
  {
    if debug then "debug" else if quiet then "error" else "info"
  }

  /** The key of a connection in the table: its remote public key in hex. */
  function PeerKey(c: Conn): (r: string)
    ensures |r| == 2 * |c.remotePublicKey|
  {
    Hex(c.remotePublicKey)
  }

  /** The node's public keys once the core is ready. */
  function PublicKeysOf(core: Core): (r: map<string, seq<byte>>)
    ensures r.Keys == {"vaults", "discovery"}
    ensures r["vaults"] == core.key && r["discovery"] == core.discoveryKey
  {
    map["vaults" := core.key, "discovery" := core.discoveryKey]
  }

  // ---------------------------------------------------------------------
  // The lines the node logs

  function StartingMessage(version: string): string { "Starting Vaults v" + version }
  function CoreKeyMessage(core: Core): string { "Vaults main core key => " + Hex(core.key) }
  function DiscoveryKeyMessage(core: Core): string { "Vaults discovery key => " + Hex(core.discoveryKey) }
  function NodeKeyMessage(publicKey: seq<byte>): string { "Your node public key => " + Hex(publicKey) }
  function StartupMessage(elapsed: int): string { "Vaults application startup took " + IntToString(elapsed) + "ms" }
  function ConnectedMessage(key: string): string { "* Connection established with " + key }
  function DataMessage(rendered: string): string { "Intercepted call data: " + rendered }
  function ClosedMessage(key: string): string { "! Connection closed with " + key }
  function ErrorMessage(error: string): string { "Connection error: " + error }
  function BroadcastCountMessage(count: nat): string { "Broadcasting data to " + NatToString(count) + " connected peers." }
  function BroadcastTimeMessage(elapsed: int): string { "Broadcasting to all peers took " + IntToString(elapsed) + "ms" }

  /** The starting line determines the version it reports. */
  lemma StartingLineDeterminesVersion(a: string, b: string)
    requires StartingMessage(a) == StartingMessage(b)
    ensures a == b
  {
    assert StartingMessage(a)[17..] == a && StartingMessage(b)[17..] == b;
  }

  /** The lines of a connection's events are fixed text before the value
      they report, so each determines its value; an open and a close are
      never confused. */
  lemma ConnectionLinesDetermineValues(a: string, b: string)
    ensures ConnectedMessage(a) == ConnectedMessage(b) ==> a == b
    ensures DataMessage(a) == DataMessage(b) ==> a == b
    ensures ClosedMessage(a) == ClosedMessage(b) ==> a == b
    ensures ErrorMessage(a) == ErrorMessage(b) ==> a == b
    ensures ConnectedMessage(a) != ClosedMessage(b)
  {
    assert ConnectedMessage(a)[30..] == a && ConnectedMessage(b)[30..] == b;
    assert DataMessage(a)[23..] == a && DataMessage(b)[23..] == b;
    assert ClosedMessage(a)[25..] == a && ClosedMessage(b)[25..] == b;
    assert ErrorMessage(a)[18..] == a && ErrorMessage(b)[18..] == b;
    assert ConnectedMessage(a)[0] != ClosedMessage(b)[0];
  }

  /** The core-key and discovery-key lines identify the keys they print. */
  lemma CoreLinesDetermineKeys(c1: Core, c2: Core)
    ensures CoreKeyMessage(c1) == CoreKeyMessage(c2) ==> c1.key == c2.key
    ensures DiscoveryKeyMessage(c1) == DiscoveryKeyMessage(c2) ==> c1.discoveryKey == c2.discoveryKey
  {
    if CoreKeyMessage(c1) == CoreKeyMessage(c2) {
      assert CoreKeyMessage(c1)[24..] == Hex(c1.key) && CoreKeyMessage(c2)[24..] == Hex(c2.key);
      HexInjective(c1.key, c2.key);
    }
    if DiscoveryKeyMessage(c1) == DiscoveryKeyMessage(c2) {
      assert DiscoveryKeyMessage(c1)[24..] == Hex(c1.discoveryKey);
      assert DiscoveryKeyMessage(c2)[24..] == Hex(c2.discoveryKey);
      HexInjective(c1.discoveryKey, c2.discoveryKey);
    }
  }

  /** The node-key line identifies the swarm's public key. */
  lemma NodeKeyLineDeterminesKey(p1: seq<byte>, p2: seq<byte>)
    requires NodeKeyMessage(p1) == NodeKeyMessage(p2)
    ensures p1 == p2
  {
    assert NodeKeyMessage(p1)[24..] == Hex(p1) && NodeKeyMessage(p2)[24..] == Hex(p2);
    HexInjective(p1, p2);
  }

  /** The startup line identifies the boot-to-ready time. */
  lemma StartupLineDeterminesElapsed(e1: int, e2: int)
    requires StartupMessage(e1) == StartupMessage(e2)
    ensures e1 == e2
  {
    var i1, i2 := IntToString(e1), IntToString(e2);
    assert StartupMessage(e1)[32..32 + |i1|] == i1 && StartupMessage(e2)[32..32 + |i2|] == i2;
    IntToStringValue(e1, e2);
  }

  /** The two broadcast lines identify the count and the time they print. */
  lemma BroadcastLinesDetermineValues(n1: nat, n2: nat, e1: int, e2: int)
    ensures BroadcastCountMessage(n1) == BroadcastCountMessage(n2) ==> n1 == n2
    ensures BroadcastTimeMessage(e1) == BroadcastTimeMessage(e2) ==> e1 == e2
  {
    if BroadcastCountMessage(n1) == BroadcastCountMessage(n2) {
      var d1, d2 := NatToString(n1), NatToString(n2);
      assert BroadcastCountMessage(n1)[21..21 + |d1|] == d1 && BroadcastCountMessage(n2)[21..21 + |d2|] == d2;
      NatToStringValue(n1);
      NatToStringValue(n2);
    }
    if BroadcastTimeMessage(e1) == BroadcastTimeMessage(e2) {
      var i1, i2 := IntToString(e1), IntToString(e2);
      assert BroadcastTimeMessage(e1)[31..31 + |i1|] == i1 && BroadcastTimeMessage(e2)[31..31 + |i2|] == i2;
      IntToStringValue(e1, e2);
    }
  }

  // ---------------------------------------------------------------------
  // The connection table as a value

  /** `peers.set(PeerKey(c), c)`: the entry for c's key is c, every other
      entry stays. */
  function Connected(peers: map<string, Conn>, c: Conn): (r: map<string, Conn>)
    ensures r.Keys == peers.Keys + {PeerKey(c)}
    ensures r[PeerKey(c)] == c
    ensures forall k :: k in peers && k != PeerKey(c) ==> r[k] == peers[k]
  {
    peers[PeerKey(c) := c]
  }

  /** `peers.delete(key)`: that key is gone, every other entry stays. */
  function Closed(peers: map<string, Conn>, key: string): (r: map<string, Conn>)
    ensures r.Keys == peers.Keys - {key}
    ensures forall k :: k in r ==> r[k] == peers[k]
  {
    peers - {key}
  }

  /** Every entry is stored under the hex of its own remote public key. */
  predicate KeyedByIdentity(peers: map<string, Conn>)
  {
    forall k :: k in peers ==> k == PeerKey(peers[k])
  }

  /** The writes `broadcast` makes for a snapshot: one per element, in order. */
  function Fanout(snapshot: seq<Conn>, data: seq<byte>): (r: seq<Sent>)
    ensures |r| == |snapshot|
    ensures forall w :: w in r ==> w.data == data
  {
    if snapshot == [] then [] else [Sent(snapshot[0].id, data)] + Fanout(snapshot[1..], data)
  }

  predicate DistinctIds(s: seq<Conn>)
  {
    forall i, j :: 0 <= i < j < |s| ==> s[i].id != s[j].id
  }

  // ---------------------------------------------------------------------
  // Properties of the table

  /** Both table updates keep every entry under its own identity's key. */
  lemma UpdatesKeepKeying(peers: map<string, Conn>, c: Conn, key: string)
    requires KeyedByIdentity(peers)
    ensures KeyedByIdentity(Connected(peers, c))
    ensures KeyedByIdentity(Closed(peers, key))
  {
  }

  /** In a table keyed by identity, one remote public key has one entry. */
  lemma OneEntryPerIdentity(peers: map<string, Conn>, k1: string, k2: string)
    requires KeyedByIdentity(peers)
    requires k1 in peers && k2 in peers
    requires peers[k1].remotePublicKey == peers[k2].remotePublicKey
    ensures k1 == k2
  {
  }

  /** A second connection from the same remote key replaces the first. */
  lemma LaterConnectionWins(peers: map<string, Conn>, c1: Conn, c2: Conn)
    requires c1.remotePublicKey == c2.remotePublicKey
    ensures Connected(Connected(peers, c1), c2) == Connected(peers, c2)
  {
  }

  /** Connections from different remote keys never displace each other. */
  lemma DistinctIdentitiesCoexist(peers: map<string, Conn>, c1: Conn, c2: Conn)
    requires c1.remotePublicKey != c2.remotePublicKey
    ensures PeerKey(c1) in Connected(Connected(peers, c1), c2)
    ensures Connected(Connected(peers, c1), c2)[PeerKey(c1)] == c1
    ensures Connected(Connected(peers, c1), c2)[PeerKey(c2)] == c2
  {
    if PeerKey(c1) == PeerKey(c2) {
      HexInjective(c1.remotePublicKey, c2.remotePublicKey);
    }
  }

  /** Deleting is idempotent, and deleting an absent key changes nothing. */
  lemma CloseIdempotent(peers: map<string, Conn>, key: string)
    ensures Closed(Closed(peers, key), key) == Closed(peers, key)
    ensures key !in peers ==> Closed(peers, key) == peers
  {
  }

  /** Close deletes by key, not by connection: when a newer connection from
      the same remote key has replaced an older one, the older one's close
      removes the newer, still open, entry. */
  lemma StaleCloseRemovesNewer(peers: map<string, Conn>, older: Conn, newer: Conn)
    requires older.remotePublicKey == newer.remotePublicKey
    ensures PeerKey(newer) !in Closed(Connected(Connected(peers, older), newer), PeerKey(older))
  {
  }

  // ---------------------------------------------------------------------
  // Properties of the fan-out

  lemma {:induction false} FanoutAppend(s: seq<Conn>, c: Conn, data: seq<byte>)
    ensures Fanout(s + [c], data) == Fanout(s, data) + [Sent(c.id, data)]
  {
    if s != [] {
      assert (s + [c])[1..] == s[1..] + [c];
      FanoutAppend(s[1..], c, data);
    }
  }

  /** Write number i goes to snapshot element i, and there are as many
      writes as elements. */
  lemma {:induction false} FanoutInOrder(s: seq<Conn>, data: seq<byte>)
    ensures |Fanout(s, data)| == |s|
    ensures forall i :: 0 <= i < |s| ==> Fanout(s, data)[i] == Sent(s[i].id, data)
  {
    if s != [] {
      FanoutInOrder(s[1..], data);
    }
  }

  /** With distinct connection identities, each element of the snapshot is
      written to exactly once. */
  lemma {:induction false} FanoutOncePerConnection(s: seq<Conn>, data: seq<byte>, i: nat)
    requires DistinctIds(s) && i < |s|
    ensures multiset(Fanout(s, data))[Sent(s[i].id, data)] == 1
  {
    if i == 0 {
      FanoutInOrder(s[1..], data);
      forall k | 0 <= k < |s[1..]| ensures Fanout(s[1..], data)[k] != Sent(s[0].id, data) {
        assert s[1..][k] == s[k + 1];
      }
      assert Sent(s[0].id, data) !in Fanout(s[1..], data);
    } else {
      assert DistinctIds(s[1..]) by {
        forall a, b | 0 <= a < b < |s[1..]| ensures s[1..][a].id != s[1..][b].id {
          assert s[1..][a] == s[a + 1] && s[1..][b] == s[b + 1];
        }
      }
      assert s[1..][i - 1] == s[i];
      FanoutOncePerConnection(s[1..], data, i - 1);
      assert s[0].id != s[i].id;
    }
  }

  /** The node's Logger configuration agrees with the Logger's own
      debug/quiet fallback. */
  lemma ConfigLevelMatchesFallback(debug: bool, quiet: bool)
    ensures Logging.ResolveLevel(Some(Logging.Options(Undefined, Str("Peer"), Null, debug, quiet)))
            == Str(ConfigLevel(debug, quiet))
  {
  }

  /** The two property writes of `ready` give the same object whether
      they start from the empty one or from the keys of an earlier core. */
  lemma KeysOverwritten(m: map<string, seq<byte>>, core: Core)
    requires m.Keys <= {"vaults", "discovery"}
    ensures m["vaults" := core.key]["discovery" := core.discoveryKey] == PublicKeysOf(core)
  {
  }

  // ---------------------------------------------------------------------
  // The node

  class Peer {
    const logger: Logging.Logger
    const swarm: Swarm

    var booted: bool
    var bootedAt: int
    var started: bool
    var startedAt: Option<int>
    var appstore: Option<Core>
    /** Live connections by hex remote public key. */
    var peers: map<string, Conn>
    var publicKeys: map<string, seq<byte>>

    /** Whether the swarm's connection listener is registered. */
    var listening: bool
    /** Connections whose data and error listeners are attached, with the
        key their handlers captured. */
    var handlers: map<nat, string>
    /** Connections whose one-shot close listener has not fired yet, with
        the key it will delete. */
    var closeArmed: map<nat, string>

    ghost predicate Valid()
      reads this
    {
      && booted
      && (started <==> startedAt.Some?)
      && (started <==> listening)
      && (started ==> appstore.Some? && publicKeys == PublicKeysOf(appstore.value))
      && (!started ==> appstore.None? && publicKeys == map[] && peers == map[] && handlers == map[])
      && KeyedByIdentity(peers)
      && (forall id :: id in closeArmed ==> id in handlers && closeArmed[id] == handlers[id])
    }

    constructor (config: Config, files: Logging.LogFiles, swarm: Swarm, timestamp: string, now: int)
      modifies files
      ensures Valid()
      ensures this.swarm == swarm && logger.files == files
      ensures logger.Level() == Str(ConfigLevel(config.debug, config.quiet)) && logger.Label() == Str("Peer")
      ensures booted && bootedAt == now && !started && startedAt == None && appstore == None
      ensures peers == map[] && publicKeys == map[]
      ensures files.vfunctions == old(files.vfunctions)
                + (if old(files.present) then [] else logger.Emit("debug", "Created logs folder at " + files.path, timestamp))
                + logger.Emit("info", StartingMessage(config.version), timestamp)
      ensures files.errors == old(files.errors)
      ensures files.present && logger.eol == "\n"
    {
      var level := ConfigLevel(config.debug, config.quiet);
      var logger := new Logging.Logger(Some(Logging.Options(Undefined, Str("Peer"), Str(level), false, false)), files, timestamp);
      logger.Info(StartingMessage(config.version), timestamp);
      this.logger := logger;
      this.swarm := swarm;
      booted := true;
      bootedAt := now;
      started := false;
      startedAt := None;
      appstore := None;
      peers := map[];
      publicKeys := map[];
      listening := false;
      handlers := map[];
      closeArmed := map[];
    }

    /** `ready()`: records the core and the node's public keys, joins the
        swarm on the discovery key, starts listening for connections and
        marks the node started. */
    method Ready(core: Core, timestamp: string, now: int)
      requires Valid()
      modifies this`appstore, this`publicKeys, this`listening, this`started, this`startedAt
      modifies swarm`joined, logger.files
      ensures Valid()
      ensures started && startedAt == Some(now) && appstore == Some(core)
      ensures publicKeys == PublicKeysOf(core)
      ensures swarm.joined == old(swarm.joined) + [core.discoveryKey]
      ensures logger.files.vfunctions == old(logger.files.vfunctions)
                + logger.Emit("info", CoreKeyMessage(core), timestamp)
                + logger.Emit("info", DiscoveryKeyMessage(core), timestamp)
                + logger.Emit("info", NodeKeyMessage(swarm.publicKey), timestamp)
                + logger.Emit("debug", StartupMessage(now - old(bootedAt)), timestamp)
      ensures logger.files.errors == old(logger.files.errors)
      ensures logger.files.present == old(logger.files.present)
    {
      var elapsed := now - bootedAt;
      ghost var logged := logger.files.vfunctions;
      Start(core, now);
      assert logger.files.vfunctions == logged;
      LogReady(core, timestamp, elapsed);
    }

    /** The state changes of `ready()`. */
    method Start(core: Core, now: int)
      requires Valid()
      modifies this`appstore, this`publicKeys, this`listening, this`started, this`startedAt
      modifies swarm`joined
      ensures Valid()
      ensures started && startedAt == Some(now) && appstore == Some(core)
      ensures publicKeys == PublicKeysOf(core)
      ensures swarm.joined == old(swarm.joined) + [core.discoveryKey]
    {
      KeysOverwritten(publicKeys, core);
      appstore := Some(core);
      publicKeys := publicKeys["vaults" := core.key];
      publicKeys := publicKeys["discovery" := core.discoveryKey];
      swarm.Join(core.discoveryKey);
      listening := true;
      started := true;
      startedAt := Some(now);
    }

    /** The four lines `ready()` writes, in order. */
    method LogReady(core: Core, timestamp: string, elapsed: int)
      modifies logger.files
      ensures logger.files.vfunctions == old(logger.files.vfunctions)
                + logger.Emit("info", CoreKeyMessage(core), timestamp)
                + logger.Emit("info", DiscoveryKeyMessage(core), timestamp)
                + logger.Emit("info", NodeKeyMessage(swarm.publicKey), timestamp)
                + logger.Emit("debug", StartupMessage(elapsed), timestamp)
      ensures logger.files.errors == old(logger.files.errors)
      ensures logger.files.present == old(logger.files.present)
    {
      logger.Info(CoreKeyMessage(core), timestamp);
      logger.Info(DiscoveryKeyMessage(core), timestamp);
      logger.Info(NodeKeyMessage(swarm.publicKey), timestamp);
      logger.Debug(StartupMessage(elapsed), timestamp);
    }

    /** The swarm's `connection` event: once listening, the connection is
        stored under its key (replacing any earlier one), and its data,
        error and one-shot close listeners are attached. Before `ready`
        no listener exists and nothing happens. */
    method OnConnection(conn: Conn, timestamp: string)
      requires Valid()
      requires conn.id !in handlers
      modifies this`peers, this`handlers, this`closeArmed, logger.files
      ensures Valid()
      ensures listening ==> peers == Connected(old(peers), conn)
      ensures listening ==> handlers == old(handlers)[conn.id := PeerKey(conn)]
      ensures listening ==> closeArmed == old(closeArmed)[conn.id := PeerKey(conn)]
      ensures listening ==> (logger.files.vfunctions == old(logger.files.vfunctions)
                + logger.Emit("info", ConnectedMessage(PeerKey(conn)), timestamp))
      ensures !listening ==> peers == old(peers) && handlers == old(handlers) && closeArmed == old(closeArmed)
      ensures !listening ==> logger.files.vfunctions == old(logger.files.vfunctions)
      ensures logger.files.errors == old(logger.files.errors)
      ensures logger.files.present == old(logger.files.present)
    {
      if !listening {
        return;
      }
      logger.Info(ConnectedMessage(PeerKey(conn)), timestamp);
      Attach(conn);
    }

    /** The state changes of the `connection` listener. */
    method Attach(conn: Conn)
      requires Valid() && listening
      requires conn.id !in handlers
      modifies this`peers, this`handlers, this`closeArmed
      ensures Valid()
      ensures peers == Connected(old(peers), conn)
      ensures handlers == old(handlers)[conn.id := PeerKey(conn)]
      ensures closeArmed == old(closeArmed)[conn.id := PeerKey(conn)]
    {
      var publicKey := PeerKey(conn);
      peers := peers[publicKey := conn];
      handlers := handlers[conn.id := publicKey];
      closeArmed := closeArmed[conn.id := publicKey];
    }

    /** A connection's `data` event: the data is only logged, never
        dispatched. */
    method OnData(id: nat, rendered: string, timestamp: string)
      modifies logger.files
      ensures id in handlers ==> (logger.files.vfunctions == old(logger.files.vfunctions)
                + logger.Emit("debug", DataMessage(rendered), timestamp))
      ensures id !in handlers ==> logger.files.vfunctions == old(logger.files.vfunctions)
      ensures logger.files.errors == old(logger.files.errors)
      ensures logger.files.present == old(logger.files.present)
    {
      if id in handlers {
        logger.Debug(DataMessage(rendered), timestamp);
      }
    }

    /** A connection's `close` event: its one-shot listener, if it has not
        fired yet, deletes the key it captured and is then gone. */
    method OnClose(id: nat, timestamp: string)
      requires Valid()
      modifies this`peers, this`closeArmed, logger.files
      ensures Valid()
      ensures id !in closeArmed
      ensures id in old(closeArmed) ==> peers == Closed(old(peers), old(closeArmed)[id])
      ensures id in old(closeArmed) ==> closeArmed == old(closeArmed) - {id}
      ensures id in old(closeArmed) ==> (logger.files.vfunctions == old(logger.files.vfunctions)
                + logger.Emit("info", ClosedMessage(old(closeArmed)[id]), timestamp))
      ensures id !in old(closeArmed) ==> peers == old(peers) && closeArmed == old(closeArmed)
      ensures id !in old(closeArmed) ==> logger.files.vfunctions == old(logger.files.vfunctions)
      ensures logger.files.errors == old(logger.files.errors)
      ensures logger.files.present == old(logger.files.present)
    {
      if id !in closeArmed {
        return;
      }
      logger.Info(ClosedMessage(closeArmed[id]), timestamp);
      Disarm(id);
    }

    /** The state changes of a connection's one-shot `close` listener. */
    method Disarm(id: nat)
      requires Valid() && id in closeArmed
      modifies this`peers, this`closeArmed
      ensures Valid()
      ensures peers == Closed(old(peers), old(closeArmed)[id])
      ensures closeArmed == old(closeArmed) - {id}
    {
      var publicKey := closeArmed[id];
      closeArmed := closeArmed - {id};
      peers := peers - {publicKey};
    }

    /** A connection's `error` event: logged as an error, nothing else. */
    method OnError(id: nat, error: string, timestamp: string)
      modifies logger.files
      ensures id in handlers ==> (logger.files.vfunctions == old(logger.files.vfunctions)
                + logger.Emit("error", ErrorMessage(error), timestamp))
      ensures id in handlers ==> (logger.files.errors == old(logger.files.errors)
                + logger.Emit("error", ErrorMessage(error), timestamp))
      ensures id !in handlers ==> logger.files.vfunctions == old(logger.files.vfunctions)
      ensures id !in handlers ==> logger.files.errors == old(logger.files.errors)
      ensures logger.files.present == old(logger.files.present)
    {
      if id in handlers {
        logger.Error(ErrorMessage(error), timestamp);
      }
    }

    /** `broadcast(data)`: copies the swarm's connections, then writes the
        data to each copied connection once, in order. */
    method Broadcast(data: seq<byte>, timestamp: string, clockStart: int, clockEnd: int)
      modifies swarm`sent, logger.files
      ensures swarm.sent == old(swarm.sent) + Fanout(swarm.connections, data)
      ensures logger.files.vfunctions == old(logger.files.vfunctions)
                + logger.Emit("debug", BroadcastCountMessage(|swarm.connections|), timestamp)
                + logger.Emit("debug", BroadcastTimeMessage(clockEnd - clockStart), timestamp)
      ensures logger.files.errors == old(logger.files.errors)
      ensures logger.files.present == old(logger.files.present)
    {
      var snapshot := swarm.connections;
      logger.Debug(BroadcastCountMessage(|snapshot|), timestamp);
      WriteAll(snapshot, data);
      logger.Debug(BroadcastTimeMessage(clockEnd - clockStart), timestamp);
    }

    /** The loop of `broadcast`: one write per element of the snapshot. */
    method WriteAll(snapshot: seq<Conn>, data: seq<byte>)
      modifies swarm`sent
      ensures swarm.sent == old(swarm.sent) + Fanout(snapshot, data)
    {
      var i := 0;
      while i < |snapshot|
        invariant 0 <= i <= |snapshot|
        invariant swarm.sent == old(swarm.sent) + Fanout(snapshot[..i], data)
      {
        swarm.WriteTo(snapshot[i].id, data);
        FanoutAppend(snapshot[..i], snapshot[i], data);
        assert snapshot[..i + 1] == snapshot[..i] + [snapshot[i]];
        i := i + 1;
      }
      assert snapshot[..i] == snapshot;
    }
  }
}
