/**
 * A session of the proxy: one client connection bridged to one backend server, with the
 * login that brings the backend connection up, the transfer to another backend, the
 * tracking sets of what the client sees, and the exactly-once teardown.
 *
 * Locks and goroutines are erased: each operation runs as one sequential step. Network
 * results (dial, spawn, login) and the handler's choices are parameters. The session's
 * effects on the outside world are recorded in logs: the packets written to the client,
 * the dial requests made, the handler callbacks made and the connections closed.
 */
module Session {
  import opened Base
  import opened Protocol
  import opened DimensionChange
  import opened PlayerCounts

  datatype Error =
    | NoServerAvailable    // "load balancer did not return a server for the player to join"
    | AlreadyTransferring  // "already being transferred"

  /** The session's event handler: the no-op default, or one installed by a plugin. */
  datatype Handler = NopHandler | PluginHandler(id: nat)

  /** How the handler's HandleTransfer leaves the event context: continued or cancelled. */
  datatype Decision = Continue | Cancel

  /** A callback the session made into its handler. */
  datatype HandlerCall =
    | HandleTransfer(handler: Handler, destination: Server)
    | HandleQuit(handler: Handler)

  /** The transfer's continuation runs: the no-op handler never cancels. */
  predicate Proceeds(h: Handler, decision: Decision) {
    h.NopHandler? || decision == Continue
  }

  /** `order` lists every member of `s` exactly once: one way the set's Each can visit it. */
  ghost predicate Enumerates<T>(order: seq<T>, s: set<T>) {
    && (forall i, j :: 0 <= i < j < |order| ==> order[i] != order[j])
    && (forall i :: 0 <= i < |order| ==> order[i] in s)
    && (forall x :: x in s ==> x in order)
  }

  /** An enumeration of a set is as long as the set is large. */
  lemma {:induction false} EnumerationLength<T>(order: seq<T>, s: set<T>)
    requires Enumerates(order, s)
    ensures |order| == |s|
  {
    if order == [] {
      assert forall x :: x !in s;
      assert s == {};
    } else {
      var last := order[|order| - 1];
      var rest := order[..|order| - 1];
      assert order == rest + [last];
      forall x | x in s - {last} ensures x in rest {
        assert x in order;
      }
      assert Enumerates(rest, s - {last});
      EnumerationLength(rest, s - {last});
    }
  }

  /** The packets written for the members in `order`, one each. */
  function Packets<T>(order: seq<T>, removal: T -> Packet): (ps: seq<Packet>)
    ensures |ps| == |order|
    ensures forall i :: 0 <= i < |order| ==> ps[i] == removal(order[i])
  {
    seq(|order|, i requires 0 <= i < |order| => removal(order[i]))
  }

  /** A slice of n zero-valued player-list entries, as make([]PlayerListEntry, n) builds. */
  function ZeroEntries(n: nat): (r: seq<Uuid>)
    ensures |r| == n && forall i :: 0 <= i < n ==> r[i] == ZeroUuid
  {
    seq(n, _ => ZeroUuid)
  }

  function RemoveActorPacket(id: int64): Packet { RemoveActor(id) }
  function HideBossBarPacket(b: int64): Packet { BossEvent(b, BossEventHide) }
  function RemoveObjectivePacket(name: string): Packet { RemoveObjective(name) }
  function RemoveEffectPacket(runtimeId: uint64): int32 -> Packet {
    i => MobEffect(runtimeId, MobEffectRemove, i)
  }

  /** The session store shared by all sessions of the proxy, as the set of stored UUIDs. */
  class Store {
    var ids: set<Uuid>
  }

  /** The live player counters of the backend servers, shared by all sessions. */
  class Counters {
    var counts: Counts
  }

  class Session {
    const uuid: Uuid
    const identity: IdentityData
    const clientData: ClientData
    const store: Store
    const counters: Counters

    /** The game data the client connection was started with. */
    var clientGameData: GameData
    var handler: Handler

    /** The login gate: held from a successful New until the login step has run. */
    var loggingIn: bool
    var server: Option<Server>
    var serverConn: Option<Conn>
    var tempServerConn: Option<Conn>
    var translator: Option<Translator>

    var entities: set<int64>
    var playerList: set<Uuid>
    var effects: set<int32>
    var bossBars: set<int64>
    var scoreboards: set<string>

    var transferring: bool
    /** Stands for the sync.Once of Close: set once its body has run. */
    var closed: bool

    /** Packets written to the client connection, in order. */
    var clientLog: seq<Packet>
    /** Dial requests made to backends, in order. */
    var dials: seq<Dialer>
    /** Callbacks made into the handler, in order. */
    var handlerCalls: seq<HandlerCall>
    var clientClosed: bool
    /** Backend connections closed, in order. */
    var closedConns: seq<Conn>

    ghost predicate Valid()
      reads this, counters
    {
      && (server.Some? ==> server.value in counters.counts)
      && (loggingIn ==> server.Some? && serverConn.None? && translator.None?)
    }

    /** The Session record New starts from. */
    constructor Init(identity: IdentityData, clientData: ClientData, store: Store, counters: Counters)
      ensures this.uuid == identity.identity && this.identity == identity
      ensures this.clientData == clientData && this.store == store && this.counters == counters
      ensures clientGameData == ZeroGameData && handler == NopHandler && !loggingIn
      ensures server.None? && serverConn.None? && tempServerConn.None? && translator.None?
      ensures entities == {} && playerList == {} && effects == {} && bossBars == {} && scoreboards == {}
      ensures !transferring && !closed
      ensures clientLog == [] && dials == [] && handlerCalls == [] && !clientClosed && closedConns == []
    {
      uuid := identity.identity;
      this.identity := identity;
      this.clientData := clientData;
      this.store := store;
      this.counters := counters;
      clientGameData := ZeroGameData;
      handler := NopHandler;
      loggingIn := false;
      server, serverConn, tempServerConn, translator := None, None, None, None;
      entities, playerList, effects, bossBars, scoreboards := {}, {}, {}, {}, {};
      transferring, closed := false, false;
      clientLog, dials, handlerCalls, clientClosed, closedConns := [], [], [], false, [];
    }

    /**
     * New registers the session in the store, then asks the load balancer; `found` is its
     * answer. Without a server the registration is rolled back and no count changes; with
     * one, exactly that server's count goes up by one and the login gate is taken.
     */
    static method New(identity: IdentityData, clientData: ClientData, store: Store,
                      counters: Counters, found: Option<Server>)
      returns (s: Session, err: Option<Error>)
      requires found.Some? ==> found.value in counters.counts
      modifies store, counters
      ensures fresh(s) && s.Valid()
      ensures s.uuid == identity.identity && s.identity == identity && s.clientData == clientData
      ensures s.store == store && s.counters == counters
      ensures s.clientGameData == ZeroGameData && s.handler == NopHandler
      ensures !s.transferring && !s.closed && !s.clientClosed
      ensures s.serverConn.None? && s.tempServerConn.None? && s.translator.None?
      ensures s.entities == {} && s.playerList == {} && s.effects == {}
      ensures s.bossBars == {} && s.scoreboards == {}
      ensures s.clientLog == [] && s.dials == [] && s.handlerCalls == [] && s.closedConns == []
      ensures found.None? ==>
        && err == Some(NoServerAvailable)
        && store.ids == old(store.ids) - {identity.identity}
        && counters.counts == old(counters.counts)
        && s.server.None? && !s.loggingIn
      ensures found.Some? ==>
        && err.None?
        && store.ids == old(store.ids) + {identity.identity}
        && counters.counts == Inc(old(counters.counts), found.value)
        && s.server == found && s.loggingIn
    {
      s := new Session.Init(identity, clientData, store, counters);
      store.ids := store.ids + {s.uuid};
      if found.None? {
        err := Some(NoServerAvailable);
        // the deferred rollback
        store.ids := store.ids - {s.uuid};
        return;
      }
      counters.counts := Inc(counters.counts, found.value);
      s.server := found;
      s.loggingIn := true;
      err := None;
    }

    /**
     * dial: one dial request for `srv` carrying the client's data and its identity with the
     * XUID blanked; `outcome` is what the network answers.
     */
    method Dial(srv: Server, outcome: Option<Conn>) returns (conn: Option<Conn>)
      modifies this`dials
      ensures dials == old(dials) + [DialerFor(identity, clientData, srv)]
      ensures conn == outcome
    {
      dials := dials + [DialerFor(identity, clientData, srv)];
      conn := outcome;
    }

    /**
     * The login goroutine New starts: dial the chosen server (`dialed` is the answer), store
     * the connection, start the client's game with the backend's data made
     * server-authoritative, spawn the backend (`loginOk` says whether both succeeded), then
     * build the translator; on a failed login the backend connection is closed. The gate is
     * released on every path.
     */
    method Login(dialed: Option<Conn>, loginOk: bool)
      requires Valid() && loggingIn
      modifies this`dials, this`serverConn, this`clientGameData, this`closedConns,
               this`translator, this`loggingIn
      ensures Valid() && !loggingIn
      ensures dials == old(dials) + [DialerFor(identity, clientData, server.value)]
      ensures serverConn == dialed
      ensures dialed.None? ==>
        clientGameData == old(clientGameData) && closedConns == old(closedConns) && translator.None?
      ensures dialed.Some? ==> clientGameData == StartGameData(dialed.value.gameData)
      ensures dialed.Some? && !loginOk ==>
        closedConns == old(closedConns) + [dialed.value] && translator.None?
      ensures dialed.Some? && loginOk ==>
        closedConns == old(closedConns)
        && translator == Some(Translator(dialed.value.gameData.entityRuntimeId))
    {
      var srvConn := Dial(server.value, dialed);
      if srvConn.None? {
        loggingIn := false;
        return;
      }
      serverConn := srvConn;
      clientGameData := StartGameData(serverConn.value.gameData);
      if !loginOk {
        closedConns := closedConns + [srvConn.value];
        loggingIn := false;
        return;
      }
      translator := Some(Translator(srvConn.value.gameData.entityRuntimeId));
      loggingIn := false;
    }

    /** Handle installs a handler; nil installs the no-op handler. */
    method Handle(h: Option<Handler>)
      modifies this`handler
      ensures handler == if h.None? then NopHandler else h.value
    {
      handler := if h.None? then NopHandler else h.value;
    }

    /** Transferring reports the transfer flag. */
    method Transferring() returns (b: bool)
      ensures b == transferring
    {
      b := transferring;
    }

    /** setTransferring stores the transfer flag. */
    method SetTransferring(v: bool)
      modifies this`transferring
      ensures transferring == v
    {
      transferring := v;
    }

    /** changeDimension: ChangeDimension, StopSound(all), PlayerAction(DimensionChangeDone). */
    method ChangeDimensionTo(dimension: int32, pos: BlockPos)
      modifies this`clientLog
      ensures clientLog == old(clientLog) + ChangeDimensionPackets(dimension, pos)
      ensures |clientLog| == |old(clientLog)| + 3
    {
      clientLog := clientLog + [ChangeDimension(dimension, pos)];
      clientLog := clientLog + [StopSound(true)];
      clientLog := clientLog + [PlayerAction(PlayerActionDimensionChangeDone)];
    }

    /** The nested loop of Transfer writing an empty chunk at each chunk around (chunkX, chunkZ). */
    method WriteChunkGrid(chunkX: int32, chunkZ: int32, dimension: int32)
      requires InChunkRange(chunkX) && InChunkRange(chunkZ)
      modifies this`clientLog
      ensures clientLog == old(clientLog) + ChunkGrid(chunkX, chunkZ, dimension)
    {
      ghost var grid := ChunkGrid(chunkX, chunkZ, dimension);
      ghost var start := clientLog;
      var x: int32 := -1;
      while x <= 1
        invariant -1 <= x <= 2
        invariant clientLog == start + grid[..3 * (x as int + 1)]
      {
        var z: int32 := -1;
        while z <= 1
          invariant -1 <= z <= 2
          invariant clientLog == start + grid[..3 * (x as int + 1) + (z as int + 1)]
        {
          ghost var k := 3 * (x as int + 1) + (z as int + 1);
          clientLog := clientLog + [LevelChunk(ChunkPos(chunkX + x, chunkZ + z), 1, EmptyChunk(dimension))];
          ChunkGridOrder(chunkX, chunkZ, dimension, x as int, z as int);
          assert grid[..k + 1] == grid[..k] + [grid[k]];
          z := z + 1;
        }
        x := x + 1;
      }
    }

    /**
     * The continuation Transfer hands to the event context: dial `srv` (`dialed` is the
     * answer) and spawn it (`spawned`); on success keep the connection in tempServerConn,
     * play the dimension change into the placeholder dimension and the empty chunk grid at
     * the client's position, and swap the player counts. A failed dial or spawn returns with
     * nothing else changed.
     */
    method ContinueTransfer(srv: Server, dialed: Option<Conn>, spawned: bool)
      requires Valid() && server.Some? && srv in counters.counts
      requires dialed.Some? && spawned ==> serverConn.Some?
      modifies this`dials, this`tempServerConn, this`clientLog, this`server, counters
      ensures Valid()
      ensures dials == old(dials) + [DialerFor(identity, clientData, srv)]
      ensures !(dialed.Some? && spawned) ==>
        && clientLog == old(clientLog) && tempServerConn == old(tempServerConn)
        && server == old(server) && counters.counts == old(counters.counts)
      ensures dialed.Some? && spawned ==>
        && tempServerConn == dialed
        && clientLog == old(clientLog) + TransferPackets(
             ProxyDimension(serverConn.value.gameData.dimension, dialed.value.gameData.dimension),
             clientGameData.playerPosition)
        && server == Some(srv)
        && counters.counts == Swap(old(counters.counts), old(server).value, srv)
    {
      var conn := Dial(srv, dialed);
      if conn.None? || !spawned {
        return;
      }
      tempServerConn := conn;
      var proxyDimension := ScanDimensions(serverConn.value.gameData.dimension,
                                           conn.value.gameData.dimension);
      var pos := clientGameData.playerPosition;
      ChangeDimensionTo(proxyDimension, pos);
      var chunkX, chunkZ := ChunkCoord(pos.x), ChunkCoord(pos.z);
      WriteChunkGrid(chunkX, chunkZ, proxyDimension);
      counters.counts := Dec(counters.counts, server.value);
      server := Some(srv);
      counters.counts := Inc(counters.counts, srv);
    }

    /**
     * Transfer to `srv`. The compare-and-set on `transferring` rejects a second transfer
     * with no other effect. Otherwise the handler is told of the destination; `decision` is
     * what its HandleTransfer does with the event context. If it continues, the
     * continuation runs and `transferring` stays set whatever its outcome; if it cancels,
     * `transferring` is cleared and nothing else happens. Only the guard returns an error.
     */
    method Transfer(srv: Server, decision: Decision, dialed: Option<Conn>, spawned: bool)
      returns (err: Option<Error>)
      requires Valid() && !loggingIn && server.Some? && srv in counters.counts
      requires !transferring && Proceeds(handler, decision) && dialed.Some? && spawned ==> serverConn.Some?
      modifies this`transferring, this`handlerCalls, this`dials, this`tempServerConn,
               this`clientLog, this`server, counters
      ensures Valid()
      ensures old(transferring) ==> err == Some(AlreadyTransferring) && unchanged(this, counters)
      ensures !old(transferring) ==>
        err.None? && handlerCalls == old(handlerCalls) + [HandleTransfer(handler, srv)]
      ensures !old(transferring) && !Proceeds(handler, decision) ==>
        && !transferring
        && dials == old(dials) && clientLog == old(clientLog) && tempServerConn == old(tempServerConn)
        && server == old(server) && counters.counts == old(counters.counts)
      ensures !old(transferring) && Proceeds(handler, decision) ==>
        transferring && dials == old(dials) + [DialerFor(identity, clientData, srv)]
      ensures !old(transferring) && Proceeds(handler, decision) && !(dialed.Some? && spawned) ==>
        && clientLog == old(clientLog) && tempServerConn == old(tempServerConn)
        && server == old(server) && counters.counts == old(counters.counts)
      ensures !old(transferring) && Proceeds(handler, decision) && dialed.Some? && spawned ==>
        && tempServerConn == dialed
        && clientLog == old(clientLog) + TransferPackets(
             ProxyDimension(serverConn.value.gameData.dimension, dialed.value.gameData.dimension),
             clientGameData.playerPosition)
        && server == Some(srv)
        && counters.counts == Swap(old(counters.counts), old(server).value, srv)
    {
      if transferring {
        return Some(AlreadyTransferring);
      }
      transferring := true;
      handlerCalls := handlerCalls + [HandleTransfer(handler, srv)];
      var ctx := if handler.NopHandler? then Continue else decision;
      if ctx == Continue {
        ContinueTransfer(srv, dialed, spawned);
      } else {
        SetTransferring(false);
      }
      err := None;
    }

    /** The effect of Close's body, run once, on the state it started from. */
    twostate predicate ClosedFrom()
      reads this, store, counters
    {
      && closed
      && handlerCalls == old(handlerCalls) + [HandleQuit(old(handler))]
      && handler == NopHandler
      && store.ids == old(store.ids) - {uuid}
      && clientClosed
      && closedConns == old(closedConns)
           + (if serverConn.Some? then [serverConn.value] else [])
           + (if tempServerConn.Some? then [tempServerConn.value] else [])
      && (server.None? ==> counters.counts == old(counters.counts))
      && (server.Some? ==>
            server.value in old(counters.counts)
            && counters.counts == Dec(old(counters.counts), server.value))
    }

    /**
     * Close runs its body once: HandleQuit on the current handler, the no-op handler
     * installed, the UUID removed from the store, the client connection closed, then each
     * backend connection that exists, and the current server's count decremented once.
     * Later calls change nothing.
     */
    method Close()
      requires Valid()
      modifies this`closed, this`handlerCalls, this`handler, this`clientClosed, this`closedConns,
               store, counters
      ensures Valid()
      ensures old(closed) ==> unchanged(this, store, counters)
      ensures !old(closed) ==> ClosedFrom()
    {
      if closed {
        return;
      }
      closed := true;
      handlerCalls := handlerCalls + [HandleQuit(handler)];
      Handle(Some(NopHandler));
      store.ids := store.ids - {uuid};
      clientClosed := true;
      if serverConn.Some? {
        closedConns := closedConns + [serverConn.value];
      }
      if tempServerConn.Some? {
        closedConns := closedConns + [tempServerConn.value];
      }
      if server.Some? {
        counters.counts := Dec(counters.counts, server.value);
      }
    }

    /**
     * Disconnect writes a Disconnect packet, hiding the disconnect screen when the message
     * is empty, then closes the session.
     */
    method Disconnect(message: string)
      requires Valid()
      modifies this`clientLog, this`closed, this`handlerCalls, this`handler, this`clientClosed,
               this`closedConns, store, counters
      ensures Valid()
      ensures clientLog == old(clientLog) + [DisconnectPacket(message)]
      ensures old(closed) ==>
        && closed == old(closed) && handlerCalls == old(handlerCalls) && handler == old(handler)
        && clientClosed == old(clientClosed) && closedConns == old(closedConns)
        && store.ids == old(store.ids) && counters.counts == old(counters.counts)
      ensures !old(closed) ==> ClosedFrom()
    {
      clientLog := clientLog + [DisconnectPacket(message)];
      Close();
    }

    /** Each member of `members` visited once, with its removal packet written to the client. */
    method WriteEach<T>(members: set<T>, removal: T -> Packet) returns (ghost order: seq<T>)
      modifies this`clientLog
      ensures Enumerates(order, members)
      ensures clientLog == old(clientLog) + Packets(order, removal)
    {
      order := [];
      var rest := members;
      while rest != {}
        invariant rest <= members
        invariant Enumerates(order, members - rest)
        invariant clientLog == old(clientLog) + Packets(order, removal)
        decreases rest
      {
        var m :| m in rest;
        clientLog := clientLog + [removal(m)];
        assert Packets(order + [m], removal) == Packets(order, removal) + [removal(m)];
        order := order + [m];
        rest := rest - {m};
      }
    }

    /** clearEntities: one RemoveActor per tracked entity, then the set is emptied. */
    method ClearEntities() returns (ghost order: seq<int64>)
      modifies this`clientLog, this`entities
      ensures Enumerates(order, old(entities)) && |order| == |old(entities)|
      ensures clientLog == old(clientLog) + Packets(order, RemoveActorPacket)
      ensures entities == {}
    {
      order := WriteEach(entities, RemoveActorPacket);
      EnumerationLength(order, entities);
      entities := {};
    }

    /**
     * clearPlayerList: one PlayerList removal packet, then the set is emptied. The entries
     * slice is made with length |playerList| and appended to, so the packet holds that many
     * zero UUIDs followed by every member once.
     */
    method ClearPlayerList() returns (ghost order: seq<Uuid>)
      modifies this`clientLog, this`playerList
      ensures Enumerates(order, old(playerList)) && |order| == |old(playerList)|
      ensures clientLog == old(clientLog)
        + [PlayerList(PlayerListRemove, ZeroEntries(|old(playerList)|) + order)]
      ensures |clientLog[|old(clientLog)|].entries| == 2 * |old(playerList)|
      ensures playerList == {}
    {
      var entries := ZeroEntries(|playerList|);
      order := [];
      var rest := playerList;
      while rest != {}
        invariant rest <= playerList
        invariant Enumerates(order, playerList - rest)
        invariant entries == ZeroEntries(|playerList|) + order
        decreases rest
      {
        var uid :| uid in rest;
        entries := entries + [uid];
        order := order + [uid];
        rest := rest - {uid};
      }
      EnumerationLength(order, playerList);
      clientLog := clientLog + [PlayerList(PlayerListRemove, entries)];
      playerList := {};
    }

    /** clearEffects: one MobEffect removal per tracked effect, on the player's original runtime ID. */
    method ClearEffects() returns (ghost order: seq<int32>)
      requires translator.Some?
      modifies this`clientLog, this`effects
      ensures Enumerates(order, old(effects)) && |order| == |old(effects)|
      ensures clientLog == old(clientLog)
        + Packets(order, RemoveEffectPacket(translator.value.originalRuntimeId))
      ensures effects == {}
    {
      order := WriteEach(effects, RemoveEffectPacket(translator.value.originalRuntimeId));
      EnumerationLength(order, effects);
      effects := {};
    }

    /** clearBossBars: one BossEvent hide per tracked boss bar, then the set is emptied. */
    method ClearBossBars() returns (ghost order: seq<int64>)
      modifies this`clientLog, this`bossBars
      ensures Enumerates(order, old(bossBars)) && |order| == |old(bossBars)|
      ensures clientLog == old(clientLog) + Packets(order, HideBossBarPacket)
      ensures bossBars == {}
    {
      order := WriteEach(bossBars, HideBossBarPacket);
      EnumerationLength(order, bossBars);
      bossBars := {};
    }

    /** clearScoreboard: one RemoveObjective per tracked scoreboard, then the set is emptied. */
    method ClearScoreboard() returns (ghost order: seq<string>)
      modifies this`clientLog, this`scoreboards
      ensures Enumerates(order, old(scoreboards)) && |order| == |old(scoreboards)|
      ensures clientLog == old(clientLog) + Packets(order, RemoveObjectivePacket)
      ensures scoreboards == {}
    {
      order := WriteEach(scoreboards, RemoveObjectivePacket);
      EnumerationLength(order, scoreboards);
      scoreboards := {};
    }
  }
}
