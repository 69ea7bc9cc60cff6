/**
 * The parts of the Bedrock protocol and of the proxy's collaborators that the session touches:
 * the packets it writes to the client, the game data of a connection, the identity a
 * connection carries, the dialer configuration and the backend server descriptor.
 * Wire encodings are not modelled; a packet is the record of the fields the session sets.
 */
module Protocol {
  import opened Base

  /** Dimension IDs of the protocol (packet.DimensionOverworld, ...Nether, ...End). */
  const Overworld: int32 := 0
  const Nether: int32 := 1
  const End: int32 := 2

  /** An integer block position; stands for the float mgl32.Vec3 of the source. */
  datatype BlockPos = BlockPos(x: int32, y: int32, z: int32)

  /** protocol.ChunkPos: a pair of int32 chunk coordinates. */
  datatype ChunkPos = ChunkPos(x: int32, z: int32)

  datatype PlayerListAction = PlayerListAdd | PlayerListRemove
  datatype MobEffectOperation = MobEffectAdd | MobEffectModify | MobEffectRemove
  datatype BossEventType = BossEventShow | BossEventHide
  datatype PlayerActionType = PlayerActionDimensionChangeDone

  /** The payload of emptyChunk(dimension); its bytes are not part of this model. */
  datatype ChunkPayload = EmptyChunk(dimension: int32)

  /** The packets the session writes to the client connection. */
  datatype Packet =
    | Disconnect(hideDisconnectionScreen: bool, message: string)
    | RemoveActor(entityUniqueId: int64)
    | PlayerList(actionType: PlayerListAction, entries: seq<Uuid>)
    | MobEffect(entityRuntimeId: uint64, operation: MobEffectOperation, effectType: int32)
    | BossEvent(bossEntityUniqueId: int64, eventType: BossEventType)
    | RemoveObjective(objectiveName: string)
    | ChangeDimension(dimension: int32, position: BlockPos)
    | StopSound(stopAll: bool)
    | PlayerAction(action: PlayerActionType)
    | LevelChunk(chunkPos: ChunkPos, subChunkCount: nat, rawPayload: ChunkPayload)

  /** protocol.PlayerMovementMode. */
  datatype MovementMode = MovementClient | MovementServer | MovementServerWithRewind

  datatype MovementSettings = MovementSettings(
    movementType: MovementMode,
    rewindHistorySize: int32,
    serverAuthoritativeBlockBreaking: bool)

  /** The part of minecraft.GameData the session reads or sets. */
  datatype GameData = GameData(
    dimension: int32,
    playerPosition: BlockPos,
    entityRuntimeId: uint64,
    movement: MovementSettings)

  /** What an unstarted connection reports as its game data (Go's zero value). */
  const ZeroGameData: GameData :=
    GameData(0, BlockPos(0, 0, 0), 0, MovementSettings(MovementClient, 0, false))

  /**
   * The game data handed to the client's StartGame: the backend's data with movement made
   * server-authoritative with rewind and a rewind history of 100 ticks.
   */
  function StartGameData(backend: GameData): (g: GameData)
    ensures g.movement.movementType == MovementServerWithRewind
    ensures g.movement.rewindHistorySize == 100
    ensures g.movement.serverAuthoritativeBlockBreaking ==
            backend.movement.serverAuthoritativeBlockBreaking
    ensures g.dimension == backend.dimension && g.playerPosition == backend.playerPosition
    ensures g.entityRuntimeId == backend.entityRuntimeId
  {
    backend.(movement := backend.movement.(movementType := MovementServerWithRewind,
                                           rewindHistorySize := 100))
  }

  /** A backend connection, as a handle with the game data its spawn sequence delivered. */
  datatype Conn = Conn(id: nat, gameData: GameData)

  /** The identity claim of the client (login.IdentityData). */
  datatype IdentityData = IdentityData(
    xuid: string,
    identity: Uuid,
    displayName: string,
    titleId: string)

  /** The client's appearance data (login.ClientData), passed through unchanged. */
  datatype ClientData = ClientData(deviceId: string, skinId: string, languageCode: string)

  /**
   * The identity the proxy presents to a backend: a copy of the client's identity with the
   * XUID, the Xbox account credential, blanked and every other field kept.
   */
  function DialIdentity(i: IdentityData): (r: IdentityData)
    ensures r.xuid == ""
    ensures r.identity == i.identity && r.displayName == i.displayName && r.titleId == i.titleId
    ensures r == i <==> i.xuid == ""
  {
    i.(xuid := "")
  }

  /** A backend server descriptor: its identity is its name and address. */
  datatype Server = Server(name: string, address: string)

  /** The minecraft.Dialer configuration and the network/address its Dial call uses. */
  datatype Dialer = Dialer(
    clientData: ClientData,
    identityData: IdentityData,
    flushRate: int,
    network: string,
    address: string)

  /** The dial request session.dial makes for a server. */
  function DialerFor(identity: IdentityData, clientData: ClientData, srv: Server): (d: Dialer)
    ensures d.identityData == DialIdentity(identity) && d.identityData.xuid == ""
    ensures d.clientData == clientData
    ensures d.flushRate == -1 && d.network == "raknet" && d.address == srv.address
  {
    Dialer(clientData, DialIdentity(identity), -1, "raknet", srv.address)
  }

  /**
   * The packet translator of a session. Only its original runtime ID, which the
   * effect-clearing packets carry, is modelled.
   */
  datatype Translator = Translator(originalRuntimeId: uint64)

  /** packet.Disconnect as Disconnect(message) builds it. */
  function DisconnectPacket(message: string): (p: Packet)
    ensures p.Disconnect? && p.message == message
    ensures p.hideDisconnectionScreen <==> |message| == 0
  {
    Disconnect(message == "", message)
  }
}
