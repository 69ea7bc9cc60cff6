# Session core of the portal proxy, modelled in Dafny

This models a portal proxy session (`session/session.go`). A session bridges one Minecraft
Bedrock client connection to one backend server. It is registered in the session store
when it is created, and it asks the load balancer for a first server. It logs the client in
through that server. It can be transferred to another server while the client stays
connected. It tracks what the client sees (entities, player-list entries, effects, boss bars,
scoreboards) and can clear each of those sets. It is torn down exactly once.

The model keeps the source's form. `Session.Session` is a class whose fields are the Go
struct's fields: `server`, `serverConn`, `tempServerConn`, the translator, the handler, the
five tracked sets, and the `transferring` flag. A `closed` flag stands in for the
`sync.Once`. Two more collaborators are objects the session shares with other sessions:
the store (`Store`, a set of UUIDs) and the player counters (`Counters`, a map from server
to count). Each method states its new state. The pure parts are functions with lemmas:

- the placeholder-dimension choice (`DimensionChange`);
- `x >> 4` and the 3×3 chunk grid (`DimensionChange`);
- the count algebra and its sum (`PlayerCounts`);
- the identity stripping done before dialling (`Protocol`).

Locks and goroutines are erased, so each operation is one sequential step. The network's
answers and the handler's choice are parameters. Effects on the outside world are appended
to logs on the session:

- `clientLog`: packets written to the client;
- `dials`: dial requests made;
- `handlerCalls`: calls into the handler;
- `closedConns` and `clientClosed`: connections closed.

Behaviour of `session/session.go` that a reader may not expect, modelled as written:

- After a successful transfer, `transferring` stays true. It also stays true after a dial
  or spawn that failed. Within `session/session.go`, only the cancel path clears it.
  `setTransferring` is unexported, so other files of the `session` package could reset it;
  those files are not part of this model. In the model, every later transfer is refused
  (`Scenarios.FailedDialBlocksNextTransfer`).
- A successful transfer stores the new connection only in `tempServerConn`, and swaps
  `server` and the counts. It does not replace `serverConn` or the translator. It does not
  close the old connection. It does not clear the tracked sets: nothing in
  `session/session.go` calls the `clear*` helpers.
- If the dial succeeds but the spawn fails, that connection is never closed.
- `Transfer` returns an error only from its guard. The closure declares its own `err`, so dial
  and spawn failures are not returned.
- `clearPlayerList` sends `|set|` zero UUIDs, then the real members.
- A failed login closes the backend connection but leaves it in `serverConn`. `Close` then
  closes it a second time.
- Nothing stops `Transfer` after `Close`. The counts would then be changed again.
- The placeholder `ChangeDimension` uses the client's game data from login
  (`clientGameData.playerPosition`), not the player's current position.
- The placeholder dimension differs from both the old and the new dimension for every
  input, not just when both are 0, 1 or 2. There are three candidates and only two
  exclusions.

## Model

| member | source | states |
|---|---|---|
| `Session.Session.Init` | session/session.go:56-69 | the fresh session record: the UUID from the identity, the no-op handler, empty tracked sets, no server or connections, flags clear |
| `Session.Session.New` | session/session.go:55-106 | registers the UUID in the store; the session starts with zero game data, an open client connection, the no-op handler, empty tracked sets and empty logs; with no server from the load balancer it returns NoServerAvailable, the UUID is no longer in the store and no count changes; otherwise `server` is the chosen server, only its count goes up by one, and the login gate is held |
| `Session.Session.Dial` | session/session.go:110-119 | logs exactly one dial request for the server's address over raknet, with flush rate -1, the client data, and the identity with only the XUID blanked; returns the network's answer |
| `Protocol.DialIdentity` | session/session.go:111-112 | the dialled identity has an empty XUID and every other field of the client's identity; it equals the input exactly when the input's XUID is already empty |
| `Protocol.DialerFor` | session/session.go:113-118 | the dialer configuration: client data passed through, stripped identity, flush rate -1, network "raknet", the server's address |
| `Session.Session.Login` | session/session.go:86-104 | logs one dial of the chosen server; a failed dial leaves no connection and no translator; otherwise the connection is stored, the client gets the backend's game data made server-authoritative; a failed login closes it and builds no translator, success builds the translator; the gate is released on every path |
| `Protocol.StartGameData` | session/session.go:126-128 | the StartGame data is the backend's with movement mode server-with-rewind and rewind history 100, its other fields kept |
| `Session.Session.Handle` | session/session.go:178-186 | installs the given handler, or the no-op handler for nil, and changes nothing else |
| `Session.Session.Transfer` | session/session.go:190-249 | if a transfer is already in flight: AlreadyTransferring and no state change at all (no dial, no packet, no count change); otherwise no error, one HandleTransfer call; cancel clears `transferring` and leaves server, counts, connections, dials and packets untouched; continue keeps `transferring` set and runs the continuation |
| `Session.Session.ContinueTransfer` | session/session.go:201-242 | one dial; after a failed dial or spawn, nothing else changes; on success `tempServerConn` is the new connection, the client gets exactly the transfer packets for the placeholder dimension at its position, `server` is the destination and the counts are swapped |
| `Session.Session.Transferring` | session/session.go:252-254 | returns the transfer flag |
| `Session.Session.SetTransferring` | session/session.go:257-259 | sets the transfer flag to the given value and changes nothing else |
| `DimensionChange.ProxyDimension` | session/session.go:214-220 | the placeholder is Overworld, Nether or End; it differs from both the old and the new dimension; every candidate before it equals one of the two |
| `DimensionChange.ScanDimensions` | session/session.go:214-220 | the for-loop with break computes exactly that placeholder |
| `DimensionChange.ChunkCoord` | session/session.go:225-226 | `x >> 4` on an int32 is floor division by 16, for negative x too: 16·c ≤ x < 16·c + 16; its neighbours one step away fit in int32 |
| `Session.Session.ChangeDimensionTo` | session/session.go:360-367 | appends ChangeDimension to the dimension at the position, StopSound with StopAll, then PlayerAction DimensionChangeDone: three packets and nothing else |
| `Session.Session.WriteChunkGrid` | session/session.go:227-235 | the nested loop appends exactly the nine-packet chunk grid |
| `DimensionChange.ChunkGridOrder` | session/session.go:227-233 | packet 3(dx+1)+(dz+1) of the grid is the chunk at (cx+dx, cz+dz): dx in the outer loop, dz in the inner loop |
| `DimensionChange.ChunkGridNeighbourhood` | session/session.go:227-235 | nine single-sub-chunk empty LevelChunk packets of the placeholder dimension, at pairwise different positions, which are exactly the 3×3 chunks around (cx, cz) |
| `DimensionChange.TransferPacketsShape` | session/session.go:222-235 | the transfer writes ChangeDimension at the player's position, then StopSound, then PlayerAction DimensionChangeDone, then exactly nine LevelChunk packets around (x >> 4, z >> 4) |
| `PlayerCounts.Inc` | session/session.go:82 | one increment: only that server's count grows by one, the sum by one |
| `PlayerCounts.Dec` | session/session.go:285 | one decrement: only that server's count drops by one, the sum by one; an increment undoes it |
| `PlayerCounts.Swap` | session/session.go:237-241 | decrement the old server, then increment the destination: the sum is preserved; the same server keeps its count; otherwise exactly one player moves from old to destination and the other counts stay |
| `PlayerCounts.AfterTransfers` | session/session.go:237-241 | any chain of successful transfers keeps the set of servers and the sum of all counts |
| `PlayerCounts.AfterTransfersMovesIncrement` | session/session.go:237-241 | a chain of transfers moves the session's one increment from its first server to its last |
| `PlayerCounts.LifetimeBalances` | session/session.go:82-83 | the join increment, any number of transfers and the close decrement leave every count as before the join |
| `Session.Session.Close` | session/session.go:269-288 | the first call makes one HandleQuit call on the current handler, installs the no-op handler, removes the UUID from the store, closes the client, then `serverConn` and `tempServerConn` where they exist, and decrements the current server's count once if there is one; any later call changes nothing |
| `Session.Session.Disconnect` | session/session.go:292-298 | writes Disconnect with the message, hiding the disconnect screen exactly when it is empty, then has the effect of Close |
| `Protocol.DisconnectPacket` | session/session.go:293-296 | the packet carries the message and hides the screen iff the message is empty |
| `Session.Session.WriteEach` | session/session.go:302-305 | visits each member of the set exactly once, in some order, writing its removal packet: the log grows by exactly those packets |
| `Session.EnumerationLength` | session/session.go:302-305 | a visit of every member once has as many steps as the set has members |
| `Session.Session.ClearEntities` | session/session.go:301-308 | exactly one RemoveActor per entity present before, covering all of them, then the set is empty |
| `Session.ZeroEntries` | session/session.go:312 | make gives a slice of n zero UUIDs |
| `Session.Session.ClearPlayerList` | session/session.go:311-321 | one PlayerList remove packet whose entries are |set| zero UUIDs followed by every member once (2·|set| entries), then the set is empty |
| `Session.Session.ClearEffects` | session/session.go:324-335 | exactly one MobEffect remove per effect present before, on the original runtime ID, then the set is empty |
| `Session.Session.ClearBossBars` | session/session.go:338-348 | exactly one BossEvent hide per boss bar present before, then the set is empty |
| `Session.Session.ClearScoreboard` | session/session.go:351-358 | exactly one RemoveObjective per scoreboard present before, then the set is empty |
| `Scenarios.JoinTransferLeave` | session/session.go:78-83 | join, login, transfer, close: every count ends where it started and the UUID is no longer in the store |
| `Scenarios.TransferThenLeave` | session/session.go:284-286 | after a transfer and close, the counts are the swap followed by one decrement of the destination |
| `Scenarios.FailedDialBlocksNextTransfer` | session/session.go:244-246 | after a failed dial, server, counts and packets are as before but `transferring` is still set, so the next transfer returns AlreadyTransferring |
| `Scenarios.TransferAfterFailedLogin` | session/session.go:88-91 | after a failed login dial there is no backend connection, yet a transfer whose dial fails returns no error, tells the handler, keeps the session on its first server with the join's counts, and leaves `transferring` set |
| `Scenarios.CloseTwice` | session/session.go:270 | two Close calls have the effect of one |

## Left out

- Goroutines and the locks `loginMu`, `serverMu` and `hMutex` are left out. Each operation
  is one step. The `go.uber.org/atomic` flag and the `sync.Once` are plain booleans.
- `waitForLogin` blocks until login ends. `Transfer` instead requires `!loggingIn`. `Close`
  does not wait, as in the source.
- `Session.Session.Transfer` and `Session.Session.ContinueTransfer` require `server` to be
  present: the source calls `s.Server().Name()` right after the guard and changes the
  server's count on success, so the model covers only sessions whose `New` succeeded. They
  require `serverConn` only on the path where the handler continues and the dial and spawn
  succeed, because only that path reads `serverConn`'s dimension. A session whose login dial
  failed can still be transferred on every other path (`Scenarios.TransferAfterFailedLogin`).
- The network is left out. Dial, `DoSpawnTimeout`, `StartGameTimeout` and their one-minute
  timeouts are outcome parameters. `WritePacket` appends to `clientLog`. `Close` appends to
  `closedConns`. Their errors are ignored, as in the source.
- `Session.Session.Login` takes one `loginOk` input for `login()`. In the source, two
  goroutines race to write a shared `err`, so which error wins is not modelled.
- The client's game data is assumed to be set by StartGame even when the login then fails.
- The packet relay (`handlePackets`) and ID remapping are left out. `translator.go` is not
  part of this model. The translator is cut down to the original runtime ID that
  `clearEffects` sends. The model assumes that ID is the backend's game-data entity
  runtime ID.
- `emptyChunk` is not shown, so a chunk payload is a record of its dimension.
- Positions are float `mgl32.Vec3` values in the source. The model uses integer block
  positions, so the `int32(pos.X())` truncation is not modelled.
- The event package is not part of this model. `HandleTransfer`'s continue or cancel choice
  is an input. The no-op handler always continues. `ctx.Continue` and `ctx.Stop` are taken
  to run their callback at once.
- The load balancer's choice of server is an input to `New`.
- `store.go` and the server package are not part of this model. The store is a set of
  UUIDs. A server is its name and address. Its counter is an entry in a shared map, and
  every server the session sees has an entry.
- `uuid.MustParse` is left out: the identity already carries a parsed UUID, so its panic on
  malformed input is not modelled.
- The accessors are left out; the model reads the fields directly. `Conn`, `Server` and
  `ServerConn` read one field after `waitForLogin`. `UUID` and `handler()` read one field
  without waiting.
- Logging is left out. So is the `postTransfer` field, which nothing uses.
- Other sessions updating the shared counters and store at the same time are left out.
  Members added to a tracked set while it is being cleared are left out too.
