# Quizler backend: game registry, game codes and wire tables

A Dafny model of the core of the Quizler quiz server's backend:

- `packets.dfy` (module `Packets`): the one-byte code tables of the `GameState`,
  `PlayerDataMode` and `StateChange` enums, and the logical server and client
  packet families with their packet ids. Each code table has an encoder, a
  decoder that accepts exactly the assigned codes, and round-trip and
  distinctness lemmas.
- `tools.dfy` (module `Tools`): the 16-symbol game-code alphabet and the code
  generator `RandomIdentifier`, whose random index draw is a nondeterministic
  choice in `0..16`. It also numbers the codes of one length (`FromValue`, and
  `Value` for the reverse direction), which gives a bijection with
  `0 .. 16^n`. A pigeonhole lemma uses it to show that a free code exists
  while fewer than `16^n` codes are taken.
- `gamev2.dfy` (module `GameV2`): `Game`, `Question`, `GameTimer` and their
  constructors. The `GameManager` class holds the `map` from game code to
  `Game`. Its `Handle` method is one turn of the manager's receive loop: it
  turns one client packet into one `ClientAction` and dispatches to one
  handler per message.
- `wrappers.dfy` (module `Wrappers`): `Option`.

The `Game` methods `is_name_taken` and `new_player` are called by the receive
loop, but their bodies are not part of this model. The manager gets them as two
function values fixed at construction:
- `isNameTaken(game, name)`;
- `newPlayerId(game, name, connection)`, the id that `new_player` gives the
  player joining over that connection.

A successful join sets the roster entry `Player(id, name, connection)` under
that id.

Monotonic clock reads (`Instant::now()`) are an `Instant` parameter. The
wall-clock `SystemTime` of a question's start is a separate `SystemTime` type.
Connection addresses are an opaque `ConnectionId`.

`backend/src/gamev2.rs` does not compile as written. The model follows its
evident intent:
- `Game::ID_LENGTH` (line 64) is read as `GameManager::ID_LENGTH`, which is 5
  (line 21).
- The undefined `ret` passed to `new_player` (line 105) is read as the
  requesting connection.
- `QuestionData` is read as the `CreateQuestionData` record of
  `backend/src/packets.rs`.
- The `ClientPackets::CreateGame` … `Kick` variants are read as the
  `CCreateGame` … `CKick` packets declared there.
- `ServerPackets::GameState` (line 90) is read as the `SGameState` packet
  declared there.
- `ClientAction` is not declared in any file of the model. Its variants are the
  ones the receive loop builds.

The retry loop of CreateGame (lines 63-66) draws codes until one is free. It
has no bound, so it spins forever once every code is in use. `FreeCode` models
its outcome as a choice among the free codes. The choice is made through the
numbering `FromValue`, which reaches every code (`FromValueOfValue`).
`UnusedIdentifierExists` proves that such a code exists when fewer than
`16^5` games are registered.

## Model

| member | source | states |
|---|---|---|
| `Packets.GameStateCode` | backend/src/packets.rs:6-12 | every game state has a one-byte code below 5 (WAITING 0 … DOES_NOT_EXIST 4) |
| `Packets.GameStateFromCode` | backend/src/packets.rs:6-12 | a byte names a game state exactly when it is below 5, and the state read back encodes to that byte |
| `Packets.GameStateRoundTrip` | backend/src/packets.rs:6-12 | decoding an encoded game state gives the same state |
| `Packets.GameStateCodesDistinct` | backend/src/packets.rs:6-12 | two game states share a code only if they are equal |
| `Packets.PlayerDataModeCode` | backend/src/packets.rs:14-18 | every roster-update mode has a code below 3 (ADD 0, REMOVE 1, SELF 2) |
| `Packets.PlayerDataModeFromCode` | backend/src/packets.rs:14-18 | a byte names a mode exactly when it is below 3, and the mode read back encodes to that byte |
| `Packets.PlayerDataModeRoundTrip` | backend/src/packets.rs:14-18 | decoding an encoded mode gives the same mode |
| `Packets.PlayerDataModeCodesDistinct` | backend/src/packets.rs:14-18 | two modes share a code only if they are equal |
| `Packets.StateChangeCode` | backend/src/packets.rs:20-24 | every state-change request has a code below 3 (DISCONNECT 0, START 1, SKIP 2) |
| `Packets.StateChangeFromCode` | backend/src/packets.rs:20-24 | only the bytes 0, 1 and 2 name a state-change request, and the request read back encodes to that byte |
| `Packets.StateChangeRoundTrip` | backend/src/packets.rs:20-24 | decoding an encoded request gives the same request |
| `Packets.StateChangeCodesDistinct` | backend/src/packets.rs:20-24 | two requests share a code only if they are equal |
| `Packets.ServerPacketId` | backend/src/packets.rs:38-49 | every server packet has an id in 0x00..0x09 |
| `Packets.ServerPacketIdsDistinct` | backend/src/packets.rs:38-49 | two server packets with the same id are of the same variant, so the ten ids are pairwise distinct |
| `Packets.ClientPacketId` | backend/src/packets.rs:51-59 | every client packet has an id in 0x00..0x06 |
| `Packets.ClientPacketIdsDistinct` | backend/src/packets.rs:51-59 | two client packets with the same id are of the same variant, so the seven ids are pairwise distinct |
| `Tools.AlphabetIsHexDigits` | backend/src/tools.rs:5 | the alphabet has 16 pairwise-distinct symbols, exactly `A`-`F` and `0`-`9` |
| `Tools.RandomIdentifier` | backend/src/tools.rs:7-15 | the code has exactly `length` symbols (none for length 0), each drawn from the alphabet by an index in 0..16 |
| `Tools.FromValue` | backend/src/tools.rs:5 | the number `v < 16^n` names a code of `n` alphabet symbols whose number is `v` |
| `Tools.FromValueOfValue` | backend/src/gamev2.rs:63-66 | every code of `n` alphabet symbols is `FromValue` of its own number, so choosing a number reaches every code the retry loop can draw |
| `Tools.UnusedIdentifierExists` | backend/src/gamev2.rs:63-66 | when fewer than `16^n` strings are in use, some code of `n` symbols is free, so the retry loop has a code to stop on |
| `GameV2.NewTimer` | backend/src/gamev2.rs:174-182 | a new timer has zero duration, zero elapsed time, no pending sync, and both instants at the given clock reading |
| `GameV2.NewGame` | backend/src/gamev2.rs:138-153 | a new game is Waiting, has no players, and carries the given host, code, title and questions and a new timer |
| `GameV2.WrapQuestions` | backend/src/gamev2.rs:67-73 | the wrapped list has the submitted questions in the same order, none of them shown yet (`startTime` absent) |
| `GameV2.GameManager.constructor` | backend/src/gamev2.rs:24-31 | the registry starts empty |
| `GameV2.GameManager.IsGameId` | backend/src/gamev2.rs:37-39 | true exactly when the code is registered |
| `GameV2.GameManager.GetGame` | backend/src/gamev2.rs:49-51 | the stored game when the code is registered, nothing otherwise |
| `GameV2.GameManager.InsertGame` | backend/src/gamev2.rs:41-43 | the registry maps the code to the game; every other entry is unchanged |
| `GameV2.GameManager.FreeCode` | backend/src/gamev2.rs:62-66 | the chosen code has IdLength (5) alphabet symbols and is not a registered code |
| `GameV2.GameManager.HandleCreateGame` | backend/src/gamev2.rs:61-80 | registers a new Waiting game with no players, hosted by the sender, under a fresh 5-symbol code, with the questions wrapped in order. Every previously stored game is unchanged. The reply carries exactly that code and the title |
| `GameV2.GameManager.HandleCheckNameTaken` | backend/src/gamev2.rs:81-87 | an unknown code yields the error "That game code doesn't exist"; otherwise the reply is whether the name is taken in that game; nothing changes |
| `GameV2.GameManager.HandleRequestGameState` | backend/src/gamev2.rs:88-96 | the reply is DoesNotExist exactly when the code is not registered, and otherwise the stored game's state; nothing changes |
| `GameV2.GameManager.HandleRequestJoin` | backend/src/gamev2.rs:97-110 | on an unknown code or a taken name, the matching error and an unchanged registry. Otherwise only that game changes: its roster entry under the id `new_player` gives is set to the new player, and the reply carries the code, that id and the title |
| `GameV2.GameManager.Handle` | backend/src/gamev2.rs:60-114 | dispatches each packet to its handler and promises what that handler does: the new game and its wrapped questions for CreateGame, the error texts and the new roster entry for RequestJoin, the stored state for RequestGameState. StateChange and Kick are passed on unchanged, an answer yields no action, and only CreateGame and a successful join change the registry |

## Left out

- The tokio channel, the spawned task, the `recv().await` loop, `conn.send` and `GameManager::sender` (backend/src/gamev2.rs:14-15, 25, 33-35, 54-57, 116): concurrency plumbing. Only the handling of one packet is modelled.
- `get_game_mut` (backend/src/gamev2.rs:45-47) returns a mutable borrow, which Dafny values do not have. Changing a game through it is modelled by replacing the map entry, as in `HandleRequestJoin`.
- The bodies of `Game::is_name_taken` and `Game::new_player`: they are not part of this model. They are function values of the manager. The player record they build is reduced to id, name and connection; score, answers and answer time are not modelled.
- `GameV2.GameManager.HandleRequestJoin`: the id `new_player` gives is a deterministic function of the game, the name and the connection. Nothing is known about it, so it is not promised to be fresh: when it is already in the roster, the entry under it is replaced rather than added.
- `GameV2.GameManager.HandleCreateGame`: requires fewer than 16^5 registered games. The source's retry loop never ends once every code is taken, and a Dafny method must terminate.
- `GameV2.GameManager.FreeCode`: requires fewer than 16^5 registered games, for the same reason.
- `GameV2.GameManager.Handle`: requires fewer than 16^5 registered games for a CreateGame packet, for the same reason.
- Randomness: `thread_rng`/`gen_range` become nondeterministic choices. Nothing is said about the distribution of the codes.
- Wall-clock time: the two `Instant::now()` reads in `GameTimer::new` are one `now` parameter. The unused `GameTime` record (backend/src/gamev2.rs:157-162) is not modelled. The `SystemTime` of `Question.start_time` is a number of its own type that is never set. No timer advance, remaining-time or sync logic exists in these files.
- Game flow: host authorization, broadcast, start/skip transitions, answers and scoring are not in these files. StateChange and Kick are only passed on.
- The byte-level packet codec of the `wsbps` macros (VarInt, strings, byte arrays): external. Only the code and id tables are modelled.
- `backend/src/main.rs`, `backend/src/socket.rs`, `backend/src/player.rs`, `backend/src/game.rs` and `frontend/src/api/packets.ts` are not part of this model. They hold bootstrap, declarations without behaviour, and the client-side mirror of the packet tables.
