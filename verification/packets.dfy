/**
 * The logical wire schema of the quiz backend: the one-byte code tables of the
 * `GameState`, `PlayerDataMode` and `StateChange` enums and the packet ids of the
 * server and client packet families. The byte-level codec (VarInt, strings,
 * byte arrays) belongs to the external `wsbps` macros and is not modelled; only
 * the code assignments are.
 */
module Packets {
  import opened Wrappers

  newtype u8 = x: int | 0 <= x < 0x100
  newtype u32 = x: int | 0 <= x < 0x1_0000_0000

  // ---------------------------------------------------------------------------
  // GameState (server -> client), codes 0..4

  datatype GameState = Waiting | Starting | Started | Stopped | DoesNotExist

  function GameStateCode(s: GameState): (b: u8)
    ensures b < 5
  {
    match s
    case Waiting => 0
    case Starting => 1
    case Started => 2
    case Stopped => 3
    case DoesNotExist => 4
  }

  /** Reading a state byte: exactly the codes 0..4 name a state, and the state read back encodes to that byte. */
  function GameStateFromCode(b: u8): (r: Option<GameState>)
    ensures r.Some? <==> b < 5
    ensures r.Some? ==> GameStateCode(r.value) == b
  {
    if b == 0 then Some(Waiting)
    else if b == 1 then Some(Starting)
    else if b == 2 then Some(Started)
    else if b == 3 then Some(Stopped)
    else if b == 4 then Some(DoesNotExist)
    else None
  }

  lemma GameStateRoundTrip(s: GameState)
    ensures GameStateFromCode(GameStateCode(s)) == Some(s)
  {
  }

  /** No two states share a code. */
  lemma GameStateCodesDistinct(s: GameState, t: GameState)
    ensures GameStateCode(s) == GameStateCode(t) <==> s == t
  {
    GameStateRoundTrip(s);
    GameStateRoundTrip(t);
  }

  // ---------------------------------------------------------------------------
  // PlayerDataMode (server -> client), codes 0..2

  datatype PlayerDataMode = Add | Remove | Self

  function PlayerDataModeCode(m: PlayerDataMode): (b: u8)
    ensures b < 3
  {
    match m
    case Add => 0
    case Remove => 1
    case Self => 2
  }

  function PlayerDataModeFromCode(b: u8): (r: Option<PlayerDataMode>)
    ensures r.Some? <==> b < 3
    ensures r.Some? ==> PlayerDataModeCode(r.value) == b
  {
    if b == 0 then Some(Add)
    else if b == 1 then Some(Remove)
    else if b == 2 then Some(Self)
    else None
  }

  lemma PlayerDataModeRoundTrip(m: PlayerDataMode)
    ensures PlayerDataModeFromCode(PlayerDataModeCode(m)) == Some(m)
  {
  }

  lemma PlayerDataModeCodesDistinct(m: PlayerDataMode, n: PlayerDataMode)
    ensures PlayerDataModeCode(m) == PlayerDataModeCode(n) <==> m == n
  {
    PlayerDataModeRoundTrip(m);
    PlayerDataModeRoundTrip(n);
  }

  // ---------------------------------------------------------------------------
  // StateChange (client -> server), codes 0..2

  datatype StateChange = Disconnect | Start | Skip

  function StateChangeCode(c: StateChange): (b: u8)
    ensures b < 3
  {
    match c
    case Disconnect => 0
    case Start => 1
    case Skip => 2
  }

  /** Only the bytes 0, 1 and 2 correspond to a state change request. */
  function StateChangeFromCode(b: u8): (r: Option<StateChange>)
    ensures r.Some? <==> b < 3
    ensures r.Some? ==> StateChangeCode(r.value) == b
  {
    if b == 0 then Some(Disconnect)
    else if b == 1 then Some(Start)
    else if b == 2 then Some(Skip)
    else None
  }

  lemma StateChangeRoundTrip(c: StateChange)
    ensures StateChangeFromCode(StateChangeCode(c)) == Some(c)
  {
  }

  lemma StateChangeCodesDistinct(c: StateChange, d: StateChange)
    ensures StateChangeCode(c) == StateChangeCode(d) <==> c == d
  {
    StateChangeRoundTrip(c);
    StateChangeRoundTrip(d);
  }

  // ---------------------------------------------------------------------------
  // Packet payloads

  /** One question as the host sends it when creating a game. */
  datatype CreateQuestionData = CreateQuestionData(
    imageType: string,
    image: seq<u8>,
    question: string,
    answers: seq<string>,
    values: seq<u8>)

  /** Player name -> score, as carried by the scores packet. */
  type ScoresMap = map<string, u32>

  /** Packets the server sends; the id of each is given by ServerPacketId. */
  datatype ServerPacket =
    | SDisconnect(reason: string)
    | SError(cause: string)
    | SJoinedGame(id: string, owner: bool, title: string)
    | SNameTakenResult(result: bool)
    | SGameState(state: GameState)
    | SPlayerData(id: string, name: string, mode: PlayerDataMode)
    | STimeSync(total: nat, remaining: nat)
    | SQuestion(image: seq<u8>, question: string, answers: seq<string>)
    | SAnswerResult(result: bool)
    | SScores(scores: ScoresMap)

  /** Packets a client sends; the id of each is given by ClientPacketId. */
  datatype ClientPacket =
    | CCreateGame(title: string, questions: seq<CreateQuestionData>)
    | CCheckNameTaken(id: string, name: string)
    | CRequestGameState(id: string)
    | CRequestJoin(id: string, name: string)
    | CStateChange(state: StateChange)
    | CAnswer(answer: u8)  // field `id` on the wire; renamed, as `id` is a string in the other variants
    | CKick(id: string)

  function ServerPacketId(p: ServerPacket): (id: u8)
    ensures id <= 0x09
  {
    match p
    case SDisconnect(_) => 0x00
    case SError(_) => 0x01
    case SJoinedGame(_, _, _) => 0x02
    case SNameTakenResult(_) => 0x03
    case SGameState(_) => 0x04
    case SPlayerData(_, _, _) => 0x05
    case STimeSync(_, _) => 0x06
    case SQuestion(_, _, _) => 0x07
    case SAnswerResult(_) => 0x08
    case SScores(_) => 0x09
  }

  function ClientPacketId(p: ClientPacket): (id: u8)
    ensures id <= 0x06
  {
    match p
    case CCreateGame(_, _) => 0x00
    case CCheckNameTaken(_, _) => 0x01
    case CRequestGameState(_) => 0x02
    case CRequestJoin(_, _) => 0x03
    case CStateChange(_) => 0x04
    case CAnswer(_) => 0x05
    case CKick(_) => 0x06
  }

  /** Two server packets with the same id are the same kind of packet. */
  lemma ServerPacketIdsDistinct(p: ServerPacket, q: ServerPacket)
    requires ServerPacketId(p) == ServerPacketId(q)
    ensures p.SDisconnect? == q.SDisconnect? && p.SError? == q.SError?
    ensures p.SJoinedGame? == q.SJoinedGame? && p.SNameTakenResult? == q.SNameTakenResult?
    ensures p.SGameState? == q.SGameState? && p.SPlayerData? == q.SPlayerData?
    ensures p.STimeSync? == q.STimeSync? && p.SQuestion? == q.SQuestion?
    ensures p.SAnswerResult? == q.SAnswerResult? && p.SScores? == q.SScores?
  {
  }

  /** Two client packets with the same id are the same kind of packet. */
  lemma ClientPacketIdsDistinct(p: ClientPacket, q: ClientPacket)
    requires ClientPacketId(p) == ClientPacketId(q)
    ensures p.CCreateGame? == q.CCreateGame? && p.CCheckNameTaken? == q.CCheckNameTaken?
    ensures p.CRequestGameState? == q.CRequestGameState? && p.CRequestJoin? == q.CRequestJoin?
    ensures p.CStateChange? == q.CStateChange? && p.CAnswer? == q.CAnswer?
    ensures p.CKick? == q.CKick?
  {
  }
}
