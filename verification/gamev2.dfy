/**
 * The game registry of the quiz backend and the handling of one client packet.
 *
 * `GameManager` owns the map from game code to `Game`. `Handle` is one turn of
 * the manager's receive loop: it turns a client packet, sent over connection
 * `conn`, into one `ClientAction` for that connection, creating a game or adding
 * a player on the way. The channel, the task that runs the loop and the sending
 * of the action are not modelled.
 *
 * The two `Game` methods the loop calls, `is_name_taken` and `new_player`, are
 * not part of this model; the manager receives them as function values: whether
 * a name is taken in a game, and the id `new_player` hands the joining player.
 */
module GameV2 {
  import P = Packets
  import W = Wrappers
  import opened Tools

  /** The address of a client connection (an actor address in the server). */
  type ConnectionId = nat
  /** A reading of the monotonic clock, in milliseconds. */
  type Instant = nat
  /** A reading of the wall clock, in milliseconds since the Unix epoch. */
  type SystemTime = nat
  /** A length of time, in milliseconds. */
  type Duration = nat

  /** Length of a game code. */
  const IdLength: nat := 5

  const GameNotFound: string := "That game code doesn't exist"
  const NameInUse: string := "That name is already in use"

  /** A question of a game; `startTime` is when it was shown, if it has been. */
  datatype Question = Question(data: P.CreateQuestionData, startTime: W.Option<SystemTime>)

  /** A roster entry: the player's id, chosen name and connection. */
  datatype Player = Player(id: Identifier, name: string, connection: ConnectionId)

  datatype GameTimer = GameTimer(
    lastSync: Instant,
    start: Instant,
    duration: Duration,
    elapsed: Duration,
    needSync: bool)

  datatype Game = Game(
    host: ConnectionId,
    id: Identifier,
    title: string,
    questions: seq<Question>,
    players: map<Identifier, Player>,
    state: P.GameState,
    timer: GameTimer)

  /** What the manager sends back to the connection a packet came from. */
  datatype ClientAction =
    | CreatedGame(id: Identifier, title: string)
    | Error(cause: string)
    | NameTakenResult(taken: bool)
    | Packet(packet: P.ServerPacket)
    | JoinedGame(id: Identifier, playerId: Identifier, title: string)
    | StateChange(state: P.StateChange)
    | BeginKick(id: Identifier)
    | None

  /** A fresh timer, both instants read from the clock at `now`: nothing to track, nothing to sync. */
  function NewTimer(now: Instant): (t: GameTimer)
    ensures t.duration == 0 && t.elapsed == 0 && !t.needSync
    ensures t.start == now && t.lastSync == now
  {
    GameTimer(now, now, 0, 0, false)
  }

  /** A new game: waiting, with no players, hosted by `host`, under code `id`. */
  function NewGame(host: ConnectionId, id: Identifier, title: string, questions: seq<Question>, now: Instant): (g: Game)
    ensures g.state == P.Waiting && g.players == map[]
    ensures g.host == host && g.id == id && g.title == title && g.questions == questions
    ensures g.timer == NewTimer(now)
  {
    Game(host, id, title, questions, map[], P.Waiting, NewTimer(now))
  }

  /** Wraps each submitted question, in order, as one not yet shown. */
  method WrapQuestions(questions: seq<P.CreateQuestionData>) returns (q: seq<Question>)
    ensures |q| == |questions|
    ensures forall i :: 0 <= i < |q| ==> q[i].data == questions[i] && q[i].startTime == W.None
  {
    q := [];
    for k := 0 to |questions|
      invariant |q| == k
      invariant forall i :: 0 <= i < k ==> q[i].data == questions[i] && q[i].startTime == W.None
    {
      q := q + [Question(questions[k], W.None)];
    }
  }

  class GameManager {
    var games: map<Identifier, Game>
    /** `game.is_name_taken(name)` */
    const isNameTaken: (Game, string) -> bool
    /** The id `game.new_player(name, conn)` gives the new player joining over `conn`. */
    const newPlayerId: (Game, string, ConnectionId) -> Identifier

    /**
     * Every stored game is filed under its own code, which is a game code of
     * IdLength symbols, and its state is a real one (DoesNotExist is only ever
     * a reply).
     */
    ghost predicate Valid()
      reads this
    {
      forall id :: id in games ==>
        games[id].id == id && IsIdentifierOf(id, IdLength) && games[id].state != P.DoesNotExist
    }

    constructor (isNameTaken: (Game, string) -> bool, newPlayerId: (Game, string, ConnectionId) -> Identifier)
      ensures Valid() && games == map[]
      ensures this.isNameTaken == isNameTaken && this.newPlayerId == newPlayerId
    {
      games := map[];
      this.isNameTaken := isNameTaken;
      this.newPlayerId := newPlayerId;
    }

    function IsGameId(id: Identifier): (b: bool)
      reads this
      ensures b <==> id in games
    {
      id in games
    }

    function GetGame(id: Identifier): (r: W.Option<Game>)
      reads this
      ensures r.Some? <==> id in games
      ensures r.Some? ==> r.value == games[id]
    {
      if id in games then W.Some(games[id]) else W.None
    }

    method InsertGame(id: Identifier, game: Game)
      modifies this
      ensures games == old(games)[id := game]
    {
      games := games[id := game];
    }

    /**
     * CreateGame: picks a code not in use, registers a new waiting game hosted
     * by `conn` under it, leaves every other game as it was, and replies with
     * the code and the title. The retry loop of the server (draw a code until
     * one is free) is a choice among the free codes; one exists as long as
     * fewer than 16^IdLength games are registered.
     */
    method HandleCreateGame(conn: ConnectionId, title: string, questions: seq<P.CreateQuestionData>, now: Instant)
      returns (action: ClientAction)
      requires Valid()
      requires |games| < Pow16(IdLength)
      modifies this
      ensures Valid()
      ensures action.CreatedGame? && action.title == title
      ensures action.id !in old(games) && IsIdentifierOf(action.id, IdLength)
      ensures action.id in games
      ensures forall id :: id in old(games) ==> id in games && games[id] == old(games)[id]
      ensures games.Keys == old(games).Keys + {action.id}
      ensures var g := games[action.id];
        g.state == P.Waiting && g.players == map[] && g.host == conn && g.id == action.id && g.title == title &&
        g.timer == NewTimer(now) &&
        |g.questions| == |questions| &&
        forall i :: 0 <= i < |questions| ==> g.questions[i] == Question(questions[i], W.None)
    {
      var id := FreeCode();
      var q := WrapQuestions(questions);
      var game := NewGame(conn, id, title, q, now);
      InsertGame(id, game);
      action := CreatedGame(id, title);
    }

    /** A game code of IdLength symbols that is not in use (the retry loop of CreateGame). */
    method FreeCode() returns (id: Identifier)
      requires |games| < Pow16(IdLength)
      ensures IsIdentifierOf(id, IdLength) && !IsGameId(id)
    {
      UnusedIdentifierExists(games.Keys, IdLength);
      var v: nat :| v < Pow16(IdLength) && FromValue(v, IdLength) !in games;
      id := FromValue(v, IdLength);
    }

    /** CheckNameTaken: whether `name` is taken in game `id`, or an error when there is no such game. */
    method HandleCheckNameTaken(id: Identifier, name: string) returns (action: ClientAction)
      ensures id !in games ==> action == Error(GameNotFound)
      ensures id in games ==> action == NameTakenResult(isNameTaken(games[id], name))
    {
      var game := GetGame(id);
      match game
      case None => action := Error(GameNotFound);
      case Some(g) => action := NameTakenResult(isNameTaken(g, name));
    }

    /** RequestGameState: the state of game `id`, DoesNotExist exactly when there is no such game. */
    method HandleRequestGameState(id: Identifier) returns (action: ClientAction)
      requires Valid()
      ensures action.Packet? && action.packet.SGameState?
      ensures action.packet.state == P.DoesNotExist <==> id !in games
      ensures id in games ==> action.packet.state == games[id].state
    {
      var game := GetGame(id);
      var state := match game
        case None => P.DoesNotExist
        case Some(g) => g.state;
      action := Packet(P.SGameState(state));
    }

    /**
     * RequestJoin: an error when there is no game `id` or the name is taken
     * there, and then nothing changes; otherwise the game gains one roster entry
     * under the id `new_player` gives, and the reply carries the code, that id
     * and the game's title.
     */
    method HandleRequestJoin(conn: ConnectionId, id: Identifier, name: string) returns (action: ClientAction)
      requires Valid()
      modifies this
      ensures Valid()
      ensures id !in old(games) ==> action == Error(GameNotFound) && games == old(games)
      ensures id in old(games) && isNameTaken(old(games)[id], name) ==>
        action == Error(NameInUse) && games == old(games)
      ensures id in old(games) && !isNameTaken(old(games)[id], name) ==>
        var g := old(games)[id];
        var pid := newPlayerId(g, name, conn);
        action == JoinedGame(id, pid, g.title) &&
        games == old(games)[id := g.(players := g.players[pid := Player(pid, name, conn)])]
    {
      var game := GetGame(id);
      match game
      case None =>
        action := Error(GameNotFound);
      case Some(g) =>
        if isNameTaken(g, name) {
          action := Error(NameInUse);
        } else {
          var playerId := newPlayerId(g, name, conn);
          games := games[id := g.(players := g.players[playerId := Player(playerId, name, conn)])];
          action := JoinedGame(id, playerId, g.title);
        }
    }

    /**
     * One turn of the receive loop: the action for `packet` from `conn`.
     * StateChange and Kick are passed on unchanged, an answer yields no action,
     * and only CreateGame and a successful RequestJoin change the registry.
     */
    method Handle(conn: ConnectionId, packet: P.ClientPacket, now: Instant) returns (action: ClientAction)
      requires Valid()
      requires packet.CCreateGame? ==> |games| < Pow16(IdLength)
      modifies this
      ensures Valid()
      ensures !packet.CCreateGame? && !packet.CRequestJoin? ==> games == old(games)
      ensures packet.CCreateGame? ==>
        action.CreatedGame? && action.title == packet.title &&
        action.id !in old(games) && IsIdentifierOf(action.id, IdLength) && action.id in games &&
        var g := games[action.id];
        games == old(games)[action.id := g] &&
        g.state == P.Waiting && g.players == map[] && g.host == conn && g.id == action.id &&
        g.title == packet.title && g.timer == NewTimer(now) &&
        |g.questions| == |packet.questions| &&
        forall i :: 0 <= i < |packet.questions| ==> g.questions[i] == Question(packet.questions[i], W.None)
      ensures packet.CCheckNameTaken? ==>
        action == if packet.id in games then NameTakenResult(isNameTaken(games[packet.id], packet.name))
                  else Error(GameNotFound)
      ensures packet.CRequestGameState? ==>
        action.Packet? && action.packet.SGameState? &&
        (action.packet.state == P.DoesNotExist <==> packet.id !in games) &&
        (packet.id in games ==> action.packet.state == games[packet.id].state)
      ensures packet.CRequestJoin? && packet.id !in old(games) ==>
        action == Error(GameNotFound) && games == old(games)
      ensures packet.CRequestJoin? && packet.id in old(games) && isNameTaken(old(games)[packet.id], packet.name) ==>
        action == Error(NameInUse) && games == old(games)
      ensures packet.CRequestJoin? && packet.id in old(games) && !isNameTaken(old(games)[packet.id], packet.name) ==>
        var g := old(games)[packet.id];
        var pid := newPlayerId(g, packet.name, conn);
        action == JoinedGame(packet.id, pid, g.title) &&
        games == old(games)[packet.id := g.(players := g.players[pid := Player(pid, packet.name, conn)])]
      ensures packet.CStateChange? ==> action == StateChange(packet.state)
      ensures packet.CKick? ==> action == BeginKick(packet.id)
      ensures packet.CAnswer? ==> action == None
    {
      match packet
      case CCreateGame(title, questions) =>
        action := HandleCreateGame(conn, title, questions, now);
      case CCheckNameTaken(id, name) =>
        action := HandleCheckNameTaken(id, name);
      case CRequestGameState(id) =>
        action := HandleRequestGameState(id);
      case CRequestJoin(id, name) =>
        action := HandleRequestJoin(conn, id, name);
      case CStateChange(state) =>
        action := StateChange(state);
      case CKick(id) =>
        action := BeginKick(id);
      case CAnswer(_) =>
        action := None;
    }
  }
}
