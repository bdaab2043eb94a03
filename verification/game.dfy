/**
  The game manager: it opens a fixed number of games, alternating the first
  player, and answers each TurnOver by storing the new configuration and
  either ending the game or passing the turn to the other player. Events the
  manager invokes are returned as values instead of going to listeners.
 */
module DontTakeTheLastTeddy {
  import opened Teddy
  import Board

  /** Number of games a session plays. */
  const NumGames: nat := 10

  /** The events the game manager invokes. */
  datatype Event =
    | GameStarting
    | TakeTurn(player: PlayerName, configuration: Configuration)
    | GameOver(winner: PlayerName)

  /** The manager's state: the board and the difficulty it last gave each player. */
  datatype Manager = Manager(board: Board.State, player1: Difficulty, player2: Difficulty)

  /**
    The event that answers a finished turn: the game is over when the new
    configuration is empty, and then the player who emptied it is not the
    winner; otherwise the other player takes the next turn on that configuration.
   */
  function TurnOverEvent(player: PlayerName, newConfiguration: Configuration): (e: Event)
    ensures !e.GameStarting?
    ensures e.GameOver? <==> Empty(newConfiguration)
    ensures e.GameOver? ==> e.winner != player
    ensures e.TakeTurn? ==> e.player != player && e.configuration == newConfiguration
  {
    if Empty(newConfiguration) then
      if player == Player1 then GameOver(Player2) else GameOver(Player1)
    else
      if player == Player1 then TakeTurn(Player2, newConfiguration)
      else TakeTurn(Player1, newConfiguration)
  }

  /**
    HandleTurnOverEvent: stores the new configuration on the board, then
    emits exactly one event for it. If storing it throws (the configuration
    has fewer entries than the board has bins), nothing is emitted.
   */
  method HandleTurnOver(m: Manager, player: PlayerName, newConfiguration: Configuration)
    returns (r: Result<Manager>, emitted: seq<Event>)
    ensures r.After().board.configuration == newConfiguration
    ensures r.After().player1 == m.player1 && r.After().player2 == m.player2
    ensures r.Ok? <==> |m.board.bins| <= |newConfiguration|
    ensures r.OutOfRange? ==> emitted == []
    ensures r.Ok? && Empty(newConfiguration) ==> emitted == [GameOver(Other(player))]
    ensures r.Ok? && !Empty(newConfiguration) ==> emitted == [TakeTurn(Other(player), newConfiguration)]
    ensures r.Ok? ==> emitted == [TurnOverEvent(player, newConfiguration)]
    ensures |r.After().board.bins| == |m.board.bins|
    ensures forall i :: 0 <= i < |m.board.bins| ==>
              r.After().board.bins[i].count ==
                if i < |newConfiguration| then newConfiguration[i] else m.board.bins[i].count
    ensures r.Ok? && |newConfiguration| == |m.board.bins| ==> Board.Synced(r.value.board)
  {
    var stored := Board.SetConfiguration(m.board, newConfiguration);
    match stored
    case OutOfRange(b) =>
      r := OutOfRange(m.(board := b));
      emitted := [];
    case Ok(b) =>
      r := Ok(m.(board := b));
      emitted := [TurnOverEvent(player, newConfiguration)];
  }

  /**
    The event that ends a run of turns: `turns[i]` is the configuration the
    player holding the turn leaves behind, starting with `mover`, and each
    TakeTurn hands the turn to the player it names. Turns after a GameOver are ignored.
    Each turn is answered as HandleTurnOver answers it when the board store
    returns normally, that is, when every configuration in `turns` has at least
    as many entries as the board has bins (a move keeps the number of bins).
   */
  function Play(mover: PlayerName, turns: seq<Configuration>): Event
    requires |turns| > 0
    decreases |turns|
  {
    var e := TurnOverEvent(mover, turns[0]);
    if |turns| == 1 || e.GameOver? then e else Play(e.player, turns[1..])
  }

  /**
    The player who makes turn `i` of a game that `first` opens; also the
    player who opens game `i` of a session, which Player1 opens.
   */
  function MoverOf(first: PlayerName, i: nat): PlayerName
  {
    if i % 2 == 0 then first else Other(first)
  }

  /**
    Turns alternate, and the player whose turn first empties the board loses:
    the game ends with the other player as the winner.
   */
  lemma {:induction false} LastTeddyLoses(first: PlayerName, turns: seq<Configuration>)
    requires |turns| > 0
    requires forall i :: 0 <= i < |turns| - 1 ==> !Empty(turns[i])
    requires Empty(turns[|turns| - 1])
    ensures Play(first, turns) == GameOver(Other(MoverOf(first, |turns| - 1)))
    ensures Play(first, turns).winner != MoverOf(first, |turns| - 1)
    decreases |turns|
  {
    if |turns| > 1 {
      var rest := turns[1..];
      assert forall i :: 0 <= i < |rest| - 1 ==> rest[i] == turns[i + 1];
      LastTeddyLoses(Other(first), rest);
      assert MoverOf(Other(first), |rest| - 1) == MoverOf(first, |turns| - 1);
    }
  }

  /** While no turn empties the board, the game goes on, with turns alternating. */
  lemma {:induction false} GameGoesOn(first: PlayerName, turns: seq<Configuration>)
    requires |turns| > 0
    requires forall i :: 0 <= i < |turns| ==> !Empty(turns[i])
    ensures Play(first, turns) == TakeTurn(Other(MoverOf(first, |turns| - 1)), turns[|turns| - 1])
    decreases |turns|
  {
    if |turns| > 1 {
      var rest := turns[1..];
      assert forall i :: 0 <= i < |rest| ==> rest[i] == turns[i + 1];
      GameGoesOn(Other(first), rest);
      assert MoverOf(Other(first), |rest| - 1) == MoverOf(first, |turns| - 1);
    }
  }

  /**
    StartGame: sets both players' difficulties, builds a new board from the
    draws `d`, and gives the first turn to `firstPlayer` on the new board's configuration.
   */
  method StartGame(m: Manager, k: Constants, d: Board.Draws, firstPlayer: PlayerName,
                   player1Difficulty: Difficulty, player2Difficulty: Difficulty)
    returns (r: Manager, e: Event)
    requires k.Valid()
    requires Board.DrawsFit(k, d)
    ensures r.player1 == player1Difficulty && r.player2 == player2Difficulty
    ensures Board.BuiltFrom(r.board, d)
    ensures e == TakeTurn(firstPlayer, r.board.configuration)
  {
    var board := Board.CreateNewBoard(m.board, k, d);
    r := Manager(board, player1Difficulty, player2Difficulty);
    e := TakeTurn(firstPlayer, board.configuration);
  }

  /**
    Start: opens NumGames games one after another, game g with `draws[g]`.
    Each opening emits GameStarting and then one TakeTurn; `openings[g]` is the
    manager's state right after game g was opened. The loop does not wait for
    a game to end before opening the next one.
   */
  method Start(m: Manager, k: Constants, draws: seq<Board.Draws>)
    returns (r: Manager, log: seq<Event>, openings: seq<Manager>)
    requires k.Valid()
    requires |draws| == NumGames
    requires forall g :: 0 <= g < |draws| ==> Board.DrawsFit(k, draws[g])
    ensures |openings| == NumGames
    ensures forall g :: 0 <= g < |openings| ==>
              openings[g].player1 == Easy && openings[g].player2 == Hard
              && Board.BuiltFrom(openings[g].board, draws[g])
    ensures |log| == 2 * NumGames
    ensures forall i :: 0 <= i < |log| ==>
              log[i] == if i % 2 == 0 then GameStarting
                        else TakeTurn(MoverOf(Player1, i / 2), openings[i / 2].board.configuration)
    ensures r == openings[NumGames - 1]
  {
    r := m;
    log := [];
    openings := [];
    var gameCounter := 0;
    var playerOneGoesFirst := true;
    while gameCounter < NumGames
      invariant 0 <= gameCounter <= NumGames
      invariant playerOneGoesFirst <==> gameCounter % 2 == 0
      invariant |openings| == gameCounter
      invariant forall g :: 0 <= g < |openings| ==>
                  openings[g].player1 == Easy && openings[g].player2 == Hard
                  && Board.BuiltFrom(openings[g].board, draws[g])
      invariant |log| == 2 * gameCounter
      invariant forall i :: 0 <= i < |log| ==>
                  log[i] == if i % 2 == 0 then GameStarting
                            else TakeTurn(MoverOf(Player1, i / 2), openings[i / 2].board.configuration)
      invariant gameCounter > 0 ==> r == openings[gameCounter - 1]
    {
      var e;
      if playerOneGoesFirst {
        r, e := StartGame(r, k, draws[gameCounter], Player1, Easy, Hard);
      } else {
        r, e := StartGame(r, k, draws[gameCounter], Player2, Easy, Hard);
      }
      assert e == TakeTurn(MoverOf(Player1, gameCounter), r.board.configuration);
      log := log + [GameStarting, e];
      openings := openings + [r];
      playerOneGoesFirst := !playerOneGoesFirst;
      gameCounter := gameCounter + 1;
    }
  }
}
