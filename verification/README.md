# Don't Take the Last Teddy — game manager and board, in Dafny

This project models the game logic of "Don't Take the Last Teddy", a
two-player misère Nim game on bins of teddy bears. It covers:

- the game manager's turn-over step (`HandleTurnOverEvent`);
- its session loop (`Start`, `StartGame`);
- the board's set-up and count syncing (`CreateNewBoard`, `SetBinCounts`, the `Configuration` setter).

Three modules:

- `Teddy` models the values the code uses without defining them here.
  - A player name is `Player1` or `Player2`.
  - A difficulty is `Easy` or `Hard`.
  - A configuration is a `seq<nat>` of bear counts.
  - A bin carries only its count.
  - The game constants are parameters (`Constants`).
  - `Result` models the index-out-of-range exception. `OutOfRange(state)` holds everything written before the throw.
- `Board` models `Board.cs`.
  - Random draws are parameters (`Draws`).
  - `DrawsFit` constrains them to the ranges the code asks of Unity's integer `Random.Range`. That range includes its lower bound and excludes its upper bound.
- `DontTakeTheLastTeddy` models the game manager.
  - Emitted events (`GameStarting`, `TakeTurn`, `GameOver`) are returned as values. They do not go to registered listeners.

The central rule is the misère rule. When a turn leaves the board empty, the
game is over, and the winner is the player who did not make that turn.
Otherwise the other player gets the next turn on exactly the configuration
left behind. `LastTeddyLoses` and `GameGoesOn` lift this one step to a whole
game. Turns alternate, and the player whose turn first empties the board is
never the winner.

Notes on the code:

- The comment beside the bin-count draw (Board.cs:67-69) asks for MinBins through MaxBins bins. The code draws `Random.Range(MinBins - 1, MaxBins + 1)`, which gives MinBins - 1 through MaxBins. The model follows the code. `Board.DrawnBinCounts` proves that the bin counts reachable under the code are exactly MinBins - 1 through MaxBins. When MinBins is 1, a game can therefore open on a board with no bins, whose configuration is empty.
- `Board.cs` does not check the game constants before drawing. Here the constants are assumed valid (`Constants.Valid`).
- Neither `Board.cs` nor `DontTakeTheLastTeddy.cs` validates or applies moves (removing bears from one bin). Moves are made by the `Player` class, which is not part of this model.

## Model

| member | source | states |
|---|---|---|
| `Board.SetBinCounts` | DontTakeTheLastTeddy/Assets/scripts/Board.cs:115-121 | For every bin i, the bin's count becomes `binContents[i]`. The number of bins is unchanged. It returns normally exactly when `binContents` is at least as long as the bin list. Otherwise it throws at the first missing index: earlier bins are written and later bins keep their counts. |
| `Board.SetConfiguration` | DontTakeTheLastTeddy/Assets/scripts/Board.cs:37-45 | A read of the configuration afterwards returns the value written, even if the count sync throws. Each bin shows the value's count at its index. When the lengths match, bins and configuration are fully in sync. |
| `Board.CreateNewBoard` | DontTakeTheLastTeddy/Assets/scripts/Board.cs:52-97 | No old bin survives. The new board has exactly the drawn number of bins, between MinBins - 1 and MaxBins. There is one configuration entry per bin, equal to that bin's drawn content, in the range 1 to MaxBearsPerBin. The bins display the configuration. The configuration is non-empty exactly when at least one bin was drawn. |
| `Board.DrawnBinCounts` | DontTakeTheLastTeddy/Assets/scripts/Board.cs:67-72 | A bin count n can be drawn if and only if MinBins - 1 <= n <= MaxBins. This range is one below the MinBins lower bound the comment asks for. |
| `Teddy.EmptyIffNoBears` | DontTakeTheLastTeddy/Assets/scripts/DontTakeTheLastTeddy.cs:135 | A configuration is empty, the game-over test, exactly when its bins hold zero bears in total. |
| `DontTakeTheLastTeddy.TurnOverEvent` | DontTakeTheLastTeddy/Assets/scripts/DontTakeTheLastTeddy.cs:134-160 | The event answering a finished turn is never GameStarting. It is GameOver exactly when the new configuration is empty, and then the winner is not the player who moved. Otherwise it is a TakeTurn for the other player, carrying exactly the new configuration. |
| `DontTakeTheLastTeddy.HandleTurnOver` | DontTakeTheLastTeddy/Assets/scripts/DontTakeTheLastTeddy.cs:129-161 | The board stores the new configuration whatever the outcome, and the difficulties are unchanged. The bin list keeps its length, and each bin shows the new configuration's count at its index, or keeps its count past the configuration's end. When the store returns normally, exactly one event is emitted, the one `TurnOverEvent` gives. On an empty configuration that event is `GameOver(opponent of the mover)`. Otherwise it is `TakeTurn(opponent, same configuration)`. If the board store throws, nothing is emitted. |
| `DontTakeTheLastTeddy.LastTeddyLoses` | DontTakeTheLastTeddy/Assets/scripts/DontTakeTheLastTeddy.cs:129-160 | Suppose every turn's configuration has at least as many entries as the board has bins, so each board store returns normally. Suppose also that a run of turns ends at the first configuration that is empty. Then turns alternate from the first player, the game ends in GameOver, and the winner is the opponent of the player who made the emptying turn, never that player. |
| `DontTakeTheLastTeddy.GameGoesOn` | DontTakeTheLastTeddy/Assets/scripts/DontTakeTheLastTeddy.cs:147-160 | Suppose every turn's configuration has at least as many entries as the board has bins. Then, while no turn empties the board, the game continues. The turn passes to the opponent of the last mover, carrying the last configuration. |
| `DontTakeTheLastTeddy.StartGame` | DontTakeTheLastTeddy/Assets/scripts/DontTakeTheLastTeddy.cs:110-121 | The players get the given difficulties. The board is freshly built from the draws. The first TakeTurn goes to the given first player and carries the new board's configuration. |
| `DontTakeTheLastTeddy.Start` | DontTakeTheLastTeddy/Assets/scripts/DontTakeTheLastTeddy.cs:45-73 | Exactly `NumGames` (10) games are opened. Each game emits GameStarting and then one TakeTurn. Game g opens with Player1 when g is even and Player2 when g is odd. Every game sets Player1 to Easy and Player2 to Hard, and its board is built from that game's draws. The first TakeTurn carries that board's configuration. |

## Left out

- Unity lifecycle and scene lookup (`Awake`, `FindGameObjectWithTag`, `GetComponent`, `AddComponent`): engine plumbing with no game logic.
- Event registration (`AddTakeTurnListener`, `AddGameStartingListener`, `AddGameOverListener`, the `EventManager` and `UnityEvent` lists): emitted events are return values, and listeners are not modelled.
- `Timer` and `showScoreTimer`: `Run()` does not block the session loop. So `Start` opens its ten games back to back, and nothing orders them against the games' turns.
- Bin positions, `binWidth`, `SetBinWidth`, prefab instantiation and destruction: floating-point layout and engine objects. A bin carries only its count, and a new bin starts at count 0 until `SetBinCounts` overwrites it.
- Random draws: real randomness is not modelled. The draws are parameters constrained to the requested ranges. Unity's behaviour for an empty range is not modelled, because `Constants.Valid` keeps every range non-empty.
- `Constants.Valid` (1 <= MinBins <= MaxBins and MaxBearsPerBin >= 1) is an assumption. The values of GameConstants are not part of this model.
- `Teddy.Empty` ("every bin holds zero bears") is an assumption about the `Configuration` class, which is not part of this model. So are the class's `Bins` list (taken to be the configuration itself) and its constructor.
- `Player` (move choice, difficulty semantics) is not part of this model. So moves, their validation, and the rule that a move keeps the number of bins are not modelled. `HandleTurnOver` accepts any configuration.
- DontTakeTheLastTeddy.LastTeddyLoses, DontTakeTheLastTeddy.GameGoesOn: these are about runs in which every board store returns normally. If a turn's configuration has fewer entries than the board has bins, `HandleTurnOver` emits nothing, and the run stops there. `Player` is not part of this model, so the rule that a move keeps the number of bins cannot be derived here.
- Exception propagation out of Unity's event invocation is not modelled. The turn-over handler is only shown to stop before emitting anything when the board store throws.
