# A verified model of the game hub's core

The hub is a small mobile web app. From a lobby the player picks one of four
games:
- dice;
- Gomoku (five in a row on a 13 x 13 board);
- Chinese chess;
- four-player Mahjong.

Then the player picks a mode:
- single-player puzzles;
- play against the computer;
- a multiplayer room joined with a three-digit code.

This project models the navigation and the room lobby, and the three board and
tile games, in Dafny. It proves what each of them promises.

| file | module | what it models |
|---|---|---|
| `hub_types.dfy` | `HubTypes` | the shared `GameType`, `GameMode` and `RoomInfo` of `types.ts` |
| `app.dfy` | `App` | `App.tsx`: the four screens, the modes each game offers, game and mode selection, joining a room, and the header's back button |
| `room_lobby.dfy` | `RoomLobby` | `components/RoomLobby.tsx`: the host's random room code, the guest keypad, and the delayed join |
| `gomoku.dfy` | `Gomoku` | `components/GomokuGame.tsx`: `checkWin`, the evaluator (`evaluateMove`, `checkDir`, `getScore`), `findBestMoveLocally`, the rule that accepts an advised move, `handleMove`, the AI turn and `reset` |
| `chinese_chess.dfy` | `ChineseChess` | `components/ChineseChess.tsx`: the opening layout, the two endgame puzzles, `isMoveLegalBasic`, `executeMove` and `handleClick` |
| `mahjong_tiles.dfy` | `MahjongTiles` | the tile names, `getTileWeight`, the 136-tile set and `sortHand` |
| `mahjong_hand.dfy` | `MahjongHand` | `checkHu` and `checkSets`, and what they decide: one pair plus melds |
| `mahjong_game.dfy` | `MahjongGame` | the Mahjong table: the deal, the turn rotation with its draw, discards, seat 0's claims (pong, kong, hu, pass) and every timer callback |
| `sequences.dfy`, `decimal.dfy`, `wrappers.dfy` | `Sequences`, `Decimal`, `Wrappers` | shared pieces: stable sort by key, `indexOf`/`splice`, `toString`/`parseInt` of naturals, and `Option` |

## How the model is built

Each stateful component is a `class` whose fields are the component's state.
Each handler is a method whose `ensures` states the new state.

The pure helpers are functions and lemmas. Examples: the weight table, the
winning-hand search, the evaluator and the layouts.

Loops of the source are `while` loops proved against a specification
function. Examples: the walks of `checkWin` and `checkDir`, the scan of
`findBestMoveLocally`, the pair loop of `checkHu` and the pawn loop of
`setupStandardBoard`.

The Mahjong table's steps are functions from one `Table` value to the next,
so lemmas can talk about them. The `MahjongTable` class's methods are proved
equal to those functions.

Timers become explicit steps, each fired by a method:
- `MahjongTable.Tick`;
- `Lobby.JoinTimerFires`;
- `GomokuGame.ResolveAI`.

Random numbers become parameters. A number drawn by `Math.random()` is a real
in [0, 1). The shuffled deck is any ordering of the 136 tiles.

### What the model shows about the source

None of the following stops the source from working as a demo. Each is stated
by a lemma or a method contract named beside it.

**Mahjong**
- Seat 0 claims a discard with a kong. This reveals four copies and removes
  every copy from the hand. It keeps the tile count right exactly when seat 0
  held three copies (`KongOnDiscardKeepsIff`).
- The kong flag also comes from seat 0's own draw. A draw does not clear
  `lastDiscard` (`LastDiscardKept`). So a kong flag raised by a draw, or one
  still shown from an earlier offer, can lead to a kong on an old discard that
  seat 0 does not hold three of.
- A discard by seats 1 to 3 offers only claims that keep the tiles, as long
  as no stale flag is showing (`DiscardOffersSound`).
- In the model, every other step keeps the tiles (`ActionKeeps`,
  `FiredKeeps`, `DiscardKeeps`). The source's stale closures can still
  duplicate and lose tiles (see "Left out"). The steps keep:
  - at most four of each name;
  - well-formed revealed sets;
  - the latest discard on top of its thrower's pile.
- A kong has no replacement draw. After seat 0's kong, on a discard or on
  its own draw, the next turn goes to seat 1 (`KongFacts`,
  `KongDrawnTurnFacts`). After an AI seat's kong on its draw, the next seat
  draws (`AIDrawFacts`).

**Gomoku**
- The AI turn captures the board it started on. A `reset` while the AI is
  thinking is therefore overwritten when the delayed move lands
  (`Reset`, `ResolveAI`).
- On a full board `findBestMoveLocally` returns the occupied centre (6, 6).
  The move is then ignored and White stays to move
  (`FindBestMoveLocally`, `ResolveAI`).

**Chinese chess**
- `winner` and `isThinking` are never set after mounting.
- `handleClick` never consults `isMoveLegalBasic`, but every move it makes
  passes that test anyway (`HandleClick`).
- A move that takes a king does not end the game (`ExecuteMove`, `HandleClick`).

**Navigation**
- Backing out of a dice game shows the mode picker with no modes
  (`AvailableModes`, `Back`).
- `roomInfo` is never cleared once set.
- The room lobby's delayed join calls `onJoin` even after the player has left
  the room lobby (`HandleJoinRoom` has no precondition for that reason). So a
  stale join can start a game in a mode that game does not offer, for example
  Gomoku in single-player mode.

**Room lobby**
- The join timer survives cancel and delete (`JoinTimerFires`).
- Typing a third digit again after a delete schedules another join
  (`HandleKeypad`).
- The status line never returns to "waiting".

## Model

| member | source | states |
|---|---|---|
| `App.AllModesCover` | App.tsx:24-28 | every mode is listed in `allModes` |
| `App.Without` | App.tsx:34-35 | `filter(m => m.type !== except)` keeps exactly the modes other than `except`, and never more than it was given |
| `App.AvailableModes` | App.tsx:30-38 | dice offers no mode (the only game with none); chess offers every mode; Gomoku and Mahjong offer exactly the modes other than single-player |
| `App.BackFrom` | App.tsx:146-151 | the back button always changes the screen; it leads to the room lobby exactly from a multiplayer game, and to the lobby exactly from the mode picker |
| `App.BackReachesLobby` | App.tsx:146-151 | the header's back button always changes the screen and reaches the lobby within three presses; it reaches it in one exactly from the mode picker |
| `App.HubApp.constructor` | App.tsx:12-15 | the app opens on the lobby with no game, mode or room |
| `App.HubApp.HandleGameSelect` | App.tsx:40-49 | a game without modes starts at once in single-player mode; any other game opens the mode picker; the room is kept; the room lobby is only shown in multiplayer mode |
| `App.HubApp.HandleModeSelect` | App.tsx:51-58 | multiplayer opens the room lobby and any other mode starts the game; a single-player game can only be chess |
| `App.HubApp.HandleJoinRoom` | App.tsx:60-63 | the room is remembered and the game screen shows, from any screen, with the game and mode unchanged |
| `App.HubApp.Back` | App.tsx:146-151 | a multiplayer game goes back to the room lobby, the room lobby and any other game to the mode picker, and the mode picker to the lobby; the selections and the room are kept |
| `App.HubApp.LeaveRoomLobby` | App.tsx:126 | the room lobby's own back button returns to the mode picker |
| `App.HubApp.ExitGame` | App.tsx:137-140 | a game's exit button returns to the lobby, keeping the selections and the room |
| `RoomLobby.HostCode` | components/RoomLobby.tsx:17 | `floor(100 + r * 900)` for `r` in [0, 1) lies between 100 and 999 |
| `RoomLobby.HostCodeRange` | components/RoomLobby.tsx:17-18 | every code from 100 to 999 can be drawn, its text has exactly three digits, and the text reads back as the code |
| `RoomLobby.Keyed` | components/RoomLobby.tsx:22-25 | a key is appended while the code is shorter than three characters and ignored afterwards |
| `RoomLobby.AfterKeysPrefix` | components/RoomLobby.tsx:22-34 | any sequence of presses keeps exactly the first keys that fit into three characters |
| `RoomLobby.Deleted` | components/RoomLobby.tsx:36-38 | `slice(0, -1)` drops the last character, and the empty code stays empty |
| `RoomLobby.DeleteUndoesKey` | components/RoomLobby.tsx:22-38 | deleting right after a key that was taken restores the code |
| `RoomLobby.Lobby.constructor` | components/RoomLobby.tsx:11-14 | the lobby opens on the select screen with no code, "waiting", and no join scheduled |
| `RoomLobby.Lobby.StartCreate` | components/RoomLobby.tsx:16-20 | the create screen shows a three-digit code drawn from the random number; the rest of the state is kept |
| `RoomLobby.Lobby.OpenJoin` | components/RoomLobby.tsx:60-61 | the join button opens the keypad screen |
| `RoomLobby.Lobby.HandleKeypad` | components/RoomLobby.tsx:22-34 | the code grows by the key while under three characters; the press that completes it sets "connecting" and schedules one guest join with that code; the code never exceeds three characters |
| `RoomLobby.Lobby.DeleteNum` | components/RoomLobby.tsx:36-38 | the last typed character is deleted; a scheduled join stays scheduled |
| `RoomLobby.Lobby.JoinTimerFires` | components/RoomLobby.tsx:29-31 | the oldest scheduled join fires as a guest join with a three-character code, whatever screen is shown |
| `RoomLobby.Lobby.HostJoin` | components/RoomLobby.tsx:91-92 | the host joins the room whose code was drawn, as host |
| `RoomLobby.Lobby.BackButton` | components/RoomLobby.tsx:133-134 | on the select screen the button leaves the lobby and changes nothing; elsewhere it returns to the select screen and clears the typed code, leaving scheduled joins and the status alone |
| `Decimal.ParseNatToString` | components/RoomLobby.tsx:17 | `toString` of a natural reads back as the number |
| `Decimal.NatToStringThreeDigits` | components/RoomLobby.tsx:17 | a natural's text has three digits exactly when it is between 100 and 999 |
| `Decimal.DigitRunsOfPair` | components/GomokuGame.tsx:155-157 | the digit runs (`match(/\d+/g)`) of "a,b", for any non-digit separator, are exactly the texts of `a` and `b` |
| `Gomoku.DirectionsAreSteps` | components/GomokuGame.tsx:22 | the four directions are unit steps |
| `Gomoku.Walk` | components/GomokuGame.tsx:26-31 | the `while` walk collects exactly the run of `p` stones from a cell in one direction, and stops on the first cell off the board or not holding `p` |
| `Gomoku.RunShape` | components/GomokuGame.tsx:26-28 | the walked cells are the straight segment in that direction |
| `Gomoku.RunEndShape` | components/GomokuGame.tsx:26-28 | the walk stops just past its last stone, on a cell off the board or not holding `p` |
| `Gomoku.LineShape` | components/GomokuGame.tsx:24-32 | a direction's line starts at the placed cell, and every other entry is a `p` stone on the line through it |
| `Gomoku.LineThrough` | components/GomokuGame.tsx:24-32 | one round of `checkWin`'s loop builds the placed cell, the run forward and the run backward |
| `Gomoku.CheckWin` | components/GomokuGame.tsx:21-36 | `checkWin` returns the winning line that the specification function defines |
| `Gomoku.WinningLineFromIsFirst` | components/GomokuGame.tsx:21-36 | the answer is `null` exactly when no direction reaches five; otherwise it is the line of the first direction that does |
| `Gomoku.WinningLineShape` | components/GomokuGame.tsx:21-36 | a returned line has at least five entries, starts at the placed cell, and all its other cells hold `p` stones |
| `Gomoku.CheckDir` | components/GomokuGame.tsx:61-80 | `count` is the placed cell plus the `p` stones adjoining it on both sides (at least 1); `openEnds` counts the empty cells where the two walks stop (0 to 2) |
| `Gomoku.Score` | components/GomokuGame.tsx:44-59 | any count of at least one is worth at least 10 |
| `Gomoku.ScoreUrgent` | components/GomokuGame.tsx:44-59 | a direction scores 8000 or more exactly for a five, a four with an open end, or the opponent's open three |
| `Gomoku.EvalUpTo` | components/GomokuGame.tsx:82-87 | each direction adds at least 20 to the total, and no direction's share exceeds it |
| `Gomoku.EvaluationSymmetric` | components/GomokuGame.tsx:39-90 | `evaluateMove` treats the two colours alike: with every stone's colour exchanged and the other side to move, the score is the same |
| `Gomoku.EvaluateMove` | components/GomokuGame.tsx:39-90 | `evaluateMove` returns the sum over the four directions of both sides' scores, never below 80 |
| `Gomoku.UrgentEvaluation` | components/GomokuGame.tsx:39-90 | a cell where some side has a five or an open four, or the opponent has an open three, is evaluated at 8000 or more |
| `Gomoku.EmptyCellsSound` | components/GomokuGame.tsx:97-99 | the collected list holds only empty cells, in strictly increasing row-major order |
| `Gomoku.EmptyCellListed` | components/GomokuGame.tsx:97-99 | every empty cell is in the list |
| `Gomoku.CollectEmpties` | components/GomokuGame.tsx:95-99 | the nested `forEach` collects exactly the empty cells in row-major order |
| `Gomoku.EmptiesCount` | components/GomokuGame.tsx:95-101 | all 169 cells are listed exactly when the board is empty, and none exactly when it is full |
| `Gomoku.BestOfEmpties` | components/GomokuGame.tsx:103-115 | the scan returns a listed cell of maximal evaluation and, among those, the first of least distance to the centre; with no cells, the centre |
| `Gomoku.BestOfAllEmpties` | components/GomokuGame.tsx:92-116 | the best listed cell is the best empty cell of the board |
| `Gomoku.FindBestMoveLocally` | components/GomokuGame.tsx:92-116 | the centre on an empty or a full board; otherwise an empty cell of maximal evaluation for White, ties broken by distance to the centre, then by row-major order |
| `Gomoku.AdvisedMove` | components/GomokuGame.tsx:153-163 | an advised move replaces the local best only when the local best is below 8000, the advice has two numbers, and they name an empty cell |
| `Gomoku.AdviceInFormatIsTaken` | components/GomokuGame.tsx:153-163 | advice "r,c" naming an empty cell is always played when the local best is not urgent |
| `Gomoku.StonesPlaced` | components/GomokuGame.tsx:121-122 | putting a stone on an empty cell adds one stone of that colour and no other |
| `Gomoku.EmptyBoard` | components/GomokuGame.tsx:182 | the new board is 13 x 13 and empty |
| `Gomoku.GomokuGame.constructor` | components/GomokuGame.tsx:13-18 | the game starts with an empty board, Black to move, no winner and no last move |
| `Gomoku.GomokuGame.Place` | components/GomokuGame.tsx:121-132 | the stone goes down and becomes the last move; the mover wins with the line `checkWin` finds, or the turn passes to the other side |
| `Gomoku.GomokuGame.PlacedValid` | components/GomokuGame.tsx:118-133 | after a placement the colours still alternate (Black has one stone more exactly when White is to move), and a winner owns a line of at least five of its stones |
| `Gomoku.GomokuGame.HandleMove` | components/GomokuGame.tsx:118-133 | ignored on an occupied cell, after a win and while the AI thinks; otherwise exactly one cell changes, to the mover's stone, and the mover either wins or hands over the turn |
| `Gomoku.GomokuGame.TriggerAI` | components/GomokuGame.tsx:135-142 | in AI mode, with White to move, no winner and no AI turn pending, the AI starts thinking on the current board with its local best |
| `Gomoku.GomokuGame.ResolveAI` | components/GomokuGame.tsx:147-175 | the advised or local move is placed for White on the board the AI turn started from, unless that cell is taken, and the AI stops thinking |
| `Gomoku.GomokuGame.Reset` | components/GomokuGame.tsx:181-188 | an empty board, no winner, Black to move, no last move; a pending AI turn stays pending |
| `ChineseChess.EmptyBoard` | components/ChineseChess.tsx:12 | a 10 x 9 board of empty cells |
| `ChineseChess.PieceCountPut` | components/ChineseChess.tsx:61-62 | one cell assignment loses the piece that stood there and gains the one written |
| `ChineseChess.PlaceBackRank` | components/ChineseChess.tsx:16-20 | the back rank reads chariot, horse, elephant, advisor, king, advisor, elephant, horse, chariot; no other row changes |
| `ChineseChess.PlacePawns` | components/ChineseChess.tsx:22 | the loop puts a pawn on every even column of the pawn row and changes nothing else |
| `ChineseChess.PlaceSide` | components/ChineseChess.tsx:14-23 | one side's round writes its back rank, its two cannons and its five pawns, and no other cell |
| `ChineseChess.SetupStandardBoard` | components/ChineseChess.tsx:11-25 | every cell of the built board holds the opening position's piece |
| `ChineseChess.StandardPieceCount` | components/ChineseChess.tsx:11-25 | the opening position has sixteen pieces a side |
| `ChineseChess.StandardLayout` | components/ChineseChess.tsx:11-25 | the black king is alone on (0, 4) and the red one on (9, 4); each side's pawns are exactly on the even columns of rows 3 and 6 |
| `ChineseChess.StandardMirrored` | components/ChineseChess.tsx:11-25 | the two armies are mirror images across the river |
| `ChineseChess.EndgameBoard` | components/ChineseChess.tsx:27-40 | each puzzle board holds its listed pieces and nothing else, with exactly one king per side |
| `ChineseChess.MovedCells` | components/ChineseChess.tsx:59-62 | a move puts the source piece on the target and empties the source; no other cell changes |
| `ChineseChess.MovedPieceCount` | components/ChineseChess.tsx:59-62 | every move loses exactly the piece that stood on the target |
| `ChineseChess.IsMoveLegalBasic` | components/ChineseChess.tsx:50-57 | a move is refused exactly when the source cell is empty or the target holds a piece of the mover's side; every other move is accepted |
| `ChineseChess.LegalMoveCounts` | components/ChineseChess.tsx:50-62 | a move `isMoveLegalBasic` accepts keeps the mover's pieces and takes one of the other side's exactly when the target was occupied |
| `ChineseChess.ChessGame.constructor` | components/ChineseChess.tsx:43-48 | the single-player mode mounts on the first puzzle, any other mode on the opening position; Red moves first |
| `ChineseChess.ChessGame.ExecuteMove` | components/ChineseChess.tsx:59-66 | the board becomes the moved board, the turn passes and the selection clears |
| `ChineseChess.ChessGame.HandleClick` | components/ChineseChess.tsx:68-75 | ignored after a win or while thinking; a piece of the side to move is selected; with a selection any other square receives the piece, and that move passes `isMoveLegalBasic`; a selection always holds a piece of the side to move |
| `MahjongTiles.TileWeight` | components/MahjongGame.tsx:12-19 | each suit gets its own band of weights (10-18, 20-28, 30-38, 40-43, 50-52) exactly for its names, and any other name weighs 0 |
| `MahjongTiles.WeightInjective` | components/MahjongGame.tsx:12-19 | two distinct tile names never share a weight |
| `MahjongTiles.Four` | components/MahjongGame.tsx:22-26 | `Array(4).fill(table).flat()` holds four copies of each name of the table |
| `MahjongTiles.FullDeckContents` | components/MahjongGame.tsx:21-27 | the full set holds 136 tiles: four of each of the 34 names and nothing else |
| `MahjongTiles.ShuffledBound` | components/MahjongGame.tsx:123 | any shuffle of the full set holds at most four of a name and no empty name |
| `MahjongTiles.SortHand` | components/MahjongGame.tsx:86 | `sortHand` returns the same tiles |
| `MahjongTiles.SortHandSorted` | components/MahjongGame.tsx:86 | `sortHand` returns the tiles ordered by weight |
| `MahjongHand.RemoveMeldBag` | components/MahjongGame.tsx:95-105 | each `splice(indexOf(...), 1)` group removes exactly a meld's three weights |
| `MahjongHand.CheckSets` | components/MahjongGame.tsx:92-108 | the empty rest is accepted, and anything accepted has a length divisible by three |
| `MahjongHand.TryTriplet` | components/MahjongGame.tsx:95-99 | the triplet branch succeeds only with three copies of the smallest weight, on a length divisible by three |
| `MahjongHand.TryRun` | components/MahjongGame.tsx:100-106 | the run branch succeeds only from a weight below 40 with its two successors present, on a length divisible by three |
| `MahjongHand.CheckSetsSound` | components/MahjongGame.tsx:92-108 | whatever `checkSets` accepts splits into triplets and runs below 40 |
| `MahjongHand.CheckSetsComplete` | components/MahjongGame.tsx:92-108 | on sorted weights `checkSets` accepts every split into triplets and runs below 40: its backtracking misses none |
| `MahjongHand.RemovePairSorted` | components/MahjongGame.tsx:113-114 | on sorted weights `splice(indexOf(w), 2)` removes two copies of `w` |
| `MahjongHand.Weights` | components/MahjongGame.tsx:90 | the hand's weights, one per tile, sorted |
| `MahjongHand.FindPair` | components/MahjongGame.tsx:110-118 | the loop over distinct weights finds a pair whose removal leaves melds exactly when one exists |
| `MahjongHand.CheckHu` | components/MahjongGame.tsx:88-119 | `checkHu` answers the winning-hand predicate |
| `MahjongHand.WinningIffSplits` | components/MahjongGame.tsx:88-119 | weights win exactly when they split into one pair and melds; the length test follows from the split |
| `MahjongHand.HandWinningIffSplits` | components/MahjongGame.tsx:88-119 | a hand wins exactly when its weights are one pair plus melds |
| `MahjongHand.WinningIsOrderFree` | components/MahjongGame.tsx:88-119 | the order of a hand's tiles does not change the answer |
| `MahjongGame.FindSet` | components/MahjongGame.tsx:275 | `findIndex` returns the first revealed set headed by the tile, or -1 when there is none |
| `MahjongGame.RandomIndex` | components/MahjongGame.tsx:203 | `floor(r * n)` is a valid index into a non-empty hand |
| `MahjongGame.Dealt` | components/MahjongGame.tsx:121-147 | `init` installs the deal and the rest of the deck; seat 0 moves, holds the 53rd tile as its fresh draw, and is offered hu exactly when its opening hand wins; no winner, discard or timer |
| `MahjongGame.DealSizes` | components/MahjongGame.tsx:123-141 | the deal gives seat 0 fourteen tiles and the others thirteen, leaving 83 in the deck |
| `MahjongGame.DealTiles` | components/MahjongGame.tsx:124-141 | the deal hands out every tile it does not leave in the deck |
| `MahjongGame.DealFullDeck` | components/MahjongGame.tsx:121-147 | after `init` on a shuffle of the full set, the table holds exactly those 136 tiles under the invariant |
| `MahjongGame.AfterNextTurn` | components/MahjongGame.tsx:151-195 | with a winner nothing changes; an empty deck is a drawn game; otherwise the next seat takes the top tile and wins exactly when its hand plus that tile wins |
| `MahjongGame.AIDrawFacts` | components/MahjongGame.tsx:165-184 | an AI seat's draw that does not win sorts the hand; with four copies or a matching set it kongs and the following seat draws next, with no replacement draw; otherwise it starts thinking and its discard is scheduled |
| `MahjongGame.NextTurnKeeps` | components/MahjongGame.tsx:151-195 | a draw, and the AI kong or discard scheduling after it, keeps the tiles and the invariant |
| `MahjongGame.DrawOthers` | components/MahjongGame.tsx:162-194 | a draw changes no seat but the drawing one |
| `MahjongGame.OwnDrawFacts` | components/MahjongGame.tsx:185-192 | seat 0's draw that does not win appends the tile unsorted and offers kong alone, on four copies or on a revealed set headed by it |
| `MahjongGame.KongDrawnFacts` | components/MahjongGame.tsx:171-183 | an AI kong on its draw removes every copy from the hand, and either reveals four or grows the set headed by the tile |
| `MahjongGame.AfterAIDiscard` | components/MahjongGame.tsx:197-210 | the scheduled AI discard does nothing after a win; otherwise thinking stops and a seat with tiles throws one of them, which becomes the latest discard; the deck and the turn are kept |
| `MahjongGame.AIDiscardKeeps` | components/MahjongGame.tsx:197-210 | the AI's scheduled random discard keeps the invariant |
| `MahjongGame.AfterDiscard` | components/MahjongGame.tsx:212-240 | nothing changes after a win or for a tile the seat does not hold; otherwise the tile becomes the latest discard, and either the next turn is scheduled or, on another seat's discard, seat 0 is offered a claim; the deck, turn and winner are kept |
| `MahjongGame.DiscardNoop` | components/MahjongGame.tsx:212-217 | a discard does nothing after a win or when the seat does not hold the tile |
| `MahjongGame.DiscardMoves` | components/MahjongGame.tsx:214-223 | otherwise one copy moves from the hand to the seat's discards and becomes the latest discard; no other seat changes |
| `MahjongGame.DiscardFlags` | components/MahjongGame.tsx:225-237 | a discard by seats 1 to 3 offers seat 0 hu, pong and kong as its hand allows; with nothing to offer, or on seat 0's own discard, the next turn is scheduled |
| `MahjongGame.DiscardKeeps` | components/MahjongGame.tsx:212-240 | a discard keeps the tiles and the invariant |
| `MahjongGame.DiscardOffersSound` | components/MahjongGame.tsx:225-230 | a discard by seats 1 to 3, with no stale flag showing, offers only claims that keep the tiles |
| `MahjongGame.AfterAction` | components/MahjongGame.tsx:242-299 | only pass can draw; hu makes seat 0 the winner unless someone already won; pong and kong keep the winner; seat 0 passing on its own draw only hides the panel |
| `MahjongGame.PongOn` | components/MahjongGame.tsx:284-296 | with a discard, pong gives seat 0 the turn and clears the discard, the panel and the fresh draw, with no timer of its own; the deck and winner are kept |
| `MahjongGame.KongOn` | components/MahjongGame.tsx:261-283 | a kong on a discard, or on a held tile with four copies or a matching set, gives seat 0 the turn, clears the discard and the panel, and schedules the next turn after seat 0; a kong on a held tile changes only seat 0 |
| `MahjongGame.PongFacts` | components/MahjongGame.tsx:284-296 | pong takes two copies from seat 0's hand, reveals three, takes the discard from its thrower's pile, and gives seat 0 the turn |
| `MahjongGame.KongFacts` | components/MahjongGame.tsx:261-283 | a kong on a discard takes every copy, reveals four, takes the discard from its pile, and schedules the next turn after seat 0 with no replacement draw |
| `MahjongGame.KongDrawnTurnFacts` | components/MahjongGame.tsx:267-283 | a kong on seat 0's own draw takes every copy of the tile, grows or reveals its set, and schedules the next turn after seat 0, so seat 1 draws next |
| `MahjongGame.KongOnDiscardCount` | components/MahjongGame.tsx:262-266 | a kong on a discard moves the table's count of that tile by three minus the copies held, and no other count |
| `MahjongGame.KongOnDiscardKeepsIff` | components/MahjongGame.tsx:262-266 | a kong on a discard keeps the tiles exactly when seat 0 holds three copies |
| `MahjongGame.ActionKeeps` | components/MahjongGame.tsx:242-299 | every action keeps the invariant; pong and kong do so when they have the copies they need |
| `MahjongGame.WinnerFreezes` | components/MahjongGame.tsx:243-246 | hu makes seat 0 the winner; once the game is won, every action, draw, discard and timer leaves the table as it is |
| `MahjongGame.LastDiscardKept` | components/MahjongGame.tsx:242-299 | only pong and kong change `lastDiscard`, and only by clearing it |
| `MahjongGame.Fired` | components/MahjongGame.tsx:181-283 | with no timer nothing happens; a scheduled next turn keeps the latest discard; a scheduled AI discard keeps the deck, the turn and the winner |
| `MahjongGame.FiredKeeps` | components/MahjongGame.tsx:151-240 | whatever timer fires keeps the invariant |
| `MahjongGame.MahjongTable.constructor` | components/MahjongGame.tsx:121-149 | mounting deals the shuffled set |
| `MahjongGame.MahjongTable.Init` | components/MahjongGame.tsx:121-147 | `init` installs the deal, with hu or kong offered on seat 0's opening hand |
| `MahjongGame.MahjongTable.StartNextTurn` | components/MahjongGame.tsx:151-195 | the new table is the draw step of the old one |
| `MahjongGame.MahjongTable.ProcessAITurn` | components/MahjongGame.tsx:197-210 | the seat starts thinking and its discard is scheduled |
| `MahjongGame.MahjongTable.AIDiscardFires` | components/MahjongGame.tsx:199-209 | the scheduled AI discard throws the tile at the random index |
| `MahjongGame.MahjongTable.HandleDiscard` | components/MahjongGame.tsx:212-240 | the new table is the discard step of the old one |
| `MahjongGame.MahjongTable.PerformAction` | components/MahjongGame.tsx:242-299 | the new table is the claim step of the old one |
| `MahjongGame.MahjongTable.Tick` | components/MahjongGame.tsx:233-236 | the pending timer fires: the scheduled next turn or AI discard runs |
| `MahjongGame.MahjongTable.ClickTile` | components/MahjongGame.tsx:416 | a click on one of seat 0's tiles discards it on seat 0's turn before a win, and does nothing otherwise |
| `MahjongGame.MahjongTable.Press` | components/MahjongGame.tsx:388-401 | a claim button works only while the panel shows it |

## Left out

- Rendering, styling, animations and the `MahjongTile` view are not modelled. The model keeps only the state they read.
- `DiceGame`, `MahjongDemo` and `Layout` are not part of this model. The model covers the navigation that leads to them.
- The language-model advisor (`services/geminiService.ts`) is a network call. Its answer is the `advice` parameter of `GomokuGame.ResolveAI`, and `None` stands for a failed request. The comment it returns (`aiComment`) is not modelled.
- The Gomoku `Date.now()` delay and the Mahjong timer delays of 500 to 2000 ms are not modelled. Each callback is an explicit step, and only their order is kept.
- The Mahjong table keeps one timer slot (`pending`), the last one scheduled. Assigning `timerRef.current` never cancels the earlier timer, so in the source every scheduled callback still runs. For example, when seat 0 discards twice in its turn, or discards after its own kong, the source runs `startNextTurn(0)` twice and the model runs it once.
- React state batching and the closures captured by callbacks are modelled only for the Gomoku AI turn (`aiBoard`, `aiBest`). In Mahjong, `startNextTurn`, `processAITurn` and `handleDiscard` read the current state rather than the state of the render that scheduled them. In the source, the AI seats of one rotation run on a `startNextTurn` captured in one render. Each of them takes the same captured `deck[0]` (components/MahjongGame.tsx:158), while each `setDeck(prev => prev.slice(1))` (:159) drops a different tile, so tiles are duplicated and lost. The model's draw takes the tile it removes.
- `Math.random()` is a parameter. The shuffle `sort(() => Math.random() - 0.5)` is any ordering of the full set. Floating-point arithmetic is not modelled.
- `RoomLobby.HostCode`: computes `floor(100 + r * 900)` in exact real arithmetic, not in floating point.
- `MahjongGame.KongOn`: the source throws where a kong on a drawn tile finds neither four copies nor a matching revealed set. The model leaves the table as it was there.
- `MahjongGame.PongOn`: the source throws where pong finds no discard to take. The model leaves the table as it was there.
- `ChineseChess.ChessGame.HandleClick`: the piece movement rules of Chinese chess are not modelled. The source's `isMoveLegalBasic` computes the move's offsets but never uses them.
- Chinese chess has no AI opponent and no level control to model: the component imports `getGameAIResponse` and `useEffect` but never calls them, and never calls `setLevel`, `setWinner` or `setIsThinking`. So both sides move by clicks in every mode, the single-player board is always the first puzzle, and `winner` and `isThinking` keep their initial values, as `ChessGame.HandleClick` states. Only the puzzle names shown in the header are left out.
- `MahjongGame.MahjongTable.constructor`: the tile invariant is stated by `DealFullDeck` and the step lemmas, not by the class's `Valid`. The invariant does not hold in every reachable state (see `KongOnDiscardKeepsIff`).
