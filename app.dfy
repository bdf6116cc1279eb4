/** The navigation of App.tsx: the game lobby, the mode picker, the
    multiplayer room lobby and the game screen, with the modes each game
    offers and the header's back button. */
module App {
  import opened Wrappers
  import opened HubTypes

  /** The app's four screens: `'LOBBY' | 'MODE_SELECT' | 'ROOM_LOBBY' | 'GAME'`. */
  datatype View = Lobby | ModeSelect | RoomLobby | Game

  /** `allModes`, in display order. */
  const AllModes: seq<GameMode> := [Single, AI, Multiplayer]

  /** Every mode is in `allModes`. */
  lemma AllModesCover()
    ensures forall m :: m in AllModes
  {
    forall m
      ensures m in AllModes
    {
      var i := match m case Single => 0 case AI => 1 case Multiplayer => 2;
      assert AllModes[i] == m;
    }
  }

  /** `modes.filter(m => m.type !== except)`: the modes other than
      `except`, in their original order. */
  function Without(modes: seq<GameMode>, except: GameMode): (r: seq<GameMode>)
    ensures forall m :: m in r <==> m in modes && m != except
    ensures |r| <= |modes|
  {
    if modes == [] then []
    else (if modes[0] != except then [modes[0]] else []) + Without(modes[1..], except)
  }

  /** `getAvailableModes(gameType)`: dice offers no mode, chess offers all
      three, Gomoku and Mahjong all but the single-player puzzles. */
  function AvailableModes(g: GameType): (modes: seq<GameMode>)
    ensures modes == [] <==> g == Dice
    ensures forall m :: m in modes <==> g == Chess || ((g == GameType.Gomoku || g == Mahjong) && m != Single)
  {
    match g
    case Dice => []
    case Chess =>
      AllModesCover();
      AllModes
    case Gomoku => Without(AllModes, Single)
    case Mahjong => Without(AllModes, Single)
  }

  /** The screen the header's back button leads to from screen `v` with
      mode `m` selected; the lobby has no back button. */
  function BackFrom(v: View, m: Option<GameMode>): (w: View)
    requires v != Lobby
    ensures w != v
    ensures w == RoomLobby <==> v == Game && m == Some(Multiplayer)
    ensures w == Lobby <==> v.ModeSelect?
  {
    if v == Game && m == Some(Multiplayer) then RoomLobby
    else if v == RoomLobby then ModeSelect
    else if v == Game then ModeSelect
    else Lobby
  }

  /** Pressing back at most three times from any screen reaches the lobby:
      a multiplayer game goes back through the room lobby and the mode
      picker, any other game through the mode picker. */
  lemma BackReachesLobby(v: View, m: Option<GameMode>)
    requires v != Lobby
    ensures var v1 := BackFrom(v, m);
      v1 != v && (v1 == Lobby || BackFrom(v1, m) == Lobby ||
        (BackFrom(v1, m) != Lobby && BackFrom(BackFrom(v1, m), m) == Lobby))
    ensures BackFrom(v, m) == Lobby <==> v == ModeSelect
  {
  }

  /** The app's state. */
  class HubApp {
    var view: View
    var selectedGame: Option<GameType>
    var selectedMode: Option<GameMode>
    var roomInfo: Option<RoomInfo>

    /** The room lobby is only ever shown with the multiplayer mode selected. */
    ghost predicate Valid()
      reads this
    {
      view == RoomLobby ==> selectedMode == Some(Multiplayer)
    }

    /** The app opens on the game lobby with nothing selected. */
    constructor()
      ensures Valid()
      ensures view == Lobby && selectedGame == None && selectedMode == None && roomInfo == None
    {
      view, selectedGame, selectedMode, roomInfo := Lobby, None, None, None;
    }

    /** `handleGameSelect(game)`: a game with no modes starts at once in
        single-player mode; any other game goes to the mode picker. */
    method HandleGameSelect(game: GameType)
      requires Valid()
      modifies this
      ensures Valid()
      ensures selectedGame == Some(game) && roomInfo == old(roomInfo)
      ensures AvailableModes(game) == [] ==> selectedMode == Some(Single) && view == Game
      ensures AvailableModes(game) != [] ==> selectedMode == old(selectedMode) && view == ModeSelect
    {
      selectedGame := Some(game);
      var modes := AvailableModes(game);
      if |modes| == 0 {
        selectedMode := Some(Single);
        view := Game;
      } else {
        view := ModeSelect;
      }
    }

    /** `handleModeSelect(mode)`, from a button of the mode picker (so a mode
        the selected game offers): multiplayer goes to the room lobby, any
        other mode starts the game. */
    method HandleModeSelect(mode: GameMode)
      requires Valid() && view == ModeSelect && selectedGame.Some? && mode in AvailableModes(selectedGame.value)
      modifies this
      ensures Valid()
      ensures selectedMode == Some(mode) && selectedGame == old(selectedGame) && roomInfo == old(roomInfo)
      ensures view == (if mode == Multiplayer then RoomLobby else Game)
      ensures mode == Single ==> selectedGame == Some(Chess)
    {
      selectedMode := Some(mode);
      if mode == Multiplayer {
        view := RoomLobby;
      } else {
        view := Game;
      }
    }

    /** `handleJoinRoom(room)`: the room is remembered and the game starts.
        It is the room lobby's `onJoin`, which a guest's delayed join may
        call after the room lobby has been left, so it has no precondition. */
    method HandleJoinRoom(room: RoomInfo)
      requires Valid()
      modifies this
      ensures Valid()
      ensures roomInfo == Some(room) && view == Game
      ensures selectedGame == old(selectedGame) && selectedMode == old(selectedMode)
    {
      roomInfo := Some(room);
      view := Game;
    }

    /** The header's back button, shown on every screen but the lobby. */
    method Back()
      requires Valid() && view != Lobby
      modifies this
      ensures Valid()
      ensures view == BackFrom(old(view), old(selectedMode))
      ensures selectedGame == old(selectedGame) && selectedMode == old(selectedMode) && roomInfo == old(roomInfo)
    {
      if view == Game && selectedMode == Some(Multiplayer) {
        view := RoomLobby;
      } else if view == RoomLobby {
        view := ModeSelect;
      } else if view == Game {
        view := ModeSelect;
      } else {
        view := Lobby;
      }
    }

    /** The room lobby's own back button (`onBack`): back to the mode picker. */
    method LeaveRoomLobby()
      requires Valid()
      modifies this
      ensures Valid()
      ensures view == ModeSelect
      ensures selectedGame == old(selectedGame) && selectedMode == old(selectedMode) && roomInfo == old(roomInfo)
    {
      view := ModeSelect;
    }

    /** A game's own exit button (`onBack`): straight back to the lobby,
        keeping the selections and the room. */
    method ExitGame()
      requires Valid()
      modifies this
      ensures Valid()
      ensures view == Lobby
      ensures selectedGame == old(selectedGame) && selectedMode == old(selectedMode) && roomInfo == old(roomInfo)
    {
      view := Lobby;
    }
  }
}
