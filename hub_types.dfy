/** The shared declarations of types.ts that the navigation, the room lobby
    and the Chinese-chess board use. */
module HubTypes {
  /** `GameType`. */
  datatype GameType = Dice | Gomoku | Chess | Mahjong

  /** `GameMode`: endgame puzzles, play against the computer, a shared room. */
  datatype GameMode = Single | AI | Multiplayer

  /** `RoomInfo`: the room code, whether this device created the room, and
      whether it has joined it. */
  datatype RoomInfo = RoomInfo(code: string, isHost: bool, isJoined: bool)
}
