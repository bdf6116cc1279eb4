/** The multiplayer lobby of components/RoomLobby.tsx: the host path that
    draws a three-digit room code, and the guest path that types a code on a
    keypad and joins once three digits are in. The 800 ms delay before a
    guest joins is the explicit step `JoinTimerFires`. */
module RoomLobby {
  import opened Wrappers
  import opened HubTypes
  import opened Decimal

  /** The number of digits in a room code. */
  const CodeLength := 3

  /** The lobby's three screens. */
  datatype LobbyView = Select | Create | Join

  /** The status line: `'等待玩家...'` (waiting) until a full code has been
      typed, then `'正在连接房间...'` (connecting). */
  datatype Status = Waiting | Connecting

  /** `Math.floor(100 + r * 900)` for the random number `r` in [0, 1),
      in exact arithmetic. */
  function HostCode(x: real): (n: nat)
    requires 0.0 <= x < 1.0
    ensures 100 <= n <= 999
  {
    (100.0 + x * 900.0).Floor
  }

  /** Every code from 100 to 999 can be drawn, and the digits shown for a
      drawn code are exactly three and read back as the code. */
  lemma HostCodeRange(n: int)
    requires 100 <= n <= 999
    ensures var x := (n - 100) as real / 900.0;
      0.0 <= x < 1.0 && HostCode(x) == n &&
      |NatToString(HostCode(x))| == CodeLength && ParseDecimal(NatToString(HostCode(x))) == n
  {
    var x := (n - 100) as real / 900.0;
    assert 100.0 + x * 900.0 == n as real;
    NatToStringThreeDigits(n);
    ParseNatToString(n);
  }

  /** The code after one keypad press: the key is appended while the code
      is shorter than three characters, and ignored afterwards. */
  function Keyed(code: string, key: char): (code': string)
    ensures |code| < CodeLength ==> |code'| == |code| + 1 && code'[..|code|] == code && code'[|code|] == key
    ensures |code| >= CodeLength ==> code' == code
  {
    if |code| < CodeLength then code + [key] else code
  }

  /** The code after a sequence of keypad presses. */
  function AfterKeys(code: string, keys: seq<char>): string
    decreases |keys|
  {
    if keys == [] then code else AfterKeys(Keyed(code, keys[0]), keys[1..])
  }

  /** From a code of at most three characters, a sequence of presses keeps
      exactly the first keys that fit: the code never grows past three
      characters, and further keys are lost. */
  lemma {:induction false} AfterKeysPrefix(code: string, keys: seq<char>)
    requires |code| <= CodeLength
    ensures var n := if |code| + |keys| <= CodeLength then |code| + |keys| else CodeLength;
      AfterKeys(code, keys) == (code + keys)[..n]
    decreases |keys|
  {
    if keys != [] {
      var code' := Keyed(code, keys[0]);
      AfterKeysPrefix(code', keys[1..]);
      if |code| < CodeLength {
        assert code' + keys[1..] == code + keys;
      } else {
        var n := CodeLength;
        assert (code + keys)[..n] == code;
        assert (code' + keys[1..])[..n] == code;
      }
    }
  }

  /** `roomCode.slice(0, -1)`: the last character goes, and the empty code stays empty. */
  function Deleted(code: string): (code': string)
    ensures |code| > 0 ==> code' == code[..|code| - 1]
    ensures |code| == 0 ==> code' == []
  {
    if |code| == 0 then [] else code[..|code| - 1]
  }

  /** Deleting right after a key that was taken restores the code. */
  lemma DeleteUndoesKey(code: string, key: char)
    requires |code| < CodeLength
    ensures Deleted(Keyed(code, key)) == code
  {
    assert (code + [key])[..|code|] == code;
  }

  /** The component's state. `pending` lists the joins the keypad has
      scheduled and that have not fired yet, in the order they fire. */
  class Lobby {
    var view: LobbyView
    var roomCode: string
    var generatedCode: string
    var status: Status
    var pending: seq<RoomInfo>

    /** The typed code never exceeds three characters; every scheduled join
        is a guest join with a three-character code, and once one has been
        scheduled the status line says connecting. */
    ghost predicate Valid()
      reads this
    {
      |roomCode| <= CodeLength &&
      (forall i :: 0 <= i < |pending| ==> |pending[i].code| == CodeLength && !pending[i].isHost && pending[i].isJoined) &&
      (pending != [] ==> status == Connecting)
    }

    constructor()
      ensures Valid()
      ensures view == Select && roomCode == [] && generatedCode == [] && status == Waiting && pending == []
    {
      view, roomCode, generatedCode, status, pending := Select, [], [], Waiting, [];
    }

    /** `startCreate`, with the random number `x` drawn by `Math.random()`:
        the drawn code is shown on the create screen. */
    method StartCreate(x: real)
      requires Valid() && 0.0 <= x < 1.0
      modifies this
      ensures Valid()
      ensures generatedCode == NatToString(HostCode(x)) && |generatedCode| == CodeLength && view == Create
      ensures roomCode == old(roomCode) && status == old(status) && pending == old(pending)
    {
      var code := NatToString(HostCode(x));
      NatToStringThreeDigits(HostCode(x));
      generatedCode := code;
      view := Create;
    }

    /** The "join a room" button of the select screen. */
    method OpenJoin()
      requires Valid()
      modifies this
      ensures Valid()
      ensures view == Join
      ensures roomCode == old(roomCode) && generatedCode == old(generatedCode) && status == old(status) && pending == old(pending)
    {
      view := Join;
    }

    /** `handleKeypad(num)`: while the code is shorter than three
        characters the key is appended, and the press that completes the
        third character switches the status to connecting and schedules a
        guest join with that code; at three characters the press is ignored. */
    method HandleKeypad(key: char)
      requires Valid()
      modifies this
      ensures Valid()
      ensures roomCode == Keyed(old(roomCode), key)
      ensures |old(roomCode)| == CodeLength - 1 ==>
        status == Connecting && pending == old(pending) + [RoomInfo(roomCode, false, true)]
      ensures |old(roomCode)| != CodeLength - 1 ==> status == old(status) && pending == old(pending)
      ensures view == old(view) && generatedCode == old(generatedCode)
    {
      if |roomCode| < CodeLength {
        var newCode := roomCode + [key];
        roomCode := newCode;
        if |newCode| == CodeLength {
          status := Connecting;
          pending := pending + [RoomInfo(newCode, false, true)];
        }
      }
    }

    /** `deleteNum`. */
    method DeleteNum()
      requires Valid()
      modifies this
      ensures Valid()
      ensures roomCode == Deleted(old(roomCode))
      ensures view == old(view) && generatedCode == old(generatedCode) && status == old(status) && pending == old(pending)
    {
      roomCode := if |roomCode| == 0 then [] else roomCode[..|roomCode| - 1];
    }

    /** The delayed `onJoin` of the oldest scheduled join: it hands the
        guest's room to the app. Leaving the screen or deleting digits does
        not cancel it. */
    method JoinTimerFires() returns (room: RoomInfo)
      requires Valid() && pending != []
      modifies this
      ensures Valid()
      ensures room == old(pending)[0] && pending == old(pending)[1..]
      ensures |room.code| == CodeLength && !room.isHost && room.isJoined
      ensures view == old(view) && roomCode == old(roomCode) && generatedCode == old(generatedCode) && status == old(status)
    {
      room := pending[0];
      pending := pending[1..];
    }

    /** The host's join button on the create screen: it joins the room
        whose code was drawn, as host. */
    method HostJoin() returns (room: RoomInfo)
      requires Valid() && view == Create
      ensures room.code == generatedCode && room.isHost && room.isJoined
    {
      room := RoomInfo(generatedCode, true, true);
    }

    /** The bottom button: on the select screen it leaves the lobby (the
        app's `onBack`, reported as `leave`); on the other screens it
        returns to the select screen and clears the typed code. */
    method BackButton() returns (leave: bool)
      requires Valid()
      modifies this
      ensures Valid()
      ensures leave <==> old(view) == Select
      ensures leave ==> unchanged(this)
      ensures !leave ==> view == Select && roomCode == []
      ensures !leave ==> generatedCode == old(generatedCode) && status == old(status) && pending == old(pending)
    {
      if view == Select {
        return true;
      }
      view := Select;
      roomCode := [];
      return false;
    }
  }
}
