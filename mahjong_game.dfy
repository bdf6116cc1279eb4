/** The four-seat table of the tile game (components/MahjongGame.tsx): the
    deal, the turn rotation with its draw, discards and seat 0's claims.
    Every timer callback of the component is a step method here, and the
    two random choices (the shuffle, the AI's discard) are arguments. */
module MahjongGame {
  import opened Wrappers
  import opened Sequences
  import opened MahjongTiles
  import opened MahjongHand

  /** One seat: the concealed hand, the revealed sets and the discards. */
  datatype Seat = Seat(hand: seq<Tile>, revealed: seq<seq<Tile>>, discards: seq<Tile>)

  /** `lastDiscard`: the tile and the seat that threw it. */
  datatype Discarded = Discarded(tile: Tile, seat: int)

  /** `showActions`: the claim buttons offered to seat 0. */
  datatype Actions = Actions(pong: bool, hu: bool, kong: bool)

  const NoActions := Actions(false, false, false)

  /** The callback last put in the single timer slot. */
  datatype Pending = Idle | NextTurnAfter(seat: int) | AIDiscard(seat: int)

  datatype Action = Pong | Hu | Kong | Pass

  /** Everything the component keeps in state; `winner` -1 is a drawn game. */
  datatype Table = Table(deck: seq<Tile>, seats: seq<Seat>, turn: int, winner: Option<int>,
                         thinking: bool, lastDiscard: Option<Discarded>, actions: Actions,
                         newlyDrawn: Option<Tile>, pending: Pending)

  predicate WellShaped(t: Table) {
    |t.seats| == 4 && 0 <= t.turn < 4 &&
    (t.lastDiscard.Some? ==> 0 <= t.lastDiscard.value.seat < 4) &&
    (t.pending.NextTurnAfter? ==> 0 <= t.pending.seat < 4) &&
    (t.pending.AIDiscard? ==> 0 <= t.pending.seat < 4)
  }

  // ---------------------------------------------------------------------
  // Counting the tiles on the table

  function Flatten(sets: seq<seq<Tile>>): seq<Tile> {
    if sets == [] then [] else sets[0] + Flatten(sets[1..])
  }

  function SeatTiles(s: Seat): multiset<Tile> {
    multiset(s.hand) + multiset(Flatten(s.revealed)) + multiset(s.discards)
  }

  function SeatsTiles(seats: seq<Seat>): multiset<Tile> {
    if seats == [] then multiset{} else SeatTiles(seats[0]) + SeatsTiles(seats[1..])
  }

  /** Every tile in the deck, in a hand, in a revealed set or among the discards. */
  function TableTiles(t: Table): multiset<Tile> {
    multiset(t.deck) + SeatsTiles(t.seats)
  }

  /** A revealed set: three or four copies of one tile. */
  predicate IsSet(group: seq<Tile>) {
    (|group| == 3 || |group| == 4) && forall i :: 0 <= i < |group| ==> group[i] == group[0]
  }

  ghost predicate SeatOk(s: Seat) {
    forall j :: 0 <= j < |s.revealed| ==> IsSet(s.revealed[j])
  }

  /** The latest discard is still the last tile its thrower discarded. */
  predicate LastOnTop(t: Table)
    requires WellShaped(t)
  {
    t.lastDiscard.Some? ==>
      var d := t.lastDiscard.value;
      t.seats[d.seat].discards != [] && t.seats[d.seat].discards[|t.seats[d.seat].discards| - 1] == d.tile
  }

  /** Tiles a table can hold: no more than four copies of a name, and no
      tile with the empty name. */
  ghost predicate Bounded(tiles: multiset<Tile>) {
    (forall x :: tiles[x] <= 4) && tiles[""] == 0
  }

  /** What a step keeps when it conserves the tiles: the shape, well-formed
      revealed sets, the latest discard on top, and exactly `tiles` spread
      over the deck and the seats. */
  ghost predicate Inv(t: Table, tiles: multiset<Tile>) {
    WellShaped(t) && (forall i :: 0 <= i < 4 ==> SeatOk(t.seats[i])) && LastOnTop(t) &&
    Bounded(tiles) && TableTiles(t) == tiles
  }

  // ---------------------------------------------------------------------
  // Seat transformations

  /** `revealed.findIndex(set => set[0] === x)`. */
  function FindSet(sets: seq<seq<Tile>>, x: Tile): (k: int)
    ensures -1 <= k < |sets|
    ensures 0 <= k ==> |sets[k]| > 0 && sets[k][0] == x
    ensures k == -1 ==> forall j :: 0 <= j < |sets| ==> !(|sets[j]| > 0 && sets[j][0] == x)
    ensures 0 <= k ==> forall j :: 0 <= j < k ==> !(|sets[j]| > 0 && sets[j][0] == x)
  {
    if sets == [] then -1
    else if |sets[0]| > 0 && sets[0][0] == x then 0
    else
      var k := FindSet(sets[1..], x);
      if k == -1 then -1 else k + 1
  }

  /** A kong on a tile of which the hand holds every copy: all of them go,
      and a set of four is revealed. */
  function KongAll(s: Seat, x: Tile): Seat {
    Seat(RemoveAll(s.hand, x), s.revealed + [[x, x, x, x]], s.discards)
  }

  /** A pong: the first two copies leave the hand, a set of three is revealed. */
  function PongOf(s: Seat, x: Tile): Seat {
    Seat(RemoveFirstN(s.hand, x, 2), s.revealed + [[x, x, x]], s.discards)
  }

  /** A kong on a drawn tile is possible: four copies in the hand, or a
      revealed set headed by it. */
  predicate Kongs(s: Seat, x: Tile) {
    multiset(s.hand)[x] == 4 || FindSet(s.revealed, x) >= 0
  }

  /** The kong on a drawn tile: with four copies a set of four is revealed;
      otherwise every copy leaves the hand and the first set headed by the
      tile grows by one. */
  function KongDrawn(s: Seat, x: Tile): Seat {
    if multiset(s.hand)[x] == 4 then KongAll(s, x)
    else
      var k := FindSet(s.revealed, x);
      var rev := if k >= 0 then s.revealed[k := s.revealed[k] + [x]] else s.revealed;
      Seat(RemoveAll(s.hand, x), rev, s.discards)
  }

  /** The seat after throwing one copy of `tile`; the hand is sorted again. */
  function Thrown(s: Seat, tile: Tile): Seat
    requires tile in s.hand
  {
    Seat(SortHand(RemoveFirst(s.hand, tile)), s.revealed, s.discards + [tile])
  }

  /** The buttons seat 0 gets on a discard of `tile`: pong with two copies,
      hu when the hand plus the tile wins, kong with three copies. */
  ghost function ClaimsOn(hand: seq<Tile>, tile: Tile): Actions {
    Actions(multiset(hand)[tile] >= 2, IsWinning(hand + [tile]), multiset(hand)[tile] == 3)
  }

  /** The claimed tile: `lastDiscard?.tile || newlyDrawnTile`, where an
      empty name counts as missing. */
  function Target(last: Option<Discarded>, drawn: Option<Tile>): Option<Tile> {
    if last.Some? && last.value.tile != "" then Some(last.value.tile)
    else if drawn.Some? && drawn.value != "" then drawn
    else None
  }

  /** `Math.floor(r * n)`. */
  function RandomIndex(r: real, n: nat): (k: int)
    requires 0.0 <= r < 1.0
    ensures 0 <= k && (n > 0 ==> k < n)
  {
    assert r * (n as real) <= 1.0 * (n as real);
    (r * (n as real)).Floor
  }

  // ---------------------------------------------------------------------
  // The steps, as functions of the whole table

  /** The four opening hands: 13 each from the shuffled deck, sorted, with
      seat 0 also taking the 53rd tile. */
  function Deal(s: seq<Tile>): (seats: seq<Seat>)
    requires |s| >= 53
  {
    [Seat(SortHand(s[..13]) + [s[52]], [], []), Seat(SortHand(s[13..26]), [], []),
     Seat(SortHand(s[26..39]), [], []), Seat(SortHand(s[39..52]), [], [])]
  }

  /** `init`: the deal; seat 0 is offered hu or kong on its opening hand. */
  ghost function Dealt(t: Table, s: seq<Tile>): (r: Table)
    requires |s| >= 53
    ensures WellShaped(r) && r.deck == s[53..] && r.seats == Deal(s)
    ensures r.turn == 0 && r.winner.None? && r.lastDiscard.None? && r.pending == Idle
    ensures r.newlyDrawn == Some(s[52]) && s[52] in r.seats[0].hand
    ensures r.actions.hu <==> IsWinning(r.seats[0].hand)
  {
    var seats := Deal(s);
    var hand := seats[0].hand;
    Table(s[53..], seats, 0, None, t.thinking, None,
          Actions(false, IsWinning(hand), multiset(hand)[s[52]] == 4), Some(s[52]), Idle)
  }

  /** `startNextTurn(p)`. */
  ghost function AfterNextTurn(t: Table, p: int): (r: Table)
    requires WellShaped(t) && 0 <= p < 4
    ensures WellShaped(r)
    ensures r.lastDiscard == t.lastDiscard
    ensures t.winner.Some? ==> r == t
    ensures t.winner.None? && t.deck == [] ==> r == t.(winner := Some(-1))
    ensures t.winner.None? && t.deck != [] ==>
      r.deck == t.deck[1..] && r.turn == (p + 1) % 4 && r.newlyDrawn == Some(t.deck[0]) &&
      r.winner == if IsWinning(t.seats[(p + 1) % 4].hand + [t.deck[0]]) then Some((p + 1) % 4) else None
  {
    if t.winner.Some? then t
    else if t.deck == [] then t.(winner := Some(-1))
    else
      var next := (p + 1) % 4;
      var d := t.deck[0];
      var s := t.seats[next];
      var h := s.hand + [d];
      var drew := t.(turn := next, deck := t.deck[1..], newlyDrawn := Some(d));
      if IsWinning(h) then drew.(seats := t.seats[next := s.(hand := h)], winner := Some(next))
      else if next != 0 then
        var sorted := s.(hand := SortHand(h));
        if Kongs(sorted, d) then
          drew.(seats := t.seats[next := KongDrawn(sorted, d)], pending := NextTurnAfter(next))
        else
          drew.(seats := t.seats[next := sorted], thinking := true, pending := AIDiscard(next))
      else
        var canHu := IsWinning(h);
        var canKong := multiset(h)[d] == 4 || FindSet(s.revealed, d) >= 0;
        var drew0 := drew.(seats := t.seats[0 := s.(hand := h)]);
        if canHu || canKong then drew0.(actions := Actions(false, canHu, canKong)) else drew0
  }

  /** `handleDiscard(p, tile)`. */
  ghost function AfterDiscard(t: Table, p: int, tile: Tile): (r: Table)
    requires WellShaped(t) && 0 <= p < 4
    ensures WellShaped(r)
    ensures r.deck == t.deck && r.turn == t.turn && r.winner == t.winner && r.thinking == t.thinking
    ensures t.winner.Some? || tile !in t.seats[p].hand ==> r == t
    ensures t.winner.None? && tile in t.seats[p].hand ==>
      r.lastDiscard == Some(Discarded(tile, p)) && r.newlyDrawn.None? &&
      (r.pending == NextTurnAfter(p) || (p != 0 && r.actions != NoActions && r.pending == t.pending))
  {
    if t.winner.Some? || tile !in t.seats[p].hand then t
    else
      var done := t.(seats := t.seats[p := Thrown(t.seats[p], tile)],
                     lastDiscard := Some(Discarded(tile, p)), newlyDrawn := None);
      if p != 0 && ClaimsOn(t.seats[0].hand, tile) != NoActions then
        done.(actions := ClaimsOn(t.seats[0].hand, tile))
      else done.(pending := NextTurnAfter(p))
  }

  /** The callback `processAITurn(idx)` schedules: seat `idx` throws the tile
      at `floor(r * |hand|)`. */
  ghost function AfterAIDiscard(t: Table, idx: int, r: real): (u: Table)
    requires WellShaped(t) && 0 <= idx < 4 && 0.0 <= r < 1.0
    ensures WellShaped(u)
    ensures u.deck == t.deck && u.turn == t.turn && u.winner == t.winner
    ensures t.winner.Some? ==> u == t
    ensures t.winner.None? ==> !u.thinking
    ensures t.winner.None? && t.seats[idx].hand != [] ==>
      u.lastDiscard.Some? && u.lastDiscard.value.seat == idx && u.lastDiscard.value.tile in t.seats[idx].hand
  {
    if t.winner.Some? then t
    else
      var hand := t.seats[idx].hand;
      var quiet := t.(thinking := false);
      if hand == [] then quiet else AfterDiscard(quiet, idx, hand[RandomIndex(r, |hand|)])
  }

  /** The common end of a pong or a kong: seat 0 holds the turn. */
  function Claimed(t: Table, seats: seq<Seat>): Table {
    t.(seats := seats, turn := 0, lastDiscard := None, actions := NoActions)
  }

  /** The discarder loses its latest discard to the claim. */
  function Popped(t: Table): seq<Seat>
    requires WellShaped(t) && t.lastDiscard.Some?
  {
    var d := t.lastDiscard.value.seat;
    t.seats[d := t.seats[d].(discards := DropLast(t.seats[d].discards))]
  }

  /** KONG on tile `x`. Without a discard, a kong on a tile that is neither
      held four times nor heading a revealed set makes the source throw; the
      table is then left as it was. */
  function KongOn(t: Table, x: Tile): (r: Table)
    requires WellShaped(t)
    ensures WellShaped(r)
    ensures r.deck == t.deck && r.winner == t.winner && r.thinking == t.thinking
    ensures t.lastDiscard.Some? || Kongs(t.seats[0], x) ==>
      r.turn == 0 && r.lastDiscard.None? && r.actions == NoActions && r.pending == NextTurnAfter(0)
    ensures t.lastDiscard.None? && Kongs(t.seats[0], x) ==> r.seats == t.seats[0 := KongDrawn(t.seats[0], x)]
    ensures t.lastDiscard.None? && !Kongs(t.seats[0], x) ==> r == t
  {
    if t.lastDiscard.Some? then
      var seats := Popped(t);
      Claimed(t, seats[0 := KongAll(seats[0], x)]).(pending := NextTurnAfter(0))
    else if Kongs(t.seats[0], x) then
      Claimed(t, t.seats[0 := KongDrawn(t.seats[0], x)]).(pending := NextTurnAfter(0))
    else t
  }

  /** PONG on tile `x`; without a discard the source throws and the table
      is left as it was. */
  function PongOn(t: Table, x: Tile): (r: Table)
    requires WellShaped(t)
    ensures WellShaped(r)
    ensures r.deck == t.deck && r.winner == t.winner && r.thinking == t.thinking && r.pending == t.pending
    ensures t.lastDiscard.None? ==> r == t
    ensures t.lastDiscard.Some? ==>
      r.turn == 0 && r.lastDiscard.None? && r.actions == NoActions && r.newlyDrawn.None?
  {
    if t.lastDiscard.None? then t
    else
      var seats := Popped(t);
      Claimed(t, seats[0 := PongOf(seats[0], x)]).(newlyDrawn := None)
  }

  /** `performAction(a)`. */
  ghost function AfterAction(t: Table, a: Action): (r: Table)
    requires WellShaped(t)
    ensures WellShaped(r)
    ensures a != Pass ==> r.deck == t.deck && r.thinking == t.thinking
    ensures a == Pong || a == Kong ==> r.winner == t.winner
    ensures a == Hu ==> r.winner == if t.winner.Some? then t.winner else Some(0)
    ensures a == Pass && t.winner.None? && t.turn == 0 && t.lastDiscard.None? ==> r == t.(actions := NoActions)
  {
    if t.winner.Some? then t
    else match a
      case Hu => t.(winner := Some(0))
      case Pass =>
        var cleared := t.(actions := NoActions);
        if t.turn != 0 || (t.lastDiscard.Some? && t.lastDiscard.value.seat != t.turn) then
          AfterNextTurn(cleared, if t.lastDiscard.Some? then t.lastDiscard.value.seat else t.turn)
        else cleared
      case Kong =>
        (match Target(t.lastDiscard, t.newlyDrawn)
           case None => t
           case Some(x) => KongOn(t, x))
      case Pong =>
        (match Target(t.lastDiscard, t.newlyDrawn)
           case None => t
           case Some(x) => PongOn(t, x))
  }

  /** The claim panel shows while some flag is set and nobody has won; PASS
      is always on it, each other button only with its flag. */
  predicate Offered(actions: Actions, winner: Option<int>, a: Action) {
    (actions.pong || actions.hu || actions.kong) && winner.None? &&
    match a
      case Pass => true
      case Pong => actions.pong
      case Hu => actions.hu
      case Kong => actions.kong
  }

  /** The pending timer callback fires; `r` stands for the `Math.random()`
      an AI discard draws. */
  ghost function Fired(t: Table, r: real): (u: Table)
    requires WellShaped(t) && 0.0 <= r < 1.0
    ensures WellShaped(u)
    ensures t.pending == Idle ==> u == t
    ensures t.pending.NextTurnAfter? ==> u.lastDiscard == t.lastDiscard
    ensures t.pending.AIDiscard? ==> u.deck == t.deck && u.turn == t.turn && u.winner == t.winner
  {
    match t.pending
      case Idle => t
      case NextTurnAfter(p) => AfterNextTurn(t.(pending := Idle), p)
      case AIDiscard(i) => AfterAIDiscard(t.(pending := Idle), i, r)
  }

  // ---------------------------------------------------------------------
  // Counting lemmas. Multiset sums are compared tile by tile.

  lemma {:induction false} SeatsTilesUpdate(seats: seq<Seat>, i: int, s: Seat)
    requires 0 <= i < |seats|
    ensures SeatsTiles(seats[i := s]) + SeatTiles(seats[i]) == SeatsTiles(seats) + SeatTiles(s)
  {
    var u := seats[i := s];
    if i == 0 {
      assert u[1..] == seats[1..];
    } else {
      SeatsTilesUpdate(seats[1..], i - 1, s);
      assert u[1..] == seats[1..][i - 1 := s];
      assert u[0] == seats[0];
      forall y ensures (SeatsTiles(u) + SeatTiles(seats[i]))[y] == (SeatsTiles(seats) + SeatTiles(s))[y] {
        assert (SeatsTiles(u[1..]) + SeatTiles(seats[1..][i - 1]))[y]
            == (SeatsTiles(seats[1..]) + SeatTiles(s))[y];
      }
    }
  }

  /** No seat holds more copies of a tile than all the seats together. */
  lemma SeatsTilesHas(seats: seq<Seat>, i: int, y: Tile)
    requires 0 <= i < |seats|
    ensures SeatTiles(seats[i])[y] <= SeatsTiles(seats)[y]
  {
    var e := Seat([], [], []);
    assert Flatten([]) == [];
    assert SeatTiles(e) == multiset{};
    SeatsTilesUpdate(seats, i, e);
    assert (SeatsTiles(seats[i := e]) + SeatTiles(seats[i]))[y] == (SeatsTiles(seats) + SeatTiles(e))[y];
  }

  lemma {:induction false} FlattenUpdate(sets: seq<seq<Tile>>, k: int, x: seq<Tile>)
    requires 0 <= k < |sets|
    ensures multiset(Flatten(sets[k := x])) + multiset(sets[k]) == multiset(Flatten(sets)) + multiset(x)
  {
    var u := sets[k := x];
    if k == 0 {
      assert u[1..] == sets[1..];
    } else {
      FlattenUpdate(sets[1..], k - 1, x);
      assert u[1..] == sets[1..][k - 1 := x];
      assert u[0] == sets[0];
      forall y ensures (multiset(Flatten(u)) + multiset(sets[k]))[y] == (multiset(Flatten(sets)) + multiset(x))[y] {
        assert (multiset(Flatten(u[1..])) + multiset(sets[1..][k - 1]))[y]
            == (multiset(Flatten(sets[1..])) + multiset(x))[y];
      }
    }
  }

  lemma {:induction false} FlattenAppend(sets: seq<seq<Tile>>, x: seq<Tile>)
    ensures multiset(Flatten(sets + [x])) == multiset(Flatten(sets)) + multiset(x)
  {
    if sets == [] {
      assert [] + [x] == [x];
      assert [x][1..] == [];
    } else {
      FlattenAppend(sets[1..], x);
      assert (sets + [x])[1..] == sets[1..] + [x];
      assert (sets + [x])[0] == sets[0];
    }
  }

  /** A revealed set holds as many copies of its tile as it has tiles. */
  lemma SetCount(group: seq<Tile>)
    requires IsSet(group)
    ensures multiset(group)[group[0]] == |group|
  {
    if |group| == 3 {
      assert group == [group[0], group[0], group[0]];
    } else {
      assert group == [group[0], group[0], group[0], group[0]];
    }
  }

  /** Replacing seat `i` of `t` and its deck gives `u`: the table's tiles
      change by what the seat and the deck gain and lose. */
  lemma SwapSeat(t: Table, u: Table, i: int)
    requires 0 <= i < |t.seats| == |u.seats| && u.seats == t.seats[i := u.seats[i]]
    ensures TableTiles(u) + SeatTiles(t.seats[i]) + multiset(t.deck)
         == TableTiles(t) + SeatTiles(u.seats[i]) + multiset(u.deck)
  {
    SeatsTilesUpdate(t.seats, i, u.seats[i]);
    forall y ensures (TableTiles(u) + SeatTiles(t.seats[i]) + multiset(t.deck))[y]
                  == (TableTiles(t) + SeatTiles(u.seats[i]) + multiset(u.deck))[y] {
      assert (SeatsTiles(u.seats) + SeatTiles(t.seats[i]))[y] == (SeatsTiles(t.seats) + SeatTiles(u.seats[i]))[y];
    }
  }

  /** Replacing seat `i` and leaving the deck: the table's tiles change by
      what the seat loses and gains. */
  lemma SwapSeatBy(t: Table, u: Table, i: int, lost: multiset<Tile>, gained: multiset<Tile>)
    requires 0 <= i < |t.seats| == |u.seats| && u.seats == t.seats[i := u.seats[i]] && u.deck == t.deck
    requires SeatTiles(u.seats[i]) + lost == SeatTiles(t.seats[i]) + gained
    ensures TableTiles(u) + lost == TableTiles(t) + gained
  {
    SwapSeat(t, u, i);
    forall y ensures (TableTiles(u) + lost)[y] == (TableTiles(t) + gained)[y] {
      assert (TableTiles(u) + SeatTiles(t.seats[i]) + multiset(t.deck))[y]
          == (TableTiles(t) + SeatTiles(u.seats[i]) + multiset(u.deck))[y];
      assert (SeatTiles(u.seats[i]) + lost)[y] == (SeatTiles(t.seats[i]) + gained)[y];
    }
  }

  // ---------------------------------------------------------------------
  // What the seat transformations do to the tiles

  /** A discard moves one copy from the hand to the discards. */
  lemma ThrownKeeps(s: Seat, tile: Tile)
    requires tile in s.hand
    ensures SeatTiles(Thrown(s, tile)) == SeatTiles(s)
    ensures multiset(Thrown(s, tile).hand) + multiset{tile} == multiset(s.hand)
    ensures Thrown(s, tile).discards == s.discards + [tile]
    ensures Thrown(s, tile).revealed == s.revealed
  {
    var r := Thrown(s, tile);
    assert multiset(r.hand) + multiset{tile} == multiset(s.hand);
    forall y ensures SeatTiles(r)[y] == SeatTiles(s)[y] {
      assert (multiset(r.hand) + multiset{tile})[y] == multiset(s.hand)[y];
    }
  }

  /** The sets of `s` with `group` appended, when `group` is a set, are well formed. */
  lemma AppendSetOk(s: Seat, hand: seq<Tile>, group: seq<Tile>)
    requires SeatOk(s) && IsSet(group)
    ensures SeatOk(Seat(hand, s.revealed + [group], s.discards))
  {
    var rev := s.revealed + [group];
    forall j | 0 <= j < |rev| ensures IsSet(rev[j]) {
      if j < |s.revealed| {
        assert rev[j] == s.revealed[j];
      }
    }
  }

  /** A kong on held copies: every copy leaves the hand and four are revealed. */
  lemma KongAllCount(s: Seat, x: Tile, y: Tile)
    ensures SeatTiles(KongAll(s, x))[y] == if y == x then SeatTiles(s)[x] - multiset(s.hand)[x] + 4 else SeatTiles(s)[y]
  {
    var r := KongAll(s, x);
    FlattenAppend(s.revealed, [x, x, x, x]);
    assert multiset([x, x, x, x])[x] == 4;
    assert multiset(r.hand)[y] == if y == x then 0 else multiset(s.hand)[y];
  }

  /** Revealing a kong keeps the sets well formed. */
  lemma KongAllOk(s: Seat, x: Tile)
    requires SeatOk(s)
    ensures SeatOk(KongAll(s, x))
  {
    AppendSetOk(s, KongAll(s, x).hand, [x, x, x, x]);
  }

  /** A kong on four held copies moves them into a new set of four. */
  lemma KongAllKeeps(s: Seat, x: Tile)
    requires multiset(s.hand)[x] == 4
    ensures SeatTiles(KongAll(s, x)) == SeatTiles(s)
  {
    forall y ensures SeatTiles(KongAll(s, x))[y] == SeatTiles(s)[y] {
      KongAllCount(s, x, y);
    }
  }

  /** A kong on three held copies and a claimed one: the seat gains one tile. */
  lemma KongAllGains(s: Seat, x: Tile)
    requires multiset(s.hand)[x] == 3
    ensures SeatTiles(KongAll(s, x)) == SeatTiles(s) + multiset{x}
  {
    forall y ensures SeatTiles(KongAll(s, x))[y] == (SeatTiles(s) + multiset{x})[y] {
      KongAllCount(s, x, y);
    }
  }

  /** A pong: two copies leave the hand and three are revealed. */
  lemma PongCount(s: Seat, x: Tile, y: Tile)
    requires multiset(s.hand)[x] >= 2
    ensures SeatTiles(PongOf(s, x))[y] == if y == x then SeatTiles(s)[x] + 1 else SeatTiles(s)[y]
  {
    var r := PongOf(s, x);
    FlattenAppend(s.revealed, [x, x, x]);
    assert multiset([x, x, x])[x] == 3;
    assert multiset(r.hand)[y] == if y == x then multiset(s.hand)[y] - 2 else multiset(s.hand)[y];
  }

  /** Revealing a pong keeps the sets well formed. */
  lemma PongOk(s: Seat, x: Tile)
    requires SeatOk(s)
    ensures SeatOk(PongOf(s, x))
  {
    AppendSetOk(s, PongOf(s, x).hand, [x, x, x]);
  }

  /** A pong on two held copies and a claimed one: the seat gains one tile. */
  lemma PongGains(s: Seat, x: Tile)
    requires multiset(s.hand)[x] >= 2
    ensures SeatTiles(PongOf(s, x)) == SeatTiles(s) + multiset{x}
  {
    forall y ensures SeatTiles(PongOf(s, x))[y] == (SeatTiles(s) + multiset{x})[y] {
      PongCount(s, x, y);
    }
  }

  /** A kong on a drawn tile keeps the seat's tiles: with a set of three
      already revealed, the hand can hold only the one drawn copy. */
  lemma KongDrawnKeeps(s: Seat, x: Tile)
    requires SeatOk(s) && x in s.hand && Kongs(s, x) && SeatTiles(s)[x] <= 4
    ensures SeatTiles(KongDrawn(s, x)) == SeatTiles(s)
    ensures SeatOk(KongDrawn(s, x))
  {
    if multiset(s.hand)[x] == 4 {
      KongAllKeeps(s, x);
      KongAllOk(s, x);
    } else {
      KongExtendKeeps(s, x);
    }
  }

  /** A set headed by a held tile holds three copies of it, and the hand
      the fourth, when the seat holds at most four. */
  lemma KongExtendCount(s: Seat, x: Tile)
    requires SeatOk(s) && x in s.hand && FindSet(s.revealed, x) >= 0 && SeatTiles(s)[x] <= 4
    ensures |s.revealed[FindSet(s.revealed, x)]| == 3 && multiset(s.hand)[x] == 1
  {
    var k := FindSet(s.revealed, x);
    var g := s.revealed[k];
    assert IsSet(g);
    SetCount(g);
    var f := multiset(Flatten(s.revealed));
    assert f[x] >= |g| by {
      FlattenUpdate(s.revealed, k, []);
      assert (multiset(Flatten(s.revealed[k := []])) + multiset(g))[x] == (f + multiset{})[x];
    }
  }

  /** The kong that extends a revealed set of three by the one held copy. */
  lemma KongExtendKeeps(s: Seat, x: Tile)
    requires SeatOk(s) && x in s.hand && multiset(s.hand)[x] != 4 && FindSet(s.revealed, x) >= 0 && SeatTiles(s)[x] <= 4
    ensures SeatTiles(KongDrawn(s, x)) == SeatTiles(s)
    ensures SeatOk(KongDrawn(s, x))
  {
    KongExtendCount(s, x);
    var k := FindSet(s.revealed, x);
    var g := s.revealed[k];
    FlattenUpdate(s.revealed, k, g + [x]);
    var f := multiset(Flatten(s.revealed));
    var f2 := multiset(Flatten(s.revealed[k := g + [x]]));
    var r := KongDrawn(s, x);
    assert r.revealed == s.revealed[k := g + [x]];
    forall y ensures SeatTiles(r)[y] == SeatTiles(s)[y] {
      assert multiset(r.hand)[y] == if y == x then 0 else multiset(s.hand)[y];
      assert (f2 + multiset(g))[y] == (f + multiset(g + [x]))[y];
    }
    KongExtendOk(s, x);
  }

  /** A set of three grown by one copy of its tile is still a set. */
  lemma KongExtendOk(s: Seat, x: Tile)
    requires SeatOk(s) && multiset(s.hand)[x] != 4 && FindSet(s.revealed, x) >= 0
    requires |s.revealed[FindSet(s.revealed, x)]| == 3
    ensures SeatOk(KongDrawn(s, x))
  {
    var k := FindSet(s.revealed, x);
    var g := s.revealed[k];
    var r := KongDrawn(s, x);
    assert IsSet(g);
    forall j | 0 <= j < |r.revealed| ensures IsSet(r.revealed[j]) {
      if j == k {
        assert r.revealed[j] == g + [x];
      }
    }
  }

  /** Popping the latest discard, when it is `x`, takes one `x` from the seat. */
  lemma PopKeeps(s: Seat, x: Tile)
    requires s.discards != [] && s.discards[|s.discards| - 1] == x
    ensures SeatTiles(s.(discards := DropLast(s.discards))) + multiset{x} == SeatTiles(s)
  {
    var d := DropLast(s.discards);
    assert multiset(s.discards) == multiset(d) + multiset{x};
    forall y ensures (SeatTiles(s.(discards := d)) + multiset{x})[y] == SeatTiles(s)[y] {
      assert multiset(s.discards)[y] == (multiset(d) + multiset{x})[y];
    }
  }

  // ---------------------------------------------------------------------
  // The invariant

  /** Under the invariant no seat holds more than four copies of a tile. */
  lemma SeatBound(t: Table, tiles: multiset<Tile>, i: int, x: Tile)
    requires Inv(t, tiles) && 0 <= i < 4
    ensures SeatTiles(t.seats[i])[x] <= 4
  {
    SeatsTilesHas(t.seats, i, x);
    assert TableTiles(t)[x] <= 4;
  }

  /** Under the invariant the latest discard has a name, so it is the tile
      a claim acts on. */
  lemma TargetIsDiscard(t: Table, tiles: multiset<Tile>)
    requires Inv(t, tiles) && t.lastDiscard.Some?
    ensures Target(t.lastDiscard, t.newlyDrawn) == Some(t.lastDiscard.value.tile)
  {
    var d := t.lastDiscard.value;
    var ds := t.seats[d.seat].discards;
    assert ds == ds[..|ds| - 1] + [d.tile];
    assert multiset(ds)[d.tile] >= 1;
    SeatsTilesHas(t.seats, d.seat, d.tile);
    assert TableTiles(t)[d.tile] >= 1;
  }

  /** Under the invariant every held tile has a name. */
  lemma HeldIsNamed(t: Table, tiles: multiset<Tile>, i: int, x: Tile)
    requires Inv(t, tiles) && 0 <= i < 4 && x in t.seats[i].hand
    ensures x != ""
  {
    assert multiset(t.seats[i].hand)[x] >= 1;
    SeatsTilesHas(t.seats, i, x);
    assert TableTiles(t)[x] >= 1;
  }

  /** Changing fields that hold no tiles keeps the invariant. */
  lemma FieldsKeep(t: Table, u: Table, tiles: multiset<Tile>)
    requires Inv(t, tiles) && WellShaped(u) && u.deck == t.deck && u.seats == t.seats && u.lastDiscard == t.lastDiscard
    ensures Inv(u, tiles)
  {
  }

  /** Replacing seat `i`: the table keeps its tiles when the new seat holds
      the old seat's tiles plus what left the deck. */
  lemma ReplaceTiles(t: Table, u: Table, i: int)
    requires 0 <= i < |t.seats| == |u.seats| && u.seats == t.seats[i := u.seats[i]]
    requires SeatTiles(u.seats[i]) + multiset(u.deck) == SeatTiles(t.seats[i]) + multiset(t.deck)
    ensures TableTiles(u) == TableTiles(t)
  {
    SwapSeat(t, u, i);
    forall y ensures TableTiles(u)[y] == TableTiles(t)[y] {
      assert (TableTiles(u) + SeatTiles(t.seats[i]) + multiset(t.deck))[y]
          == (TableTiles(t) + SeatTiles(u.seats[i]) + multiset(u.deck))[y];
      assert (SeatTiles(u.seats[i]) + multiset(u.deck))[y] == (SeatTiles(t.seats[i]) + multiset(t.deck))[y];
    }
  }

  /** Replacing seat `i` by well-formed sets keeps every seat well formed. */
  lemma ReplaceSetsOk(t: Table, u: Table, i: int)
    requires WellShaped(t) && WellShaped(u) && 0 <= i < 4
    requires forall j :: 0 <= j < 4 ==> SeatOk(t.seats[j])
    requires u.seats == t.seats[i := u.seats[i]] && SeatOk(u.seats[i])
    ensures forall j :: 0 <= j < 4 ==> SeatOk(u.seats[j])
  {
    forall j | 0 <= j < 4 ensures SeatOk(u.seats[j]) {
      if j != i {
        assert u.seats[j] == t.seats[j];
      }
    }
  }

  /** Replacing seat `i` by a seat with the same discards keeps the latest
      discard on top. */
  lemma ReplaceOnTop(t: Table, u: Table, i: int)
    requires WellShaped(t) && WellShaped(u) && 0 <= i < 4 && LastOnTop(t)
    requires u.seats == t.seats[i := u.seats[i]] && u.seats[i].discards == t.seats[i].discards
    requires u.lastDiscard == t.lastDiscard
    ensures LastOnTop(u)
  {
    if u.lastDiscard.Some? {
      var d := u.lastDiscard.value.seat;
      assert u.seats[d].discards == t.seats[d].discards;
    }
  }

  /** Replacing seat `i` by a well-formed seat that holds the old seat's
      tiles plus what left the deck, its discards untouched, keeps the
      invariant. */
  lemma ReplaceKeeps(t: Table, u: Table, tiles: multiset<Tile>, i: int)
    requires Inv(t, tiles) && WellShaped(u) && 0 <= i < 4
    requires u.seats == t.seats[i := u.seats[i]] && SeatOk(u.seats[i])
    requires u.lastDiscard == t.lastDiscard && u.seats[i].discards == t.seats[i].discards
    requires SeatTiles(u.seats[i]) + multiset(u.deck) == SeatTiles(t.seats[i]) + multiset(t.deck)
    ensures Inv(u, tiles)
  {
    ReplaceTiles(t, u, i);
    ReplaceSetsOk(t, u, i);
    ReplaceOnTop(t, u, i);
  }

  lemma SeatsTilesFour(seats: seq<Seat>)
    requires |seats| == 4
    ensures SeatsTiles(seats) == SeatTiles(seats[0]) + SeatTiles(seats[1]) + SeatTiles(seats[2]) + SeatTiles(seats[3])
  {
    var s1 := seats[1..];
    var s2 := s1[1..];
    var s3 := s2[1..];
    assert s3[1..] == [];
    assert SeatsTiles(s3) == SeatTiles(seats[3]);
    assert SeatsTiles(s2) == SeatTiles(seats[2]) + SeatsTiles(s3);
    assert SeatsTiles(s1) == SeatTiles(seats[1]) + SeatsTiles(s2);
  }

  /** Seat 0 is dealt the first 13 tiles and the 53rd. */
  lemma DealSeat0(s: seq<Tile>)
    requires |s| >= 53
    ensures Deal(s)[0].revealed == [] && Deal(s)[0].discards == []
    ensures multiset(Deal(s)[0].hand) == multiset(s[..13]) + multiset{s[52]} && |Deal(s)[0].hand| == 14
  {
  }

  /** Seats 1 to 3 are dealt the next three runs of 13 tiles. */
  lemma DealSeat1(s: seq<Tile>)
    requires |s| >= 53
    ensures Deal(s)[1].revealed == [] && Deal(s)[1].discards == []
    ensures multiset(Deal(s)[1].hand) == multiset(s[13..26]) && |Deal(s)[1].hand| == 13
  {
  }

  lemma DealSeat2(s: seq<Tile>)
    requires |s| >= 53
    ensures Deal(s)[2].revealed == [] && Deal(s)[2].discards == []
    ensures multiset(Deal(s)[2].hand) == multiset(s[26..39]) && |Deal(s)[2].hand| == 13
  {
  }

  lemma DealSeat3(s: seq<Tile>)
    requires |s| >= 53
    ensures Deal(s)[3].revealed == [] && Deal(s)[3].discards == []
    ensures multiset(Deal(s)[3].hand) == multiset(s[39..52]) && |Deal(s)[3].hand| == 13
  {
  }

  /** The deal of 136 tiles: seat 0 holds 14 tiles, the others 13, and 83
      stay in the deck. */
  lemma DealSizes(s: seq<Tile>)
    requires |s| == 136
    ensures |s[53..]| == 83
    ensures |Deal(s)[0].hand| == 14 && |Deal(s)[1].hand| == 13 && |Deal(s)[2].hand| == 13 && |Deal(s)[3].hand| == 13
  {
    DealSeat0(s);
    DealSeat1(s);
    DealSeat2(s);
    DealSeat3(s);
  }

  /** A seat with nothing revealed or discarded holds exactly its hand. */
  lemma BareSeatTiles(s: Seat)
    requires s.revealed == [] && s.discards == []
    ensures SeatTiles(s) == multiset(s.hand)
  {
    assert Flatten([]) == [];
  }

  /** The dealt stretch of a shuffled set splits into the four runs the
      seats receive, the 53rd tile and the rest of the deck. */
  lemma DealSlices(s: seq<Tile>)
    requires |s| >= 53
    ensures multiset(s) == multiset(s[..13]) + multiset(s[13..26]) + multiset(s[26..39]) + multiset(s[39..52]) + multiset{s[52]} + multiset(s[53..])
  {
    assert s[..13] == s[0..13] && s[52..53] == [s[52]];
    var n := |s|;
    MultisetSlices(s, 0, 13, n);
    MultisetSlices(s, 13, 26, n);
    MultisetSlices(s, 26, 39, n);
    MultisetSlices(s, 39, 52, n);
    MultisetSlices(s, 52, 53, n);
    assert s[0..n] == s && s[53..n] == s[53..];
  }

  /** Four seats with nothing revealed or discarded, holding the first 52
      tiles and the 53rd, hold every tile but the rest of the deck. */
  lemma HandsTiles(s: seq<Tile>, seats: seq<Seat>)
    requires |s| >= 53 && |seats| == 4
    requires seats[0].revealed == [] && seats[0].discards == [] && seats[1].revealed == [] && seats[1].discards == []
    requires seats[2].revealed == [] && seats[2].discards == [] && seats[3].revealed == [] && seats[3].discards == []
    requires multiset(seats[0].hand) == multiset(s[..13]) + multiset{s[52]}
    requires multiset(seats[1].hand) == multiset(s[13..26])
    requires multiset(seats[2].hand) == multiset(s[26..39])
    requires multiset(seats[3].hand) == multiset(s[39..52])
    ensures multiset(s[53..]) + SeatsTiles(seats) == multiset(s)
  {
    SeatsTilesFour(seats);
    BareSeatTiles(seats[0]);
    BareSeatTiles(seats[1]);
    BareSeatTiles(seats[2]);
    BareSeatTiles(seats[3]);
    DealSlices(s);
    var a, b, c, d := multiset(s[..13]), multiset(s[13..26]), multiset(s[26..39]), multiset(s[39..52]);
    var e, f := multiset{s[52]}, multiset(s[53..]);
    forall y ensures (f + SeatsTiles(seats))[y] == multiset(s)[y] {
      assert multiset(s)[y] == a[y] + b[y] + c[y] + d[y] + e[y] + f[y];
    }
  }

  /** The deal hands out every tile it does not leave in the deck. */
  lemma DealTiles(s: seq<Tile>)
    requires |s| >= 53
    ensures multiset(s[53..]) + SeatsTiles(Deal(s)) == multiset(s)
  {
    DealSeat0(s);
    DealSeat1(s);
    DealSeat2(s);
    DealSeat3(s);
    HandsTiles(s, Deal(s));
  }

  /** Four seats with nothing revealed have well-formed sets. */
  lemma NothingRevealedOk(seats: seq<Seat>)
    requires |seats| == 4
    requires seats[0].revealed == [] && seats[1].revealed == [] && seats[2].revealed == [] && seats[3].revealed == []
    ensures forall i :: 0 <= i < 4 ==> SeatOk(seats[i])
  {
  }

  /** `init` keeps every tile it is given, and the invariant holds after it. */
  lemma DealKeeps(t: Table, s: seq<Tile>)
    requires |s| >= 53 && Bounded(multiset(s))
    ensures Inv(Dealt(t, s), multiset(s))
  {
    DealTiles(s);
    DealSeat0(s);
    DealSeat1(s);
    DealSeat2(s);
    DealSeat3(s);
    NothingRevealedOk(Deal(s));
    var v := Table(s[53..], Deal(s), 0, None, false, None, NoActions, None, Idle);
    assert WellShaped(v);
    assert LastOnTop(v);
    assert TableTiles(v) == multiset(s);
    assert forall i :: 0 <= i < 4 ==> SeatOk(v.seats[i]);
    assert Inv(v, multiset(s));
    FieldsKeep(v, Dealt(t, s), multiset(s));
  }

  /** The deal of a shuffled full set: the invariant holds with the 136
      tiles of the full set. */
  lemma DealFullDeck(t: Table, s: seq<Tile>)
    requires |s| == 136 && IsShuffle(s)
    ensures Inv(Dealt(t, s), multiset(s))
  {
    ShuffledBound(s);
    DealKeeps(t, s);
  }

  /** A kong on a held tile heading a set or held four times keeps the invariant. */
  lemma SeatKongKeeps(t: Table, tiles: multiset<Tile>, i: int, x: Tile)
    requires Inv(t, tiles) && 0 <= i < 4 && x in t.seats[i].hand && Kongs(t.seats[i], x)
    ensures Inv(t.(seats := t.seats[i := KongDrawn(t.seats[i], x)]), tiles)
  {
    SeatBound(t, tiles, i, x);
    assert SeatOk(t.seats[i]);
    KongDrawnKeeps(t.seats[i], x);
    var u := t.(seats := t.seats[i := KongDrawn(t.seats[i], x)]);
    ReplaceKeeps(t, u, tiles, i);
  }

  /** The seat that draws `d` on seat `next`'s turn, as it stands after
      the draw and the kong that may follow it. */
  ghost function DrawnSeat(s: Seat, d: Tile, next: int): Seat {
    var h := s.hand + [d];
    if IsWinning(h) || next == 0 then s.(hand := h)
    else
      var sorted := s.(hand := SortHand(h));
      if Kongs(sorted, d) then KongDrawn(sorted, d) else sorted
  }

  /** A draw changes only the deck, the drawing seat and fields outside the
      invariant. */
  lemma NextTurnSeat(t: Table, p: int)
    requires WellShaped(t) && 0 <= p < 4 && t.winner.None? && t.deck != []
    ensures AfterNextTurn(t, p).seats == t.seats[(p + 1) % 4 := DrawnSeat(t.seats[(p + 1) % 4], t.deck[0], (p + 1) % 4)]
  {
    var next := (p + 1) % 4;
    var d := t.deck[0];
    var s := t.seats[next];
    var h := s.hand + [d];
    if IsWinning(h) || next == 0 {
      assert DrawnSeat(s, d, next) == s.(hand := h);
    } else {
      var sorted := s.(hand := SortHand(h));
      if Kongs(sorted, d) {
        assert DrawnSeat(s, d, next) == KongDrawn(sorted, d);
      } else {
        assert DrawnSeat(s, d, next) == sorted;
      }
    }
  }

  /** The drawing seat gains exactly the drawn tile and keeps its sets well
      formed, when it held at most three copies of that tile. */
  lemma DrawnSeatKeeps(s: Seat, d: Tile, next: int)
    requires SeatOk(s) && SeatTiles(s)[d] < 4
    ensures SeatTiles(DrawnSeat(s, d, next)) == SeatTiles(s) + multiset{d}
    ensures SeatOk(DrawnSeat(s, d, next))
    ensures DrawnSeat(s, d, next).discards == s.discards
  {
    var h := s.hand + [d];
    var s1 := s.(hand := h);
    assert SeatTiles(s1) == SeatTiles(s) + multiset{d} by {
      forall y ensures SeatTiles(s1)[y] == (SeatTiles(s) + multiset{d})[y] {
        assert multiset(h)[y] == multiset(s.hand)[y] + multiset{d}[y];
      }
    }
    if !(IsWinning(h) || next == 0) {
      var sorted := s.(hand := SortHand(h));
      assert SeatTiles(sorted) == SeatTiles(s1);
      if Kongs(sorted, d) {
        assert d in multiset(sorted.hand);
        KongDrawnKeeps(sorted, d);
      }
    }
  }

  /** A draw, and whatever follows it, keeps the invariant. */
  lemma NextTurnKeeps(t: Table, tiles: multiset<Tile>, p: int)
    requires Inv(t, tiles) && 0 <= p < 4
    ensures Inv(AfterNextTurn(t, p), tiles)
  {
    if t.winner.Some? || t.deck == [] {
      return;
    }
    NextTurnSeat(t, p);
    DrawKeepsInv(t, tiles, p, AfterNextTurn(t, p));
  }

  /** Any table that a draw from `t` leads to keeps the invariant. */
  lemma DrawKeepsInv(t: Table, tiles: multiset<Tile>, p: int, u: Table)
    requires Inv(t, tiles) && 0 <= p < 4 && t.deck != [] && WellShaped(u)
    requires u.deck == t.deck[1..] && u.lastDiscard == t.lastDiscard
    requires u.seats == t.seats[(p + 1) % 4 := DrawnSeat(t.seats[(p + 1) % 4], t.deck[0], (p + 1) % 4)]
    ensures Inv(u, tiles)
  {
    var next := (p + 1) % 4;
    var d := t.deck[0];
    var s := t.seats[next];
    DrawBound(t, tiles, next);
    assert SeatOk(s);
    DrawnSeatKeeps(s, d, next);
    DrawMoves(t.deck, SeatTiles(s), SeatTiles(DrawnSeat(s, d, next)));
    ReplaceKeeps(t, u, tiles, next);
  }

  /** Under the invariant a seat holds at most three copies of the tile on
      top of the deck. */
  lemma DrawBound(t: Table, tiles: multiset<Tile>, i: int)
    requires Inv(t, tiles) && 0 <= i < 4 && t.deck != []
    ensures SeatTiles(t.seats[i])[t.deck[0]] < 4
  {
    var d := t.deck[0];
    SeatsTilesHas(t.seats, i, d);
    assert t.deck == [d] + t.deck[1..];
    assert multiset(t.deck)[d] >= 1;
    assert TableTiles(t)[d] <= 4;
  }

  /** The top tile moving from the deck to a seat keeps the sum. */
  lemma DrawMoves(deck: seq<Tile>, before: multiset<Tile>, after: multiset<Tile>)
    requires deck != [] && after == before + multiset{deck[0]}
    ensures after + multiset(deck[1..]) == before + multiset(deck)
  {
    assert deck == [deck[0]] + deck[1..];
    forall y ensures (after + multiset(deck[1..]))[y] == (before + multiset(deck))[y] {
      assert multiset(deck)[y] == multiset(deck[1..])[y] + multiset{deck[0]}[y];
    }
  }

  /** A discard keeps the invariant. */
  lemma DiscardKeeps(t: Table, tiles: multiset<Tile>, p: int, tile: Tile)
    requires Inv(t, tiles) && 0 <= p < 4
    ensures Inv(AfterDiscard(t, p, tile), tiles)
  {
    if t.winner.None? && tile in t.seats[p].hand {
      ThrownKeeps(t.seats[p], tile);
      var s := Thrown(t.seats[p], tile);
      ThrowKeeps(t, tiles, p, tile, s);
      var done := t.(seats := t.seats[p := s], lastDiscard := Some(Discarded(tile, p)), newlyDrawn := None);
      FieldsKeep(done, AfterDiscard(t, p, tile), tiles);
    }
  }

  /** Seat `p` throwing `tile`, as a seat `s` with the same tiles, the same
      sets and `tile` on top of its discards, keeps the invariant. */
  lemma ThrowKeeps(t: Table, tiles: multiset<Tile>, p: int, tile: Tile, s: Seat)
    requires Inv(t, tiles) && 0 <= p < 4
    requires SeatTiles(s) == SeatTiles(t.seats[p]) && s.revealed == t.seats[p].revealed
    requires s.discards == t.seats[p].discards + [tile]
    ensures Inv(t.(seats := t.seats[p := s], lastDiscard := Some(Discarded(tile, p)), newlyDrawn := None), tiles)
  {
    var done := t.(seats := t.seats[p := s], lastDiscard := Some(Discarded(tile, p)), newlyDrawn := None);
    assert TableTiles(done) == tiles by {
      ReplaceTiles(t, done, p);
    }
    assert forall i :: 0 <= i < 4 ==> SeatOk(done.seats[i]) by {
      assert SeatOk(t.seats[p]);
      ReplaceSetsOk(t, done, p);
    }
    assert LastOnTop(done) by {
      assert s.discards[|s.discards| - 1] == tile;
    }
  }

  /** The AI's scheduled discard keeps the invariant. */
  lemma AIDiscardKeeps(t: Table, tiles: multiset<Tile>, idx: int, r: real)
    requires Inv(t, tiles) && 0 <= idx < 4 && 0.0 <= r < 1.0
    ensures Inv(AfterAIDiscard(t, idx, r), tiles)
  {
    if t.winner.None? {
      var quiet := t.(thinking := false);
      FieldsKeep(t, quiet, tiles);
      var hand := t.seats[idx].hand;
      if hand != [] {
        DiscardKeeps(quiet, tiles, idx, hand[RandomIndex(r, |hand|)]);
      }
    }
  }

  /** When a claim keeps the tiles: a pong on a discard needs two held
      copies, a kong on a discard three, and a kong on a drawn tile the
      tile in the hand. A claim without a target changes nothing. */
  ghost predicate ClaimSound(t: Table, a: Action)
    requires WellShaped(t)
  {
    match Target(t.lastDiscard, t.newlyDrawn)
      case None => true
      case Some(x) =>
        (a == Pong && t.lastDiscard.Some? ==> multiset(t.seats[0].hand)[x] >= 2) &&
        (a == Kong && t.lastDiscard.Some? ==> multiset(t.seats[0].hand)[x] == 3) &&
        (a == Kong && t.lastDiscard.None? ==> x in t.seats[0].hand)
  }

  /** Taking the latest discard off its thrower's pile: the table loses that
      one tile, and hands and sets stay as they were. */
  lemma PoppedTiles(t: Table, tiles: multiset<Tile>)
    requires Inv(t, tiles) && t.lastDiscard.Some?
    ensures TableTiles(t.(seats := Popped(t))) + multiset{t.lastDiscard.value.tile} == tiles
  {
    var d := t.lastDiscard.value;
    var v := t.(seats := Popped(t));
    PopKeeps(t.seats[d.seat], d.tile);
    SwapSeatBy(t, v, d.seat, multiset{d.tile}, multiset{});
  }

  /** The pop touches only the thrower's discards. */
  lemma PoppedSeats(t: Table)
    requires WellShaped(t) && t.lastDiscard.Some?
    ensures |Popped(t)| == 4
    ensures forall i :: 0 <= i < 4 ==> Popped(t)[i].hand == t.seats[i].hand && Popped(t)[i].revealed == t.seats[i].revealed
  {
  }

  /** A claim on the latest discard that hands seat 0 a seat holding one
      more tile than it had after the pop keeps the invariant. */
  lemma ClaimOnPoppedKeeps(t: Table, tiles: multiset<Tile>, s1: Seat, u: Table)
    requires Inv(t, tiles) && t.lastDiscard.Some? && WellShaped(u)
    requires SeatOk(s1) && SeatTiles(s1) == SeatTiles(Popped(t)[0]) + multiset{t.lastDiscard.value.tile}
    requires u.deck == t.deck && u.seats == Popped(t)[0 := s1] && u.lastDiscard.None?
    ensures Inv(u, tiles)
  {
    var x := t.lastDiscard.value.tile;
    PoppedTiles(t, tiles);
    PoppedSeats(t);
    var v := t.(seats := Popped(t));
    SwapSeatBy(v, u, 0, multiset{}, multiset{x});
    forall i | 0 <= i < 4 ensures SeatOk(u.seats[i]) {
      if i != 0 {
        assert SeatOk(t.seats[i]);
        assert u.seats[i].revealed == t.seats[i].revealed;
      }
    }
  }

  /** PONG on a discard with two copies held keeps the invariant. */
  lemma PongKeeps(t: Table, tiles: multiset<Tile>)
    requires Inv(t, tiles) && t.lastDiscard.Some?
    requires multiset(t.seats[0].hand)[t.lastDiscard.value.tile] >= 2
    ensures Inv(PongOn(t, t.lastDiscard.value.tile), tiles)
  {
    var x := t.lastDiscard.value.tile;
    PoppedSeats(t);
    var s0 := Popped(t)[0];
    assert SeatOk(t.seats[0]);
    PongGains(s0, x);
    PongOk(s0, x);
    ClaimOnPoppedKeeps(t, tiles, PongOf(s0, x), PongOn(t, x));
  }

  /** KONG on a discard with three copies held keeps the invariant. */
  lemma KongDiscardKeeps(t: Table, tiles: multiset<Tile>)
    requires Inv(t, tiles) && t.lastDiscard.Some?
    requires multiset(t.seats[0].hand)[t.lastDiscard.value.tile] == 3
    ensures Inv(KongOn(t, t.lastDiscard.value.tile), tiles)
  {
    var x := t.lastDiscard.value.tile;
    PoppedSeats(t);
    var s0 := Popped(t)[0];
    assert SeatOk(t.seats[0]);
    KongAllGains(s0, x);
    KongAllOk(s0, x);
    ClaimOnPoppedKeeps(t, tiles, KongAll(s0, x), KongOn(t, x));
  }

  /** KONG on a held drawn tile keeps the invariant. */
  lemma KongHeldKeeps(t: Table, tiles: multiset<Tile>, x: Tile)
    requires Inv(t, tiles) && t.lastDiscard.None? && x in t.seats[0].hand
    ensures Inv(KongOn(t, x), tiles)
  {
    if Kongs(t.seats[0], x) {
      SeatKongKeeps(t, tiles, 0, x);
      var u := t.(seats := t.seats[0 := KongDrawn(t.seats[0], x)]);
      FieldsKeep(u, KongOn(t, x), tiles);
    }
  }

  /** Every action keeps the invariant, PONG and KONG when they are sound. */
  lemma ActionKeeps(t: Table, tiles: multiset<Tile>, a: Action)
    requires Inv(t, tiles) && ClaimSound(t, a)
    ensures Inv(AfterAction(t, a), tiles)
  {
    if t.winner.Some? {
      return;
    }
    match a
    case Hu =>
      FieldsKeep(t, t.(winner := Some(0)), tiles);
    case Pass =>
      var cleared := t.(actions := NoActions);
      FieldsKeep(t, cleared, tiles);
      if t.turn != 0 || (t.lastDiscard.Some? && t.lastDiscard.value.seat != t.turn) {
        NextTurnKeeps(cleared, tiles, if t.lastDiscard.Some? then t.lastDiscard.value.seat else t.turn);
      }
    case Pong =>
      if t.lastDiscard.Some? {
        TargetIsDiscard(t, tiles);
        PongKeeps(t, tiles);
      }
    case Kong =>
      if t.lastDiscard.Some? {
        TargetIsDiscard(t, tiles);
        KongDiscardKeeps(t, tiles);
      } else if t.newlyDrawn.Some? && t.newlyDrawn.value != "" {
        KongHeldKeeps(t, tiles, t.newlyDrawn.value);
      }
  }

  /** Whatever timer fires keeps the invariant. */
  lemma FiredKeeps(t: Table, tiles: multiset<Tile>, r: real)
    requires Inv(t, tiles) && 0.0 <= r < 1.0
    ensures Inv(Fired(t, r), tiles)
  {
    var idle := t.(pending := Idle);
    FieldsKeep(t, idle, tiles);
    match t.pending
    case Idle =>
    case NextTurnAfter(p) => NextTurnKeeps(idle, tiles, p);
    case AIDiscard(i) => AIDiscardKeeps(idle, tiles, i, r);
  }

  /** A discard by seat 1, 2 or 3, while no claim is shown, offers seat 0
      only claims that keep the tiles. */
  lemma DiscardOffersSound(t: Table, tiles: multiset<Tile>, p: int, tile: Tile, a: Action)
    requires Inv(t, tiles) && 1 <= p < 4 && t.actions == NoActions
    requires Offered(AfterDiscard(t, p, tile).actions, AfterDiscard(t, p, tile).winner, a)
    ensures ClaimSound(AfterDiscard(t, p, tile), a)
  {
    HeldIsNamed(t, tiles, p, tile);
  }

  // ---------------------------------------------------------------------
  // What each step does, as the component's code reads

  /** A draw changes no seat but the drawing one. */
  lemma DrawOthers(t: Table, p: int)
    requires WellShaped(t) && 0 <= p < 4 && t.winner.None? && t.deck != []
    ensures forall i :: 0 <= i < 4 && i != (p + 1) % 4 ==> AfterNextTurn(t, p).seats[i] == t.seats[i]
  {
    NextTurnSeat(t, p);
  }

  /** Seat 0's own draw, when it does not win: the tile goes unsorted to
      the end of its hand, and seat 0 is offered kong alone, on four copies
      or on a set headed by the tile. */
  lemma OwnDrawFacts(t: Table)
    requires WellShaped(t) && t.winner.None? && t.deck != []
    requires !IsWinning(t.seats[0].hand + [t.deck[0]])
    ensures var u := AfterNextTurn(t, 3); var d := t.deck[0]; var s := t.seats[0];
      u.seats[0] == s.(hand := s.hand + [d]) && u.winner.None? &&
      u.actions == if multiset(s.hand)[d] == 3 || FindSet(s.revealed, d) >= 0 then Actions(false, false, true)
                   else t.actions
  {
    var d := t.deck[0];
    var s := t.seats[0];
    var h := s.hand + [d];
    assert multiset(h)[d] == multiset(s.hand)[d] + 1;
    var canKong := multiset(h)[d] == 4 || FindSet(s.revealed, d) >= 0;
    var u := AfterNextTurn(t, 3);
    assert (3 + 1) % 4 == 0;
    assert u.seats == t.seats[0 := s.(hand := h)];
    assert u.actions == if canKong then Actions(false, false, true) else t.actions;
  }

  /** An AI seat's draw, when it does not win: the hand is sorted; on four
      copies, or on a set headed by the tile, the seat kongs and the next
      turn is scheduled after it, so the following seat draws next and
      there is no replacement draw; otherwise the seat starts thinking and
      its discard is scheduled. */
  lemma AIDrawFacts(t: Table, p: int, r: real)
    requires WellShaped(t) && 0 <= p < 4 && (p + 1) % 4 != 0 && t.winner.None? && t.deck != []
    requires !IsWinning(t.seats[(p + 1) % 4].hand + [t.deck[0]])
    requires 0.0 <= r < 1.0
    ensures var u := AfterNextTurn(t, p); var next := (p + 1) % 4; var d := t.deck[0];
      var sorted := t.seats[next].(hand := SortHand(t.seats[next].hand + [d]));
      u.turn == next && u.winner.None? &&
      (Kongs(sorted, d) ==>
        u.seats[next] == KongDrawn(sorted, d) && u.pending == NextTurnAfter(next) &&
        (u.deck != [] ==> Fired(u, r).turn == (next + 1) % 4 && Fired(u, r).newlyDrawn == Some(u.deck[0]))) &&
      (!Kongs(sorted, d) ==> u.seats[next] == sorted && u.thinking && u.pending == AIDiscard(next))
  {
  }

  /** An AI seat's kong on its draw: every copy leaves the hand, and either
      four are revealed or the set headed by the tile grows by one. */
  lemma KongDrawnFacts(s: Seat, x: Tile)
    requires Kongs(s, x)
    ensures var r := KongDrawn(s, x);
      x !in r.hand && multiset(r.hand) == multiset(s.hand)[x := 0] && r.discards == s.discards &&
      (multiset(s.hand)[x] == 4 ==> r.revealed == s.revealed + [[x, x, x, x]]) &&
      (multiset(s.hand)[x] != 4 ==>
        var k := FindSet(s.revealed, x);
        0 <= k && s.revealed[k][0] == x && r.revealed == s.revealed[k := s.revealed[k] + [x]])
  {
  }

  /** `handleDiscard(p, tile)` does nothing once the game is won or when
      the seat does not hold the tile. */
  lemma DiscardNoop(t: Table, p: int, tile: Tile)
    requires WellShaped(t) && 0 <= p < 4
    requires t.winner.Some? || tile !in t.seats[p].hand
    ensures AfterDiscard(t, p, tile) == t
  {
  }

  /** Otherwise one copy moves from the hand to the seat's discards, it
      becomes the latest discard, and no other seat changes. */
  lemma DiscardMoves(t: Table, p: int, tile: Tile)
    requires WellShaped(t) && 0 <= p < 4 && t.winner.None? && tile in t.seats[p].hand
    ensures var u := AfterDiscard(t, p, tile);
      multiset(u.seats[p].hand) + multiset{tile} == multiset(t.seats[p].hand) &&
      u.seats[p].discards == t.seats[p].discards + [tile] && u.seats[p].revealed == t.seats[p].revealed &&
      u.lastDiscard == Some(Discarded(tile, p)) && u.newlyDrawn.None? && u.turn == t.turn &&
      u.deck == t.deck && u.winner.None?
    ensures forall i :: 0 <= i < 4 && i != p ==> AfterDiscard(t, p, tile).seats[i] == t.seats[i]
  {
    ThrownKeeps(t.seats[p], tile);
  }

  /** A discard by seat 1, 2 or 3 gives seat 0 the flags hu (hand plus tile
      wins), pong (two copies held) and kong (three copies held); with none
      set, or on seat 0's own discard, the next turn is scheduled after the
      discarder and the flags stay as they were. */
  lemma DiscardFlags(t: Table, p: int, tile: Tile)
    requires WellShaped(t) && 0 <= p < 4 && t.winner.None? && tile in t.seats[p].hand
    ensures var u := AfterDiscard(t, p, tile); var h0 := t.seats[0].hand;
      var hu, pong, kong := IsWinning(h0 + [tile]), multiset(h0)[tile] >= 2, multiset(h0)[tile] == 3;
      (p != 0 && (hu || pong || kong) ==> u.actions == Actions(pong, hu, kong) && u.pending == t.pending) &&
      (p == 0 || !(hu || pong || kong) ==> u.actions == t.actions && u.pending == NextTurnAfter(p))
  {
  }

  /** PONG on a named discard: two copies leave seat 0's hand, a set of three
      is revealed, the discard leaves its thrower's pile, and seat 0 takes
      the turn. */
  lemma PongFacts(t: Table)
    requires WellShaped(t) && t.winner.None? && t.lastDiscard.Some? && t.lastDiscard.value.tile != ""
    requires multiset(t.seats[0].hand)[t.lastDiscard.value.tile] >= 2
    ensures var u := AfterAction(t, Pong); var x := t.lastDiscard.value.tile; var d := t.lastDiscard.value.seat;
      multiset(u.seats[0].hand) + multiset{x, x} == multiset(t.seats[0].hand) &&
      u.seats[0].revealed == t.seats[0].revealed + [[x, x, x]] &&
      u.seats[d].discards == DropLast(t.seats[d].discards) &&
      u.turn == 0 && u.lastDiscard.None? && u.actions == NoActions && u.newlyDrawn.None? &&
      u.deck == t.deck && u.pending == t.pending
  {
    var x := t.lastDiscard.value.tile;
    var h := t.seats[0].hand;
    var r := RemoveFirstN(h, x, 2);
    assert multiset(r) + multiset{x, x} == multiset(h) by {
      forall y ensures (multiset(r) + multiset{x, x})[y] == multiset(h)[y] {
      }
    }
  }

  /** KONG on a named discard: every copy leaves seat 0's hand, a set of
      four is revealed, the discard leaves its thrower's pile, and the next
      turn is scheduled after seat 0, so seat 1 draws next: there is no
      replacement draw. */
  lemma KongFacts(t: Table, r: real)
    requires WellShaped(t) && t.winner.None? && t.lastDiscard.Some? && t.lastDiscard.value.tile != ""
    requires 0.0 <= r < 1.0
    ensures var u := AfterAction(t, Kong); var x := t.lastDiscard.value.tile; var d := t.lastDiscard.value.seat;
      x !in u.seats[0].hand && multiset(u.seats[0].hand) == multiset(t.seats[0].hand)[x := 0] &&
      u.seats[0].revealed == t.seats[0].revealed + [[x, x, x, x]] &&
      u.seats[d].discards == DropLast(t.seats[d].discards) &&
      u.turn == 0 && u.lastDiscard.None? && u.actions == NoActions && u.pending == NextTurnAfter(0) &&
      (u.deck != [] ==> Fired(u, r).turn == 1 && Fired(u, r).newlyDrawn == Some(u.deck[0]))
  {
  }

  /** KONG on seat 0's own draw, with no discard on the table: every copy
      leaves the hand, the set is revealed or grows, and the next turn is
      scheduled after seat 0, so seat 1 draws next: there is no replacement
      draw here either. */
  lemma KongDrawnTurnFacts(t: Table, r: real)
    requires WellShaped(t) && t.winner.None? && t.lastDiscard.None?
    requires t.newlyDrawn.Some? && t.newlyDrawn.value != "" && Kongs(t.seats[0], t.newlyDrawn.value)
    requires 0.0 <= r < 1.0
    ensures var u := AfterAction(t, Kong); var x := t.newlyDrawn.value;
      u.seats == t.seats[0 := KongDrawn(t.seats[0], x)] && x !in u.seats[0].hand &&
      u.turn == 0 && u.actions == NoActions && u.pending == NextTurnAfter(0) &&
      (u.deck != [] ==> Fired(u, r).turn == 1 && Fired(u, r).newlyDrawn == Some(u.deck[0]))
  {
    KongDrawnFacts(t.seats[0], t.newlyDrawn.value);
  }

  /** HU ends the game with seat 0 as the winner; once the game is won,
      every action, draw, discard and timer leaves the table as it is. */
  lemma WinnerFreezes(t: Table, a: Action, p: int, tile: Tile, r: real)
    requires WellShaped(t) && 0 <= p < 4 && 0.0 <= r < 1.0
    ensures t.winner.None? ==> AfterAction(t, Hu) == t.(winner := Some(0))
    ensures t.winner.Some? ==>
      AfterAction(t, a) == t && AfterNextTurn(t, p) == t && AfterDiscard(t, p, tile) == t &&
      AfterAIDiscard(t, p, r) == t && Fired(t, r) == t.(pending := Idle)
  {
  }

  /** `lastDiscard` is set only by a discard and cleared only by PONG and
      KONG: a draw, HU and PASS keep it. */
  lemma LastDiscardKept(t: Table, a: Action)
    requires WellShaped(t)
    ensures AfterAction(t, a).lastDiscard != t.lastDiscard ==> (a == Pong || a == Kong) && AfterAction(t, a).lastDiscard.None?
  {
  }

  /** KONG on the latest discard `x` reveals four copies whatever seat 0
      holds: the table's count of `x` moves by three minus the copies held,
      and no other count changes. */
  lemma KongOnDiscardCount(t: Table, tiles: multiset<Tile>, y: Tile)
    requires Inv(t, tiles) && t.lastDiscard.Some?
    ensures var x := t.lastDiscard.value.tile;
      TableTiles(KongOn(t, x))[y] == if y == x then tiles[x] + 3 - multiset(t.seats[0].hand)[x] else tiles[y]
  {
    var x := t.lastDiscard.value.tile;
    var s0 := Popped(t)[0];
    assert s0.hand == t.seats[0].hand;
    PoppedTiles(t, tiles);
    var c := TableTiles(t.(seats := Popped(t)))[y];
    assert c + multiset{x}[y] == tiles[y];
    KongOnSwap(t, y);
    KongAllCount(s0, x, y);
  }

  /** KONG on a discard swaps seat 0 of the popped table. */
  lemma KongOnSwap(t: Table, y: Tile)
    requires WellShaped(t) && t.lastDiscard.Some?
    ensures var x := t.lastDiscard.value.tile; var s0 := Popped(t)[0];
      TableTiles(KongOn(t, x))[y] + SeatTiles(s0)[y] == TableTiles(t.(seats := Popped(t)))[y] + SeatTiles(KongAll(s0, x))[y]
  {
    var x := t.lastDiscard.value.tile;
    var v := t.(seats := Popped(t));
    var u := KongOn(t, x);
    assert u.seats == v.seats[0 := KongAll(v.seats[0], x)] && u.deck == v.deck;
    SwapSeat(v, u, 0);
    assert (TableTiles(u) + SeatTiles(v.seats[0]) + multiset(v.deck))[y]
        == (TableTiles(v) + SeatTiles(u.seats[0]) + multiset(u.deck))[y];
  }

  /** So KONG on a discard keeps the tiles exactly when seat 0 holds three
      copies, which is what its kong flag on a discard asks; a flag raised
      on seat 0's own draw, or left over from an earlier offer, can lead to
      a kong on a discard seat 0 does not hold three of. */
  lemma KongOnDiscardKeepsIff(t: Table, tiles: multiset<Tile>)
    requires Inv(t, tiles) && t.winner.None? && t.lastDiscard.Some?
    ensures TableTiles(AfterAction(t, Kong)) == tiles <==> multiset(t.seats[0].hand)[t.lastDiscard.value.tile] == 3
  {
    var x := t.lastDiscard.value.tile;
    TargetIsDiscard(t, tiles);
    assert AfterAction(t, Kong) == KongOn(t, x);
    KongOnDiscardCount(t, tiles, x);
    if multiset(t.seats[0].hand)[x] == 3 {
      forall y ensures TableTiles(KongOn(t, x))[y] == tiles[y] {
        KongOnDiscardCount(t, tiles, y);
      }
    }
  }

  // ---------------------------------------------------------------------
  // The component

  class MahjongTable {
    var deck: seq<Tile>
    var seats: seq<Seat>
    var turn: int
    var winner: Option<int>
    var thinking: bool
    var lastDiscard: Option<Discarded>
    var actions: Actions
    var newlyDrawn: Option<Tile>
    var pending: Pending

    function State(): Table
      reads this
    {
      Table(deck, seats, turn, winner, thinking, lastDiscard, actions, newlyDrawn, pending)
    }

    ghost predicate Valid()
      reads this
    {
      WellShaped(State())
    }

    /** Writes every field at once. */
    method Commit(t: Table)
      modifies this
      ensures State() == t
    {
      deck, seats, turn, winner, thinking := t.deck, t.seats, t.turn, t.winner, t.thinking;
      lastDiscard, actions, newlyDrawn, pending := t.lastDiscard, t.actions, t.newlyDrawn, t.pending;
    }

    /** Mounting runs `init` at once. */
    constructor(shuffled: seq<Tile>)
      requires |shuffled| == 136
      ensures Valid()
      ensures State() == Dealt(Table([], [], 0, None, false, None, NoActions, None, Idle), shuffled)
    {
      deck, seats, turn, winner, thinking := [], [], 0, None, false;
      lastDiscard, actions, newlyDrawn, pending := None, NoActions, None, Idle;
      new;
      Init(shuffled);
    }

    /** `init`, with the shuffled deck as its argument. */
    method Init(shuffled: seq<Tile>)
      requires |shuffled| == 136
      modifies this
      ensures Valid()
      ensures State() == Dealt(old(State()), shuffled)
    {
      var dealt := Deal(shuffled);
      var hand := dealt[0].hand;
      var canHu := CheckHu(hand);
      var canKong := multiset(hand)[shuffled[52]] == 4;
      Commit(Table(shuffled[53..], dealt, 0, None, thinking, None, Actions(false, canHu, canKong),
                   Some(shuffled[52]), Idle));
    }

    /** `startNextTurn(p)`. */
    method StartNextTurn(p: int)
      requires Valid() && 0 <= p < 4
      modifies this
      ensures Valid()
      ensures State() == AfterNextTurn(old(State()), p)
    {
      var t := State();
      if t.winner.Some? || t.deck == [] {
        if t.deck == [] && t.winner.None? {
          winner := Some(-1);
        }
        return;
      }
      var next := (p + 1) % 4;
      var drawn := t.deck[0];
      var s := t.seats[next];
      var hand := s.hand + [drawn];
      var drew := t.(turn := next, deck := t.deck[1..], newlyDrawn := Some(drawn));
      var hu := CheckHu(hand);
      if hu {
        Commit(drew.(seats := t.seats[next := s.(hand := hand)], winner := Some(next)));
      } else if next != 0 {
        var sorted := s.(hand := SortHand(hand));
        if Kongs(sorted, drawn) {
          Commit(drew.(seats := t.seats[next := KongDrawn(sorted, drawn)], pending := NextTurnAfter(next)));
        } else {
          Commit(drew.(seats := t.seats[next := sorted]));
          ProcessAITurn(next);
        }
      } else {
        var canHu := hu;  // `checkHu` of the same hand, just found false
        var canAnKong := multiset(hand)[drawn] == 4;
        var canBuKong := FindSet(s.revealed, drawn) >= 0;
        var drew0 := drew.(seats := t.seats[0 := s.(hand := hand)]);
        if canHu || canAnKong || canBuKong {
          Commit(drew0.(actions := Actions(false, canHu, canAnKong || canBuKong)));
        } else {
          Commit(drew0);
        }
      }
    }

    /** `processAITurn(idx)`: the seat thinks and its discard is scheduled. */
    method ProcessAITurn(idx: int)
      requires Valid() && 0 <= idx < 4
      modifies this
      ensures Valid()
      ensures State() == old(State()).(thinking := true, pending := AIDiscard(idx))
    {
      thinking := true;
      pending := AIDiscard(idx);
    }

    /** The scheduled AI discard fires; `r` stands for `Math.random()`. */
    method AIDiscardFires(idx: int, r: real)
      requires Valid() && 0 <= idx < 4 && 0.0 <= r < 1.0
      modifies this
      ensures Valid()
      ensures State() == AfterAIDiscard(old(State()), idx, r)
    {
      if winner.Some? {
        return;
      }
      var hand := seats[idx].hand;
      var k := RandomIndex(r, |hand|);
      thinking := false;
      if k < |hand| {
        HandleDiscard(idx, hand[k]);
      }
    }

    /** `handleDiscard(p, tile)`. */
    method HandleDiscard(p: int, tile: Tile)
      requires Valid() && 0 <= p < 4
      modifies this
      ensures Valid()
      ensures State() == AfterDiscard(old(State()), p, tile)
    {
      var t := State();
      if t.winner.Some? {
        return;
      }
      var s := t.seats[p];
      var k := IndexOf(s.hand, tile);
      if k == -1 {
        return;
      }
      RemoveFirstIsSplice(s.hand, tile);
      var rest := s.hand[..k] + s.hand[k + 1..];
      assert rest == RemoveFirst(s.hand, tile);
      var done := t.(seats := t.seats[p := Seat(SortHand(rest), s.revealed, s.discards + [tile])],
                     lastDiscard := Some(Discarded(tile, p)), newlyDrawn := None);
      assert done.seats[p] == Thrown(s, tile);
      if p != 0 {
        var h0 := t.seats[0].hand;
        var canUserHu := CheckHu(h0 + [tile]);
        var canUserPong := multiset(h0)[tile] >= 2;
        var canUserKong := multiset(h0)[tile] == 3;
        assert ClaimsOn(h0, tile) == Actions(canUserPong, canUserHu, canUserKong);
        if canUserHu || canUserPong || canUserKong {
          Commit(done.(actions := Actions(canUserPong, canUserHu, canUserKong)));
        } else {
          Commit(done.(pending := NextTurnAfter(p)));
        }
      } else {
        Commit(done.(pending := NextTurnAfter(p)));
      }
    }

    /** `performAction(a)`. */
    method PerformAction(a: Action)
      requires Valid()
      modifies this
      ensures Valid()
      ensures State() == AfterAction(old(State()), a)
    {
      var t := State();
      if t.winner.Some? {
        return;
      }
      if a == Hu {
        winner := Some(0);
        return;
      }
      if a == Pass {
        actions := NoActions;
        if t.turn != 0 || (t.lastDiscard.Some? && t.lastDiscard.value.seat != t.turn) {
          StartNextTurn(if t.lastDiscard.Some? then t.lastDiscard.value.seat else t.turn);
        }
        return;
      }
      var target := Target(t.lastDiscard, t.newlyDrawn);
      if target.None? {
        return;
      }
      var x := target.value;
      if a == Kong {
        if t.lastDiscard.Some? {
          var d := t.lastDiscard.value.seat;
          var popped := t.seats[d := t.seats[d].(discards := DropLast(t.seats[d].discards))];
          Commit(Claimed(t, popped[0 := KongAll(popped[0], x)]).(pending := NextTurnAfter(0)));
        } else {
          var s0 := t.seats[0];
          var s1;
          if multiset(s0.hand)[x] == 4 {
            s1 := KongAll(s0, x);
          } else {
            var k := FindSet(s0.revealed, x);
            if k == -1 {
              return;
            }
            s1 := Seat(RemoveAll(s0.hand, x), s0.revealed[k := s0.revealed[k] + [x]], s0.discards);
          }
          Commit(Claimed(t, t.seats[0 := s1]).(pending := NextTurnAfter(0)));
        }
      } else {
        if t.lastDiscard.None? {
          return;
        }
        var d := t.lastDiscard.value.seat;
        var popped := t.seats[d := t.seats[d].(discards := DropLast(t.seats[d].discards))];
        Commit(Claimed(t, popped[0 := PongOf(popped[0], x)]).(newlyDrawn := None));
      }
    }

    /** The pending timer fires: the scheduled `startNextTurn` or AI discard
        runs. */
    method Tick(r: real)
      requires Valid() && 0.0 <= r < 1.0
      modifies this
      ensures Valid()
      ensures State() == Fired(old(State()), r)
    {
      var due := pending;
      pending := Idle;
      match due
      case Idle =>
      case NextTurnAfter(p) => StartNextTurn(p);
      case AIDiscard(i) => AIDiscardFires(i, r);
    }

    /** A click on one of seat 0's tiles discards it on seat 0's turn. */
    method ClickTile(tile: Tile)
      requires Valid()
      modifies this
      ensures Valid()
      ensures State() == if old(turn) == 0 && old(winner).None? then AfterDiscard(old(State()), 0, tile)
                         else old(State())
    {
      if turn == 0 && winner.None? {
        HandleDiscard(0, tile);
      }
    }

    /** A press on a claim button, which only reacts while it is shown. */
    method Press(a: Action)
      requires Valid()
      modifies this
      ensures Valid()
      ensures State() == if Offered(old(actions), old(winner), a) then AfterAction(old(State()), a) else old(State())
    {
      if Offered(actions, winner, a) {
        PerformAction(a);
      }
    }
  }
}
