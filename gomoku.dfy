/** The five-in-a-row game of components/GomokuGame.tsx on its 13 x 13
    board: line detection (`checkWin`), the one-ply evaluator
    (`evaluateMove` with `checkDir` and `getScore`), the local move search
    (`findBestMoveLocally`), the rule that accepts an advised move, placing
    a stone (`handleMove`) and starting over (`reset`). */
module Gomoku {
  import opened Wrappers
  import opened Decimal

  /** `SIZE`. */
  const Size := 13
  /** `Math.floor(SIZE / 2)`, the centre row and column. */
  const Centre := 6

  /** `Player` of types.ts; `Nobody` is its `'NONE'`, the empty cell and the absent winner. */
  datatype Player = Black | White | Red | Nobody

  /** A cell `{r, c}`. */
  datatype Pos = Pos(r: int, c: int)

  type Board = seq<seq<Player>>

  predicate IsBoard(b: Board) {
    |b| == Size && forall i :: 0 <= i < |b| ==> |b[i]| == Size
  }

  predicate InBounds(r: int, c: int) {
    0 <= r < Size && 0 <= c < Size
  }

  predicate IsEmptyCell(b: Board, e: Pos)
    requires IsBoard(b)
  {
    InBounds(e.r, e.c) && b[e.r][e.c] == Nobody
  }

  /** The side that is not `p` among the two stone colours: `opponent` in
      `evaluateMove`, and the turn change of `handleMove`. */
  function Opponent(p: Player): Player {
    if p == Black then White else Black
  }

  /** A unit step along a row, a column or a diagonal. */
  predicate IsStep(dr: int, dc: int) {
    -1 <= dr <= 1 && -1 <= dc <= 1 && (dr != 0 || dc != 0)
  }

  /** The four directions, in the order both `checkWin` and `evaluateMove` try them. */
  const Directions: seq<(int, int)> := [(1, 0), (0, 1), (1, 1), (1, -1)]

  lemma DirectionsAreSteps()
    ensures forall k :: 0 <= k < |Directions| ==> IsStep(Directions[k].0, Directions[k].1)
  {
  }

  /** How many steps from `(r, c)` leave the board in direction `(dr, dc)`. */
  function ToEdge(r: int, c: int, dr: int, dc: int): nat {
    if dr > 0 then (if r < Size then Size - r else 0)
    else if dr < 0 then (if r >= 0 then r + 1 else 0)
    else if dc > 0 then (if c < Size then Size - c else 0)
    else if c >= 0 then c + 1 else 0
  }

  /** The cells holding `p` from `(r, c)` on, one step of `(dr, dc)` at a
      time, up to the first cell that is off the board or holds something else. */
  function Run(b: Board, r: int, c: int, dr: int, dc: int, p: Player): seq<Pos>
    requires IsBoard(b) && IsStep(dr, dc)
    decreases ToEdge(r, c, dr, dc)
  {
    if InBounds(r, c) && b[r][c] == p then [Pos(r, c)] + Run(b, r + dr, c + dc, dr, dc, p) else []
  }

  /** The cell that stops `Run`. */
  function RunEnd(b: Board, r: int, c: int, dr: int, dc: int, p: Player): Pos
    requires IsBoard(b) && IsStep(dr, dc)
    decreases ToEdge(r, c, dr, dc)
  {
    if InBounds(r, c) && b[r][c] == p then RunEnd(b, r + dr, c + dc, dr, dc, p) else Pos(r, c)
  }

  /** One step along a run, as `Walk` takes it. */
  lemma RunStep(b: Board, r: int, c: int, dr: int, dc: int, p: Player, cells: seq<Pos>)
    requires IsBoard(b) && IsStep(dr, dc) && InBounds(r, c) && b[r][c] == p
    ensures (cells + [Pos(r, c)]) + Run(b, r + dr, c + dc, dr, dc, p) == cells + Run(b, r, c, dr, dc, p)
    ensures RunEnd(b, r, c, dr, dc, p) == RunEnd(b, r + dr, c + dc, dr, dc, p)
    ensures ToEdge(r + dr, c + dc, dr, dc) < ToEdge(r, c, dr, dc)
  {
    assert Run(b, r, c, dr, dc, p) == [Pos(r, c)] + Run(b, r + dr, c + dc, dr, dc, p);
  }

  /** Where a run stops. */
  lemma RunStop(b: Board, r: int, c: int, dr: int, dc: int, p: Player)
    requires IsBoard(b) && IsStep(dr, dc) && !(InBounds(r, c) && b[r][c] == p)
    ensures Run(b, r, c, dr, dc, p) == [] && Run(b, r, c, -dr, -dc, p) == []
    ensures RunEnd(b, r, c, dr, dc, p) == Pos(r, c) && RunEnd(b, r, c, -dr, -dc, p) == Pos(r, c)
  {
  }

  /** `e` lies on the line through `(r, c)` with direction `(dr, dc)`, and is not `(r, c)`. */
  predicate Collinear(e: Pos, r: int, c: int, dr: int, dc: int) {
    e != Pos(r, c) && (e.r - r) * dc == (e.c - c) * dr
  }

  /** `i` steps of the unit step `d`, that is `i * d`, written without a product. */
  function Offset(d: int, i: int): int {
    if d > 0 then i else if d < 0 then -i else 0
  }

  /** `e` is a `p` stone on the board, on the line through `(r, c)` with direction `(dr, dc)`. */
  predicate StoneInLine(b: Board, e: Pos, r: int, c: int, dr: int, dc: int, p: Player)
    requires IsBoard(b)
  {
    InBounds(e.r, e.c) && b[e.r][e.c] == p && Collinear(e, r, c, dr, dc)
  }

  /** Every cell of a run holds `p`. */
  lemma {:induction false} RunStones(b: Board, r: int, c: int, dr: int, dc: int, p: Player)
    requires IsBoard(b) && IsStep(dr, dc)
    ensures forall i :: 0 <= i < |Run(b, r, c, dr, dc, p)| ==>
      var e := Run(b, r, c, dr, dc, p)[i]; InBounds(e.r, e.c) && b[e.r][e.c] == p
    decreases ToEdge(r, c, dr, dc)
  {
    if InBounds(r, c) && b[r][c] == p {
      RunStones(b, r + dr, c + dc, dr, dc, p);
      var run := Run(b, r, c, dr, dc, p);
      var rest := Run(b, r + dr, c + dc, dr, dc, p);
      assert run == [Pos(r, c)] + rest;
      assert forall i :: 1 <= i < |run| ==> run[i] == rest[i - 1];
    }
  }

  /** The run is the straight segment starting at `(r, c)`. */
  lemma {:induction false} RunShape(b: Board, r: int, c: int, dr: int, dc: int, p: Player)
    requires IsBoard(b) && IsStep(dr, dc)
    ensures forall i :: 0 <= i < |Run(b, r, c, dr, dc, p)| ==>
      Run(b, r, c, dr, dc, p)[i] == Pos(r + Offset(dr, i), c + Offset(dc, i))
    decreases ToEdge(r, c, dr, dc)
  {
    if InBounds(r, c) && b[r][c] == p {
      RunShape(b, r + dr, c + dc, dr, dc, p);
      var run := Run(b, r, c, dr, dc, p);
      var rest := Run(b, r + dr, c + dc, dr, dc, p);
      assert run == [Pos(r, c)] + rest;
      forall i | 1 <= i < |run|
        ensures run[i] == Pos(r + Offset(dr, i), c + Offset(dc, i))
      {
        assert run[i] == rest[i - 1];
        assert dr + Offset(dr, i - 1) == Offset(dr, i);
        assert dc + Offset(dc, i - 1) == Offset(dc, i);
      }
    }
  }

  /** The run ends on the cell just past its last stone, which is off the
      board or does not hold `p`. */
  lemma {:induction false} RunEndShape(b: Board, r: int, c: int, dr: int, dc: int, p: Player)
    requires IsBoard(b) && IsStep(dr, dc)
    ensures var n := |Run(b, r, c, dr, dc, p)|;
      RunEnd(b, r, c, dr, dc, p) == Pos(r + Offset(dr, n), c + Offset(dc, n))
    ensures var e := RunEnd(b, r, c, dr, dc, p);
      !(InBounds(e.r, e.c) && b[e.r][e.c] == p)
    decreases ToEdge(r, c, dr, dc)
  {
    if InBounds(r, c) && b[r][c] == p {
      RunEndShape(b, r + dr, c + dc, dr, dc, p);
      var n := |Run(b, r + dr, c + dc, dr, dc, p)|;
      assert |Run(b, r, c, dr, dc, p)| == n + 1;
    }
  }

  /** Every stone of the run that starts next to `(r, c)` lies on the line
      through `(r, c)` with direction `(dr, dc)`. */
  lemma RunOnLine(b: Board, r: int, c: int, r0: int, c0: int, dr: int, dc: int, p: Player)
    requires IsBoard(b) && IsStep(dr, dc) && r0 == r + dr && c0 == c + dc
    ensures forall i :: 0 <= i < |Run(b, r0, c0, dr, dc, p)| ==>
      StoneInLine(b, Run(b, r0, c0, dr, dc, p)[i], r, c, dr, dc, p)
  {
    RunShape(b, r0, c0, dr, dc, p);
    RunStones(b, r0, c0, dr, dc, p);
    var run := Run(b, r0, c0, dr, dc, p);
    forall i | 0 <= i < |run|
      ensures StoneInLine(b, run[i], r, c, dr, dc, p)
    {
      assert run[i] == Pos(r + dr + Offset(dr, i), c + dc + Offset(dc, i));
      assert dr + Offset(dr, i) == Offset(dr, i + 1) && dc + Offset(dc, i) == Offset(dc, i + 1);
      CollinearStep(r, c, dr, dc, i + 1);
    }
  }

  /** Collinearity does not depend on the sign of the direction. */
  lemma CollinearReversed(e: Pos, r: int, c: int, dr: int, dc: int)
    ensures Collinear(e, r, c, -dr, -dc) == Collinear(e, r, c, dr, dc)
  {
    assert (e.r - r) * -dc == -((e.r - r) * dc);
    assert (e.c - c) * -dr == -((e.c - c) * dr);
  }

  lemma CollinearStep(r: int, c: int, dr: int, dc: int, m: int)
    requires IsStep(dr, dc) && m != 0
    ensures Collinear(Pos(r + Offset(dr, m), c + Offset(dc, m)), r, c, dr, dc)
  {
  }

  /** The line `checkWin` builds along `(dr, dc)`: the origin, the run
      forward, then the run backward. */
  function LineAlong(b: Board, r: int, c: int, p: Player, dr: int, dc: int): seq<Pos>
    requires IsBoard(b) && IsStep(dr, dc)
  {
    [Pos(r, c)] + Run(b, r + dr, c + dc, dr, dc, p) + Run(b, r - dr, c - dc, -dr, -dc, p)
  }

  /** The line for direction number `k`. */
  function Line(b: Board, r: int, c: int, p: Player, k: int): seq<Pos>
    requires IsBoard(b) && 0 <= k < |Directions|
  {
    DirectionsAreSteps();
    LineAlong(b, r, c, p, Directions[k].0, Directions[k].1)
  }

  /** The answer of `checkWin` once directions `0 .. k-1` have failed. */
  function WinningLineFrom(b: Board, r: int, c: int, p: Player, k: nat): Option<seq<Pos>>
    requires IsBoard(b) && k <= |Directions|
    decreases |Directions| - k
  {
    if k == |Directions| then None
    else if |Line(b, r, c, p, k)| >= 5 then Some(Line(b, r, c, p, k))
    else WinningLineFrom(b, r, c, p, k + 1)
  }

  /** The answer of `checkWin(r, c, p, b)`: `None` stands for `null`. */
  function WinningLine(b: Board, r: int, c: int, p: Player): Option<seq<Pos>>
    requires IsBoard(b)
  {
    WinningLineFrom(b, r, c, p, 0)
  }

  /** The line along `(dr, dc)` starts at the origin, and every other entry
      is a `p` stone on the board in line with the origin. */
  lemma LineAlongShape(b: Board, r: int, c: int, p: Player, dr: int, dc: int)
    requires IsBoard(b) && IsStep(dr, dc)
    ensures LineAlong(b, r, c, p, dr, dc)[0] == Pos(r, c)
    ensures forall i :: 1 <= i < |LineAlong(b, r, c, p, dr, dc)| ==>
      StoneInLine(b, LineAlong(b, r, c, p, dr, dc)[i], r, c, dr, dc, p)
  {
    var fwd := Run(b, r + dr, c + dc, dr, dc, p);
    var bwd := Run(b, r - dr, c - dc, -dr, -dc, p);
    RunOnLine(b, r, c, r + dr, c + dc, dr, dc, p);
    RunOnLine(b, r, c, r - dr, c - dc, -dr, -dc, p);
    var line := LineAlong(b, r, c, p, dr, dc);
    forall i | 1 <= i < |line|
      ensures StoneInLine(b, line[i], r, c, dr, dc, p)
    {
      if i <= |fwd| {
        assert line[i] == fwd[i - 1];
      } else {
        assert line[i] == bwd[i - 1 - |fwd|];
        CollinearReversed(line[i], r, c, dr, dc);
      }
    }
  }

  /** The line for direction `k` starts at the origin, and every other entry
      is a `p` stone on the board in line with the origin. */
  lemma LineShape(b: Board, r: int, c: int, p: Player, k: int)
    requires IsBoard(b) && 0 <= k < |Directions|
    ensures Line(b, r, c, p, k)[0] == Pos(r, c)
    ensures forall i :: 1 <= i < |Line(b, r, c, p, k)| ==>
      StoneInLine(b, Line(b, r, c, p, k)[i], r, c, Directions[k].0, Directions[k].1, p)
  {
    DirectionsAreSteps();
    LineAlongShape(b, r, c, p, Directions[k].0, Directions[k].1);
  }

  /** `checkWin` answers with the line of the first direction that reaches
      five stones, and with `null` exactly when no direction does. */
  lemma {:induction false} WinningLineFromIsFirst(b: Board, r: int, c: int, p: Player, k: nat)
    requires IsBoard(b) && k <= |Directions|
    ensures WinningLineFrom(b, r, c, p, k).None? <==>
      forall j :: k <= j < |Directions| ==> |Line(b, r, c, p, j)| < 5
    ensures WinningLineFrom(b, r, c, p, k).Some? ==>
      exists j :: k <= j < |Directions| && WinningLineFrom(b, r, c, p, k).value == Line(b, r, c, p, j) &&
        |Line(b, r, c, p, j)| >= 5 && forall i :: k <= i < j ==> |Line(b, r, c, p, i)| < 5
    decreases |Directions| - k
  {
    if k < |Directions| {
      if |Line(b, r, c, p, k)| >= 5 {
        assert WinningLineFrom(b, r, c, p, k).value == Line(b, r, c, p, k);
      } else {
        WinningLineFromIsFirst(b, r, c, p, k + 1);
        assert WinningLineFrom(b, r, c, p, k) == WinningLineFrom(b, r, c, p, k + 1);
        if WinningLineFrom(b, r, c, p, k).Some? {
          var j :| k + 1 <= j < |Directions| && WinningLineFrom(b, r, c, p, k + 1).value == Line(b, r, c, p, j) &&
            |Line(b, r, c, p, j)| >= 5 && forall i :: k + 1 <= i < j ==> |Line(b, r, c, p, i)| < 5;
          assert forall i :: k <= i < j ==> |Line(b, r, c, p, i)| < 5;
        }
      }
    }
  }

  /** Everything `checkWin` promises about a line it returns. */
  lemma WinningLineShape(b: Board, r: int, c: int, p: Player)
    requires IsBoard(b)
    ensures WinningLine(b, r, c, p).None? <==> forall j :: 0 <= j < |Directions| ==> |Line(b, r, c, p, j)| < 5
    ensures WinningLine(b, r, c, p).Some? ==>
      var line := WinningLine(b, r, c, p).value;
      |line| >= 5 && line[0] == Pos(r, c) &&
      forall i :: 1 <= i < |line| ==> InBounds(line[i].r, line[i].c) && b[line[i].r][line[i].c] == p
  {
    WinningLineFromIsFirst(b, r, c, p, 0);
    if WinningLine(b, r, c, p).Some? {
      var j :| 0 <= j < |Directions| && WinningLine(b, r, c, p).value == Line(b, r, c, p, j) &&
        |Line(b, r, c, p, j)| >= 5 && forall i :: 0 <= i < j ==> |Line(b, r, c, p, i)| < 5;
      LineShape(b, r, c, p, j);
    }
  }

  /** The `while` loop of `checkWin` and `checkDir`: step from `(r, c)` in
      direction `(dr, dc)` while the cell is on the board and holds `p`,
      collecting the cells passed; `end` is the cell where it stops. */
  method Walk(b: Board, r: int, c: int, dr: int, dc: int, p: Player) returns (cells: seq<Pos>, end: Pos)
    requires IsBoard(b) && IsStep(dr, dc)
    ensures cells == Run(b, r, c, dr, dc, p) && end == RunEnd(b, r, c, dr, dc, p)
  {
    cells := [];
    var nr, nc := r, c;
    while InBounds(nr, nc) && b[nr][nc] == p
      invariant cells + Run(b, nr, nc, dr, dc, p) == Run(b, r, c, dr, dc, p)
      invariant RunEnd(b, nr, nc, dr, dc, p) == RunEnd(b, r, c, dr, dc, p)
      decreases ToEdge(nr, nc, dr, dc)
    {
      RunStep(b, nr, nc, dr, dc, p, cells);
      cells := cells + [Pos(nr, nc)];
      nr, nc := nr + dr, nc + dc;
    }
    RunStop(b, nr, nc, dr, dc, p);
    end := Pos(nr, nc);
  }

  /** The two walks along direction `k` make up its line. */
  lemma LineOfWalks(b: Board, r: int, c: int, p: Player, k: int, dr: int, dc: int,
                    forward: seq<Pos>, backward: seq<Pos>)
    requires IsBoard(b) && 0 <= k < |Directions| && Directions[k] == (dr, dc) && IsStep(dr, dc)
    requires forward == Run(b, r + dr, c + dc, dr, dc, p) && backward == Run(b, r - dr, c - dc, -dr, -dc, p)
    ensures [Pos(r, c)] + forward + backward == Line(b, r, c, p, k)
  {
  }

  /** The body of the loop of `checkWin` for direction `k`: the origin, the
      run forward and the run backward. */
  method LineThrough(b: Board, r: int, c: int, p: Player, k: int) returns (cells: seq<Pos>)
    requires IsBoard(b) && 0 <= k < |Directions|
    ensures cells == Line(b, r, c, p, k)
  {
    DirectionsAreSteps();
    var dr, dc := Directions[k].0, Directions[k].1;
    var forward, _ := Walk(b, r + dr, c + dc, dr, dc, p);
    var backward, _ := Walk(b, r - dr, c - dc, -dr, -dc, p);
    cells := [Pos(r, c)] + forward + backward;
    LineOfWalks(b, r, c, p, k, dr, dc, forward, backward);
  }

  /** `checkWin`. */
  method CheckWin(r: int, c: int, p: Player, b: Board) returns (line: Option<seq<Pos>>)
    requires IsBoard(b)
    ensures line == WinningLine(b, r, c, p)
  {
    var k := 0;
    while k < |Directions|
      invariant 0 <= k <= |Directions|
      invariant WinningLineFrom(b, r, c, p, k) == WinningLine(b, r, c, p)
    {
      var cells := LineThrough(b, r, c, p, k);
      if |cells| >= 5 {
        return Some(cells);
      }
      k := k + 1;
    }
    return None;
  }

  /** `count` of `checkDir`: the cell itself and the `p` stones adjoining it on both sides. */
  function DirCount(b: Board, r: int, c: int, dr: int, dc: int, p: Player): nat
    requires IsBoard(b) && IsStep(dr, dc)
  {
    1 + |Run(b, r + dr, c + dc, dr, dc, p)| + |Run(b, r - dr, c - dc, -dr, -dc, p)|
  }

  /** One open end: the cell that stops a run is on the board and empty. */
  function OpenAt(b: Board, e: Pos): nat
    requires IsBoard(b)
  {
    if IsEmptyCell(b, e) then 1 else 0
  }

  /** `openEnds` of `checkDir`. */
  function OpenEnds(b: Board, r: int, c: int, dr: int, dc: int, p: Player): nat
    requires IsBoard(b) && IsStep(dr, dc)
  {
    OpenAt(b, RunEnd(b, r + dr, c + dc, dr, dc, p)) + OpenAt(b, RunEnd(b, r - dr, c - dc, -dr, -dc, p))
  }

  /** `checkDir(dr, dc, p)` inside `evaluateMove(r, c, ..., b)`. */
  method CheckDir(b: Board, r: int, c: int, dr: int, dc: int, p: Player) returns (count: int, openEnds: int)
    requires IsBoard(b) && IsStep(dr, dc)
    ensures count == DirCount(b, r, c, dr, dc, p) && count >= 1
    ensures openEnds == OpenEnds(b, r, c, dr, dc, p) && 0 <= openEnds <= 2
  {
    assert IsStep(-dr, -dc);
    var forward, forwardEnd := Walk(b, r + dr, c + dc, dr, dc, p);
    var backward, backwardEnd := Walk(b, r - dr, c - dc, -dr, -dc, p);
    count := 1 + |forward| + |backward|;
    openEnds := OpenAt(b, forwardEnd) + OpenAt(b, backwardEnd);
    DirOfWalks(b, r, c, dr, dc, p, forward, forwardEnd, backward, backwardEnd);
  }

  /** What the two walks of `CheckDir` add up to. */
  lemma DirOfWalks(b: Board, r: int, c: int, dr: int, dc: int, p: Player,
                   forward: seq<Pos>, forwardEnd: Pos, backward: seq<Pos>, backwardEnd: Pos)
    requires IsBoard(b) && IsStep(dr, dc) && IsStep(-dr, -dc)
    requires forward == Run(b, r + dr, c + dc, dr, dc, p) && forwardEnd == RunEnd(b, r + dr, c + dc, dr, dc, p)
    requires backward == Run(b, r - dr, c - dc, -dr, -dc, p) && backwardEnd == RunEnd(b, r - dr, c - dc, -dr, -dc, p)
    ensures 1 + |forward| + |backward| == DirCount(b, r, c, dr, dc, p)
    ensures OpenAt(b, forwardEnd) + OpenAt(b, backwardEnd) == OpenEnds(b, r, c, dr, dc, p)
  {
  }

  /** `getScore`: five or more wins outright; then the fixed tiers for the
      player's own patterns and for the opponent's, which it must block;
      anything else is worth ten per stone. */
  function Score(count: int, openEnds: int, isSelf: bool): (s: int)
    ensures count >= 1 ==> s >= 10
  {
    if count >= 5 then 100000
    else if isSelf && count == 4 && openEnds >= 1 then 10000
    else if isSelf && count == 3 && openEnds == 2 then 1000
    else if isSelf && count == 3 && openEnds == 1 then 500
    else if isSelf && count == 2 && openEnds == 2 then 100
    else if !isSelf && count == 4 && openEnds >= 1 then 9000
    else if !isSelf && count == 3 && openEnds == 2 then 8000
    else if !isSelf && count == 3 && openEnds == 1 then 400
    else if !isSelf && count == 2 && openEnds == 2 then 50
    else count * 10
  }

  /** Only a five, or a four with an open end, of either side, or the
      opponent's open three reaches the urgency level 8000. */
  lemma ScoreUrgent(count: int, openEnds: int, isSelf: bool)
    ensures Score(count, openEnds, isSelf) >= 8000 <==>
      count >= 5 || (count == 4 && openEnds >= 1) || (!isSelf && count == 3 && openEnds == 2)
  {
  }

  /** What one direction adds to `evaluateMove`'s total. */
  function DirScore(b: Board, r: int, c: int, player: Player, k: int): int
    requires IsBoard(b) && 0 <= k < |Directions|
  {
    DirectionsAreSteps();
    var (dr, dc) := Directions[k];
    Score(DirCount(b, r, c, dr, dc, player), OpenEnds(b, r, c, dr, dc, player), true) +
    Score(DirCount(b, r, c, dr, dc, Opponent(player)), OpenEnds(b, r, c, dr, dc, Opponent(player)), false)
  }

  /** The total over the first `k` directions; each direction adds at least
      20 and no direction's share exceeds the total. */
  function EvalUpTo(b: Board, r: int, c: int, player: Player, k: nat): (s: int)
    requires IsBoard(b) && k <= |Directions|
    ensures s >= 20 * k
    ensures forall j :: 0 <= j < k ==> s >= DirScore(b, r, c, player, j) + 20 * (k - 1)
  {
    if k == 0 then 0 else EvalUpTo(b, r, c, player, k - 1) + DirScore(b, r, c, player, k - 1)
  }

  /** `evaluateMove(r, c, player, b)`, never below 80. */
  function Evaluation(b: Board, r: int, c: int, player: Player): (s: int)
    requires IsBoard(b)
    ensures s >= 80
  {
    EvalUpTo(b, r, c, player, |Directions|)
  }

  // ---------------------------------------------------------------------
  // The evaluation does not depend on which colour is which

  /** Black for white and white for black; the other values stay. */
  function Swap(p: Player): (q: Player)
    ensures (q == White <==> p == Black) && (q == Black <==> p == White)
    ensures (q == Red <==> p == Red) && (q == Nobody <==> p == Nobody)
  {
    match p
    case Black => White
    case White => Black
    case _ => p
  }

  /** The board with the colours of all stones exchanged. */
  function Swapped(b: Board): (s: Board)
    requires IsBoard(b)
    ensures IsBoard(s)
    ensures forall i, j :: 0 <= i < Size && 0 <= j < Size ==> s[i][j] == Swap(b[i][j])
  {
    seq(Size, i requires 0 <= i < Size => seq(Size, j requires 0 <= j < Size => Swap(b[i][j])))
  }

  /** A run of `p` on the board is the run of the swapped colour on the
      swapped board, and it stops on the same cell. */
  lemma {:induction false} RunSwapped(b: Board, r: int, c: int, dr: int, dc: int, p: Player)
    requires IsBoard(b) && IsStep(dr, dc)
    ensures Run(Swapped(b), r, c, dr, dc, Swap(p)) == Run(b, r, c, dr, dc, p)
    ensures RunEnd(Swapped(b), r, c, dr, dc, Swap(p)) == RunEnd(b, r, c, dr, dc, p)
    decreases ToEdge(r, c, dr, dc)
  {
    if InBounds(r, c) && b[r][c] == p {
      RunSwapped(b, r + dr, c + dc, dr, dc, p);
    } else if InBounds(r, c) {
      assert Swap(Swap(b[r][c])) == b[r][c];
    }
  }

  /** An end is open on the swapped board exactly when it is open on the board. */
  lemma OpenAtSwapped(b: Board, e: Pos)
    requires IsBoard(b)
    ensures OpenAt(Swapped(b), e) == OpenAt(b, e)
  {
    if InBounds(e.r, e.c) {
      assert Swapped(b)[e.r][e.c] == Swap(b[e.r][e.c]);
    }
  }

  /** `checkDir` sees the same count for `p` on the board as for the
      swapped colour on the swapped board. */
  lemma CountSwapped(b: Board, r: int, c: int, dr: int, dc: int, p: Player)
    requires IsBoard(b) && IsStep(dr, dc)
    ensures DirCount(Swapped(b), r, c, dr, dc, Swap(p)) == DirCount(b, r, c, dr, dc, p)
  {
    assert IsStep(-dr, -dc);
    EndSwapped(b, r + dr, c + dc, dr, dc, p);
    EndSwapped(b, r - dr, c - dc, -dr, -dc, p);
  }

  /** The same for the open ends. */
  lemma OpenEndsSwapped(b: Board, r: int, c: int, dr: int, dc: int, p: Player)
    requires IsBoard(b) && IsStep(dr, dc)
    ensures OpenEnds(Swapped(b), r, c, dr, dc, Swap(p)) == OpenEnds(b, r, c, dr, dc, p)
  {
    assert IsStep(-dr, -dc);
    EndSwapped(b, r + dr, c + dc, dr, dc, p);
    EndSwapped(b, r - dr, c - dc, -dr, -dc, p);
  }

  /** One side of `checkDir`: the same run length and the same open end. */
  lemma EndSwapped(b: Board, r: int, c: int, dr: int, dc: int, p: Player)
    requires IsBoard(b) && IsStep(dr, dc)
    ensures |Run(Swapped(b), r, c, dr, dc, Swap(p))| == |Run(b, r, c, dr, dc, p)|
    ensures OpenAt(Swapped(b), RunEnd(Swapped(b), r, c, dr, dc, Swap(p))) == OpenAt(b, RunEnd(b, r, c, dr, dc, p))
  {
    RunSwapped(b, r, c, dr, dc, p);
    OpenAtSwapped(b, RunEnd(b, r, c, dr, dc, p));
  }

  lemma DirScoreSwapped(b: Board, r: int, c: int, p: Player, k: int)
    requires IsBoard(b) && (p == Black || p == White) && 0 <= k < |Directions|
    ensures DirScore(Swapped(b), r, c, Opponent(p), k) == DirScore(b, r, c, p, k)
  {
    DirectionsAreSteps();
    var (dr, dc) := Directions[k];
    CountSwapped(b, r, c, dr, dc, p);
    CountSwapped(b, r, c, dr, dc, Opponent(p));
    OpenEndsSwapped(b, r, c, dr, dc, p);
    OpenEndsSwapped(b, r, c, dr, dc, Opponent(p));
  }

  lemma {:induction false} EvalUpToSwapped(b: Board, r: int, c: int, p: Player, k: nat)
    requires IsBoard(b) && (p == Black || p == White) && k <= |Directions|
    ensures EvalUpTo(Swapped(b), r, c, Opponent(p), k) == EvalUpTo(b, r, c, p, k)
  {
    if k > 0 {
      EvalUpToSwapped(b, r, c, p, k - 1);
      DirScoreSwapped(b, r, c, p, k - 1);
    }
  }

  /** `evaluateMove` treats the two sides alike: exchanging every stone's
      colour and the side to move leaves the score unchanged. */
  lemma EvaluationSymmetric(b: Board, r: int, c: int, p: Player)
    requires IsBoard(b) && (p == Black || p == White)
    ensures Evaluation(Swapped(b), r, c, Opponent(p)) == Evaluation(b, r, c, p)
  {
    EvalUpToSwapped(b, r, c, p, |Directions|);
  }

  /** A cell where some side has a five, or a four with an open end, or the
      opponent has an open three, is evaluated at 8000 or more. */
  lemma UrgentEvaluation(b: Board, r: int, c: int, player: Player, k: int, self: bool)
    requires IsBoard(b) && 0 <= k < |Directions|
    requires var (dr, dc) := Directions[k];
      var p := if self then player else Opponent(player);
      var n := DirCount(b, r, c, dr, dc, p);
      n >= 5 || (n == 4 && OpenEnds(b, r, c, dr, dc, p) >= 1) || (!self && n == 3 && OpenEnds(b, r, c, dr, dc, p) == 2)
    ensures Evaluation(b, r, c, player) >= 8000
  {
    var (dr, dc) := Directions[k];
    var p := if self then player else Opponent(player);
    ScoreUrgent(DirCount(b, r, c, dr, dc, p), OpenEnds(b, r, c, dr, dc, p), self);
    assert DirScore(b, r, c, player, k) >= 8000;
  }

  /** One round of the loop of `evaluateMove`: the two `checkDir` results
      along direction `k`, scored, extend the total to `k + 1` directions. */
  lemma EvalStep(b: Board, r: int, c: int, player: Player, k: int, dr: int, dc: int,
                 selfCount: int, selfOpen: int, oppCount: int, oppOpen: int)
    requires IsBoard(b) && 0 <= k < |Directions| && Directions[k] == (dr, dc) && IsStep(dr, dc)
    requires selfCount == DirCount(b, r, c, dr, dc, player) && selfOpen == OpenEnds(b, r, c, dr, dc, player)
    requires oppCount == DirCount(b, r, c, dr, dc, Opponent(player)) && oppOpen == OpenEnds(b, r, c, dr, dc, Opponent(player))
    ensures EvalUpTo(b, r, c, player, k + 1) ==
      EvalUpTo(b, r, c, player, k) + Score(selfCount, selfOpen, true) + Score(oppCount, oppOpen, false)
  {
  }

  /** `evaluateMove`. */
  method EvaluateMove(r: int, c: int, player: Player, b: Board) returns (total: int)
    requires IsBoard(b)
    ensures total == Evaluation(b, r, c, player) && total >= 80
  {
    var opponent := Opponent(player);
    DirectionsAreSteps();
    total := 0;
    var k := 0;
    while k < |Directions|
      invariant 0 <= k <= |Directions|
      invariant total == EvalUpTo(b, r, c, player, k)
    {
      var dr, dc := Directions[k].0, Directions[k].1;
      var selfCount, selfOpen := CheckDir(b, r, c, dr, dc, player);
      var oppCount, oppOpen := CheckDir(b, r, c, dr, dc, opponent);
      EvalStep(b, r, c, player, k, dr, dc, selfCount, selfOpen, oppCount, oppOpen);
      total := total + Score(selfCount, selfOpen, true);
      total := total + Score(oppCount, oppOpen, false);
      k := k + 1;
    }
  }

  /** Row-major position of a cell. */
  function Index(e: Pos): int {
    e.r * Size + e.c
  }

  /** The cell at row-major position `n`. */
  function Cell(n: int): (e: Pos)
    requires 0 <= n < Size * Size
    ensures InBounds(e.r, e.c) && Index(e) == n
  {
    Pos(n / Size, n % Size)
  }

  lemma CellOfIndex(e: Pos)
    requires InBounds(e.r, e.c)
    ensures 0 <= Index(e) < Size * Size && Cell(Index(e)) == e
  {
    var n := Index(e);
    assert n / Size == e.r && n % Size == e.c;
  }

  /** The empty cells among the first `n` in row-major order, in that order:
      the `empties` list of `findBestMoveLocally`. */
  function EmptyCellsBefore(b: Board, n: int): seq<Pos>
    requires IsBoard(b) && 0 <= n <= Size * Size
  {
    if n == 0 then []
    else EmptyCellsBefore(b, n - 1) + (if IsEmptyCell(b, Cell(n - 1)) then [Cell(n - 1)] else [])
  }

  /** The list holds only empty cells before `n`, in strictly increasing row-major order. */
  lemma {:induction false} EmptyCellsSound(b: Board, n: int)
    requires IsBoard(b) && 0 <= n <= Size * Size
    ensures forall i :: 0 <= i < |EmptyCellsBefore(b, n)| ==>
      IsEmptyCell(b, EmptyCellsBefore(b, n)[i]) && Index(EmptyCellsBefore(b, n)[i]) < n
    ensures forall i, j :: 0 <= i < j < |EmptyCellsBefore(b, n)| ==>
      Index(EmptyCellsBefore(b, n)[i]) < Index(EmptyCellsBefore(b, n)[j])
  {
    if n > 0 {
      EmptyCellsSound(b, n - 1);
      var prev := EmptyCellsBefore(b, n - 1);
      var es := EmptyCellsBefore(b, n);
      if IsEmptyCell(b, Cell(n - 1)) {
        assert es == prev + [Cell(n - 1)];
        forall i, j | 0 <= i < j < |es|
          ensures Index(es[i]) < Index(es[j])
        {
          assert es[i] == prev[i];
          if j < |prev| {
            assert es[j] == prev[j];
          }
        }
      } else {
        assert es == prev;
      }
    }
  }

  /** Every empty cell before `n` is in the list. */
  lemma {:induction false} EmptyCellListed(b: Board, n: int, e: Pos) returns (j: int)
    requires IsBoard(b) && 0 <= n <= Size * Size
    requires IsEmptyCell(b, e) && Index(e) < n
    ensures 0 <= j < |EmptyCellsBefore(b, n)| && EmptyCellsBefore(b, n)[j] == e
  {
    var prev := EmptyCellsBefore(b, n - 1);
    var tail := if IsEmptyCell(b, Cell(n - 1)) then [Cell(n - 1)] else [];
    assert EmptyCellsBefore(b, n) == prev + tail;
    if Index(e) == n - 1 {
      CellOfIndex(e);
      j := |prev|;
    } else {
      j := EmptyCellListed(b, n - 1, e);
    }
  }

  /** One cell of the `forEach` of `findBestMoveLocally`. */
  lemma EmptyCellsNext(b: Board, r: int, c: int)
    requires IsBoard(b) && InBounds(r, c)
    ensures EmptyCellsBefore(b, r * Size + c + 1) ==
      EmptyCellsBefore(b, r * Size + c) + (if b[r][c] == Nobody then [Pos(r, c)] else [])
  {
    CellOfIndex(Pos(r, c));
  }

  /** The list is as long as the prefix exactly when every cell of the prefix is empty. */
  lemma {:induction false} EmptyCellsCount(b: Board, n: int)
    requires IsBoard(b) && 0 <= n <= Size * Size
    ensures |EmptyCellsBefore(b, n)| <= n
    ensures |EmptyCellsBefore(b, n)| == n <==> forall m :: 0 <= m < n ==> IsEmptyCell(b, Cell(m))
  {
    if n > 0 {
      EmptyCellsCount(b, n - 1);
    }
  }

  /** Every cell of the board is empty. */
  ghost predicate AllEmpty(b: Board)
    requires IsBoard(b)
  {
    forall r, c :: InBounds(r, c) ==> b[r][c] == Nobody
  }

  /** No cell of the board is empty. */
  ghost predicate Full(b: Board)
    requires IsBoard(b)
  {
    forall r, c :: InBounds(r, c) ==> b[r][c] != Nobody
  }

  /** Manhattan distance to the centre cell (6, 6). */
  function Dist(e: Pos): int {
    (if e.r >= Centre then e.r - Centre else Centre - e.r) + (if e.c >= Centre then e.c - Centre else Centre - e.c)
  }

  /** `best` is an empty cell of maximal evaluation for White, and among
      those the first in row-major order of least distance to the centre. */
  ghost predicate LocalBest(b: Board, best: Pos)
    requires IsBoard(b)
  {
    IsEmptyCell(b, best) &&
    forall e :: IsEmptyCell(b, e) ==>
      Evaluation(b, e.r, e.c, White) <= Evaluation(b, best.r, best.c, White) &&
      (Evaluation(b, e.r, e.c, White) == Evaluation(b, best.r, best.c, White) ==>
        Dist(best) <= Dist(e) && (Index(e) < Index(best) ==> Dist(best) < Dist(e)))
  }

  /** The argmax of `findBestMoveLocally` over the list of empty cells. */
  method BestOfEmpties(b: Board, empties: seq<Pos>) returns (best: Pos, ghost bi: int)
    requires IsBoard(b)
    ensures empties == [] ==> best == Pos(Centre, Centre)
    ensures empties != [] ==> 0 <= bi < |empties| && best == empties[bi]
    ensures empties != [] ==> forall j :: 0 <= j < |empties| ==>
      var ej := empties[j];
      Evaluation(b, ej.r, ej.c, White) <= Evaluation(b, best.r, best.c, White) &&
      (Evaluation(b, ej.r, ej.c, White) == Evaluation(b, best.r, best.c, White) ==>
        Dist(best) <= Dist(ej) && (j < bi ==> Dist(best) < Dist(ej)))
  {
    var bestScore := -1;
    best := Pos(Centre, Centre);
    bi := 0;
    var i := 0;
    while i < |empties|
      invariant 0 <= i <= |empties|
      invariant i == 0 ==> bestScore == -1 && best == Pos(Centre, Centre)
      invariant i > 0 ==> 0 <= bi < i && best == empties[bi] && bestScore == Evaluation(b, best.r, best.c, White)
      invariant forall j :: 0 <= j < i ==>
        var ej := empties[j];
        Evaluation(b, ej.r, ej.c, White) <= bestScore &&
        (Evaluation(b, ej.r, ej.c, White) == bestScore ==> Dist(best) <= Dist(ej) && (j < bi ==> Dist(best) < Dist(ej)))
    {
      var pos := empties[i];
      var score := EvaluateMove(pos.r, pos.c, White, b);
      if score > bestScore {
        bestScore, best, bi := score, pos, i;
      } else if score == bestScore {
        var distA := Dist(pos);
        var distB := Dist(best);
        if distA < distB {
          best, bi := pos, i;
        }
      }
      i := i + 1;
    }
  }

  /** The `forEach` of `findBestMoveLocally` that lists the empty cells row by row. */
  method CollectEmpties(b: Board) returns (empties: seq<Pos>)
    requires IsBoard(b)
    ensures empties == EmptyCellsBefore(b, Size * Size)
  {
    empties := [];
    var r := 0;
    while r < Size
      invariant 0 <= r <= Size
      invariant empties == EmptyCellsBefore(b, r * Size)
    {
      var c := 0;
      while c < Size
        invariant 0 <= c <= Size
        invariant empties == EmptyCellsBefore(b, r * Size + c)
      {
        EmptyCellsNext(b, r, c);
        if b[r][c] == Nobody {
          empties := empties + [Pos(r, c)];
        }
        c := c + 1;
      }
      r := r + 1;
    }
  }

  /** All 169 cells are listed exactly when the board is empty, and none
      exactly when it is full. */
  lemma EmptiesCount(b: Board)
    requires IsBoard(b)
    ensures |EmptyCellsBefore(b, Size * Size)| == Size * Size <==> AllEmpty(b)
    ensures EmptyCellsBefore(b, Size * Size) == [] <==> Full(b)
  {
    var es := EmptyCellsBefore(b, Size * Size);
    EmptyCellsSound(b, Size * Size);
    EmptyCellsCount(b, Size * Size);
    if |es| == Size * Size {
      forall r, c | InBounds(r, c)
        ensures b[r][c] == Nobody
      {
        CellOfIndex(Pos(r, c));
      }
    }
    if AllEmpty(b) {
      assert forall m :: 0 <= m < Size * Size ==> IsEmptyCell(b, Cell(m));
    }
    if es == [] {
      forall r, c | InBounds(r, c)
        ensures b[r][c] != Nobody
      {
        if b[r][c] == Nobody {
          var _ := EmptyCellListed(b, Size * Size, Pos(r, c));
        }
      }
    } else {
      assert IsEmptyCell(b, es[0]);
    }
  }

  /** The argmax over the listed empty cells is the argmax over the board's empty cells. */
  lemma BestOfAllEmpties(b: Board, best: Pos, bi: int)
    requires IsBoard(b)
    requires var empties := EmptyCellsBefore(b, Size * Size);
      0 <= bi < |empties| && best == empties[bi] &&
      forall j :: 0 <= j < |empties| ==>
        var ej := empties[j];
        Evaluation(b, ej.r, ej.c, White) <= Evaluation(b, best.r, best.c, White) &&
        (Evaluation(b, ej.r, ej.c, White) == Evaluation(b, best.r, best.c, White) ==>
          Dist(best) <= Dist(ej) && (j < bi ==> Dist(best) < Dist(ej)))
    ensures LocalBest(b, best)
  {
    var empties := EmptyCellsBefore(b, Size * Size);
    EmptyCellsSound(b, Size * Size);
    forall e | IsEmptyCell(b, e)
      ensures Evaluation(b, e.r, e.c, White) <= Evaluation(b, best.r, best.c, White)
      ensures Evaluation(b, e.r, e.c, White) == Evaluation(b, best.r, best.c, White) ==>
        Dist(best) <= Dist(e) && (Index(e) < Index(best) ==> Dist(best) < Dist(e))
    {
      var j := EmptyCellListed(b, Size * Size, e);
      if Index(e) < Index(best) && bi <= j {
        assert bi < j;
      }
    }
  }

  /** `findBestMoveLocally`: the centre on an empty board (and on a full
      one); otherwise an empty cell of maximal evaluation for White, and
      among those the first in row-major order of least distance to the centre. */
  method FindBestMoveLocally(b: Board) returns (best: Pos)
    requires IsBoard(b)
    ensures InBounds(best.r, best.c)
    ensures AllEmpty(b) || Full(b) ==> best == Pos(Centre, Centre)
    ensures !AllEmpty(b) && !Full(b) ==> LocalBest(b, best)
  {
    var empties := CollectEmpties(b);
    EmptiesCount(b);
    if |empties| == Size * Size {
      return Pos(Centre, Centre);
    }
    ghost var bi;
    best, bi := BestOfEmpties(b, empties);
    if empties != [] {
      BestOfAllEmpties(b, best, bi);
    }
  }

  /** The rule of `triggerAI` that weighs an advised move (a string such as
      "7,8") against the local best: the first two digit runs are read as
      row and column, and they are played only if the local best is not
      urgent (evaluated below 8000) and they name an empty cell of the
      board. A missing answer, a failed request, an answer with fewer than
      two numbers (`parseInt(undefined)` is `NaN`) or any failed test plays
      the local best. */
  function AdvisedMove(b: Board, localBest: Pos, advice: Option<string>): (m: Pos)
    requires IsBoard(b)
    ensures m != localBest ==>
      advice.Some? && Evaluation(b, localBest.r, localBest.c, White) < 8000 &&
      |DigitRuns(advice.value)| >= 2 &&
      m == Pos(ParseDecimal(DigitRuns(advice.value)[0]), ParseDecimal(DigitRuns(advice.value)[1])) &&
      IsEmptyCell(b, m)
    ensures Evaluation(b, localBest.r, localBest.c, White) >= 8000 ==> m == localBest
  {
    match advice
    case None => localBest
    case Some(move) =>
      var coords := DigitRuns(move);
      if |coords| >= 2 then
        var gr, gc := ParseDecimal(coords[0]), ParseDecimal(coords[1]);
        if Evaluation(b, localBest.r, localBest.c, White) < 8000 && gr < Size && gc < Size && b[gr][gc] == Nobody
        then Pos(gr, gc)
        else localBest
      else localBest
  }

  /** An advice in the requested format `"r,c"` naming an empty cell is
      played whenever the local best is not urgent. */
  lemma AdviceInFormatIsTaken(b: Board, localBest: Pos, r: nat, c: nat)
    requires IsBoard(b) && InBounds(r, c) && b[r][c] == Nobody
    requires Evaluation(b, localBest.r, localBest.c, White) < 8000
    ensures AdvisedMove(b, localBest, Some(NatToString(r) + [','] + NatToString(c))) == Pos(r, c)
  {
    DigitRunsOfPair(r, c, ',');
    ParseNatToString(r);
    ParseNatToString(c);
  }

  /** The number of `p` stones on the board. */
  function Stones(b: Board, p: Player): nat {
    if b == [] then 0 else Stones(b[..|b| - 1], p) + multiset(b[|b| - 1])[p]
  }

  /** The board after `newBoard[r][c] = t`. */
  function Placed(b: Board, r: int, c: int, t: Player): Board
    requires 0 <= r < |b| && 0 <= c < |b[r]|
  {
    b[r := b[r][c := t]]
  }

  /** Putting a `t` stone on an empty cell adds one `t` stone and leaves
      the count of every other kind of stone alone. */
  lemma {:induction false} StonesPlaced(b: Board, r: int, c: int, t: Player, q: Player)
    requires 0 <= r < |b| && 0 <= c < |b[r]| && b[r][c] == Nobody && t != Nobody && q != Nobody
    ensures Stones(Placed(b, r, c, t), q) == Stones(b, q) + (if q == t then 1 else 0)
    decreases |b|
  {
    var b' := Placed(b, r, c, t);
    var last := |b| - 1;
    if r == last {
      assert b'[..last] == b[..last];
      assert b[r] == b[r][..c] + [Nobody] + b[r][c + 1..];
      assert b'[r] == b[r][..c] + [t] + b[r][c + 1..];
    } else {
      assert b'[..last] == Placed(b[..last], r, c, t);
      assert b'[last] == b[last];
      StonesPlaced(b[..last], r, c, t, q);
    }
  }

  lemma {:induction false} StonesEmpty(b: Board, q: Player)
    requires forall i, j :: 0 <= i < |b| && 0 <= j < |b[i]| ==> b[i][j] == Nobody
    requires q != Nobody
    ensures Stones(b, q) == 0
    decreases |b|
  {
    if b != [] {
      var last := |b| - 1;
      StonesEmpty(b[..last], q);
      assert q !in b[last];
    }
  }

  /** The empty board `reset` installs. */
  function EmptyBoard(): (b: Board)
    ensures IsBoard(b) && AllEmpty(b)
  {
    seq(Size, _ => seq(Size, _ => Nobody))
  }

  /** At least five cells of the board, all holding `p`. */
  ghost predicate LineOfStones(b: Board, line: seq<Pos>, p: Player)
    requires IsBoard(b)
  {
    |line| >= 5 && forall i :: 0 <= i < |line| ==> InBounds(line[i].r, line[i].c) && b[line[i].r][line[i].c] == p
  }

  /** The component's state. `aiBoard` and `aiBest` are what a pending AI
      turn captured when it started: the board it looked at and the local
      best it found there. */
  class GomokuGame {
    const aiMode: bool
    var board: Board
    var turn: Player
    var winner: Player
    var winLine: seq<Pos>
    var thinking: bool
    var lastMove: Option<Pos>
    var aiBoard: Board
    var aiBest: Pos

    /** Black moves first and the sides alternate: while nobody has won,
        Black has one stone more than White exactly when it is White's turn. */
    ghost predicate Alternates(b: Board, t: Player) {
      Stones(b, Black) == Stones(b, White) + (if t == White then 1 else 0)
    }

    ghost predicate Valid()
      reads this
    {
      IsBoard(board) && (turn == Black || turn == White) &&
      (winner == Nobody || winner == Black || winner == White) &&
      (winner == Nobody ==> winLine == [] && Alternates(board, turn)) &&
      (winner != Nobody ==> LineOfStones(board, winLine, winner)) &&
      (lastMove.Some? ==> InBounds(lastMove.value.r, lastMove.value.c) && board[lastMove.value.r][lastMove.value.c] != Nobody) &&
      (thinking ==> winner == Nobody && IsBoard(aiBoard) && InBounds(aiBest.r, aiBest.c) && Alternates(aiBoard, White))
    }

    /** The component mounts with an empty board and Black to move. */
    constructor(aiMode: bool)
      ensures Valid()
      ensures this.aiMode == aiMode && board == EmptyBoard() && turn == Black && winner == Nobody
      ensures winLine == [] && !thinking && lastMove == None
    {
      this.aiMode := aiMode;
      board := EmptyBoard();
      turn, winner, winLine, thinking, lastMove := Black, Nobody, [], false, None;
      aiBoard, aiBest := EmptyBoard(), Pos(Centre, Centre);
      new;
      StonesEmpty(board, Black);
      StonesEmpty(board, White);
    }

    /** The body of `handleMove` past its guard, on the board `b` it sees
        and for the side `t` it sees: the stone goes down, it becomes the
        last move, and either `t` wins with the line `checkWin` found or the
        turn passes to the other side. */
    method Place(b: Board, r: int, c: int, t: Player)
      requires IsBoard(b) && InBounds(r, c) && b[r][c] == Nobody && (t == Black || t == White)
      modifies this
      ensures board == Placed(b, r, c, t) && lastMove == Some(Pos(r, c))
      ensures WinningLine(board, r, c, t).Some? ==>
        winner == t && winLine == WinningLine(board, r, c, t).value && turn == old(turn)
      ensures WinningLine(board, r, c, t).None? ==>
        winner == old(winner) && winLine == old(winLine) && turn == Opponent(t)
      ensures thinking == old(thinking) && aiBoard == old(aiBoard) && aiBest == old(aiBest)
    {
      var newBoard := Placed(b, r, c, t);
      board := newBoard;
      lastMove := Some(Pos(r, c));
      var winningLine := CheckWin(r, c, t, newBoard);
      if winningLine.Some? {
        winner := t;
        winLine := winningLine.value;
      } else {
        turn := if t == Black then White else Black;
      }
    }

    /** After `Place` with nobody having won before, the state is valid again. */
    lemma PlacedValid(b: Board, r: int, c: int, t: Player, b': Board, winner': Player, winLine': seq<Pos>, turn': Player)
      requires IsBoard(b) && InBounds(r, c) && b[r][c] == Nobody && (t == Black || t == White)
      requires Alternates(b, t)
      requires b' == Placed(b, r, c, t)
      requires WinningLine(b', r, c, t).Some? ==> winner' == t && winLine' == WinningLine(b', r, c, t).value
      requires WinningLine(b', r, c, t).None? ==> winner' == Nobody && winLine' == [] && turn' == Opponent(t)
      ensures IsBoard(b') && (winner' == Nobody ==> winLine' == [] && Alternates(b', turn'))
      ensures winner' != Nobody ==> LineOfStones(b', winLine', winner')
    {
      StonesPlaced(b, r, c, t, Black);
      StonesPlaced(b, r, c, t, White);
      WinningLineShape(b', r, c, t);
    }

    /** `handleMove(r, c)`: ignored on an occupied cell, after a win, and
        while the AI is thinking; otherwise the side to move puts a stone on
        `(r, c)`, no other cell changes, and it either wins or hands the turn over. */
    method HandleMove(r: int, c: int)
      requires Valid() && InBounds(r, c)
      modifies this
      ensures Valid()
      ensures old(board[r][c]) != Nobody || old(winner) != Nobody || old(thinking) ==> unchanged(this)
      ensures old(board[r][c]) == Nobody && old(winner) == Nobody && !old(thinking) ==>
        board[r][c] == old(turn) && lastMove == Some(Pos(r, c)) &&
        (forall i, j :: InBounds(i, j) && (i, j) != (r, c) ==> board[i][j] == old(board[i][j])) &&
        (WinningLine(board, r, c, old(turn)).Some? ==>
          winner == old(turn) && turn == old(turn) && winLine == WinningLine(board, r, c, old(turn)).value) &&
        (WinningLine(board, r, c, old(turn)).None? ==> winner == Nobody && turn == Opponent(old(turn)))
      ensures thinking == old(thinking) && aiBoard == old(aiBoard) && aiBest == old(aiBest)
    {
      if board[r][c] != Nobody || winner != Nobody || thinking {
        return;
      }
      ghost var b := board;
      Place(board, r, c, turn);
      PlacedValid(b, r, c, old(turn), board, winner, winLine, turn);
    }

    /** The effect that starts an AI turn: in AI mode, with White to move,
        nobody having won and no AI turn pending, it marks the AI as
        thinking and computes the local best on the current board. */
    method TriggerAI()
      requires Valid()
      modifies this
      ensures Valid()
      ensures !(aiMode && old(turn) == White && old(winner) == Nobody && !old(thinking)) ==> unchanged(this)
      ensures aiMode && old(turn) == White && old(winner) == Nobody && !old(thinking) ==>
        thinking && aiBoard == board && board == old(board) && turn == old(turn) && winner == old(winner) &&
        winLine == old(winLine) && lastMove == old(lastMove) &&
        (AllEmpty(board) || Full(board) ==> aiBest == Pos(Centre, Centre)) &&
        (!AllEmpty(board) && !Full(board) ==> LocalBest(board, aiBest))
    {
      if !(aiMode && turn == White && winner == Nobody && !thinking) {
        return;
      }
      thinking := true;
      var localBest := FindBestMoveLocally(board);
      aiBoard, aiBest := board, localBest;
    }

    /** The end of a pending AI turn, once the advisor has answered (`None`
        when the request failed). The move is made by the `handleMove` the
        turn captured when it started, so it is judged and placed on that
        turn's board with White to move, and the AI stops thinking. */
    method ResolveAI(advice: Option<string>)
      requires Valid() && thinking
      modifies this
      ensures Valid() && !thinking
      ensures var m := AdvisedMove(old(aiBoard), old(aiBest), advice);
        (old(aiBoard)[m.r][m.c] != Nobody ==>
          board == old(board) && turn == old(turn) && winner == old(winner) && winLine == old(winLine) && lastMove == old(lastMove)) &&
        (old(aiBoard)[m.r][m.c] == Nobody ==>
          board == Placed(old(aiBoard), m.r, m.c, White) && lastMove == Some(m) &&
          (WinningLine(board, m.r, m.c, White).Some? ==>
            winner == White && turn == old(turn) && winLine == WinningLine(board, m.r, m.c, White).value) &&
          (WinningLine(board, m.r, m.c, White).None? ==> winner == Nobody && turn == Black))
    {
      var m := AdvisedMove(aiBoard, aiBest, advice);
      if aiBoard[m.r][m.c] == Nobody {
        ghost var b := aiBoard;
        Place(aiBoard, m.r, m.c, White);
        PlacedValid(b, m.r, m.c, White, board, winner, winLine, turn);
      }
      thinking := false;
    }

    /** `reset`: an empty board, no winner, no winning line, Black to move
        and no last move; a pending AI turn stays pending. */
    method Reset()
      requires Valid()
      modifies this
      ensures Valid()
      ensures board == EmptyBoard() && winner == Nobody && winLine == [] && turn == Black && lastMove == None
      ensures thinking == old(thinking) && aiBoard == old(aiBoard) && aiBest == old(aiBest)
    {
      board := EmptyBoard();
      winner, winLine, turn, lastMove := Nobody, [], Black, None;
      StonesEmpty(board, Black);
      StonesEmpty(board, White);
    }
  }
}
