/** The winning-hand check of the tile game (`checkHu` and its inner
    `checkSets` in components/MahjongGame.tsx), and what it decides: a hand
    wins exactly when its weights split into one pair and a number of
    melds, each a triplet of one weight or a run of three consecutive
    weights below 40. */
module MahjongHand {
  import opened Sequences
  import opened MahjongTiles

  /** A meld: three copies of weight `w`, or the run `w, w+1, w+2`. */
  datatype Meld = Triplet(w: int) | Run(w: int)

  /** Runs exist only among the three suits, whose weights are below 40. */
  predicate ValidMeld(m: Meld) {
    m.Run? ==> m.w < 40
  }

  ghost predicate AllValid(ms: seq<Meld>) {
    forall i :: 0 <= i < |ms| ==> ValidMeld(ms[i])
  }

  /** The weights of a meld. */
  function MeldBag(m: Meld): multiset<int> {
    match m
    case Triplet(w) => multiset{w, w, w}
    case Run(w) => multiset{w, w + 1, w + 2}
  }

  /** The weights of a sequence of melds. */
  function Melded(ms: seq<Meld>): multiset<int> {
    if ms == [] then multiset{} else MeldBag(ms[0]) + Melded(ms[1..])
  }

  /** The meld `m` can be taken out of `rem`. */
  predicate Fits(m: Meld, rem: seq<int>) {
    match m
    case Triplet(w) => multiset(rem)[w] >= 3
    case Run(w) => w in rem && w + 1 in rem && w + 2 in rem
  }

  /** Three `splice(indexOf(first), 1)` calls. */
  function RemoveTriplet(rem: seq<int>, first: int): (r: seq<int>)
    requires multiset(rem)[first] >= 3
    ensures |r| == |rem| - 3
  {
    var r1 := RemoveFirst(rem, first);
    assert multiset(r1)[first] == multiset(rem)[first] - 1;
    var r2 := RemoveFirst(r1, first);
    assert multiset(r2)[first] == multiset(rem)[first] - 2;
    RemoveFirst(r2, first)
  }

  /** `splice(indexOf(x), 1)` for `first`, `first + 1` and `first + 2`. */
  function RemoveRun(rem: seq<int>, first: int): (r: seq<int>)
    requires first in rem && first + 1 in rem && first + 2 in rem
    ensures |r| == |rem| - 3
  {
    var r1 := RemoveFirst(rem, first);
    assert multiset(r1)[first + 1] == multiset(rem)[first + 1];
    var r2 := RemoveFirst(r1, first + 1);
    assert multiset(r2)[first + 2] == multiset(rem)[first + 2];
    RemoveFirst(r2, first + 2)
  }

  /** The meld `m` taken out of `rem`. */
  function RemoveMeld(rem: seq<int>, m: Meld): (r: seq<int>)
    requires Fits(m, rem)
    ensures |r| == |rem| - 3
  {
    match m
    case Triplet(w) => RemoveTriplet(rem, w)
    case Run(w) => RemoveRun(rem, w)
  }

  lemma RemoveTripletBag(rem: seq<int>, w: int)
    requires multiset(rem)[w] >= 3
    ensures multiset(RemoveTriplet(rem, w)) + multiset{w, w, w} == multiset(rem)
  {
    var r1 := RemoveFirst(rem, w);
    assert multiset(r1)[w] == multiset(rem)[w] - 1;
    var r2 := RemoveFirst(r1, w);
    assert multiset(r2)[w] == multiset(rem)[w] - 2;
    assert multiset{w, w, w} == multiset{w} + multiset{w} + multiset{w};
  }

  lemma RemoveRunBag(rem: seq<int>, w: int)
    requires w in rem && w + 1 in rem && w + 2 in rem
    ensures multiset(RemoveRun(rem, w)) + multiset{w, w + 1, w + 2} == multiset(rem)
  {
    var r1 := RemoveFirst(rem, w);
    assert multiset(r1)[w + 1] == multiset(rem)[w + 1];
    var r2 := RemoveFirst(r1, w + 1);
    assert multiset(r2)[w + 2] == multiset(rem)[w + 2];
    assert multiset{w, w + 1, w + 2} == multiset{w} + multiset{w + 1} + multiset{w + 2};
  }

  /** Taking a meld out removes exactly its three weights. */
  lemma RemoveMeldBag(rem: seq<int>, m: Meld)
    requires Fits(m, rem)
    ensures multiset(RemoveMeld(rem, m)) + MeldBag(m) == multiset(rem)
  {
    match m
    case Triplet(w) => RemoveTripletBag(rem, w);
    case Run(w) => RemoveRunBag(rem, w);
  }

  lemma SortedRemoveTriplet(rem: seq<int>, w: int)
    requires Sorted(rem) && multiset(rem)[w] >= 3
    ensures Sorted(RemoveTriplet(rem, w))
  {
    SortedRemoveFirst(rem, w);
    var r1 := RemoveFirst(rem, w);
    assert multiset(r1)[w] == multiset(rem)[w] - 1;
    SortedRemoveFirst(r1, w);
    var r2 := RemoveFirst(r1, w);
    assert multiset(r2)[w] == multiset(rem)[w] - 2;
    SortedRemoveFirst(r2, w);
  }

  lemma SortedRemoveRun(rem: seq<int>, w: int)
    requires Sorted(rem) && w in rem && w + 1 in rem && w + 2 in rem
    ensures Sorted(RemoveRun(rem, w))
  {
    var r1 := RemoveFirst(rem, w);
    RemoveFirstKeeps(rem, w, w + 1);
    RemoveFirstKeeps(rem, w, w + 2);
    SortedRemoveFirst(rem, w);
    var r2 := RemoveFirst(r1, w + 1);
    RemoveFirstKeeps(r1, w + 1, w + 2);
    SortedRemoveFirst(r1, w + 1);
    SortedRemoveFirst(r2, w + 2);
  }

  lemma SortedRemoveMeld(rem: seq<int>, m: Meld)
    requires Sorted(rem) && Fits(m, rem)
    ensures Sorted(RemoveMeld(rem, m))
  {
    match m
    case Triplet(w) => SortedRemoveTriplet(rem, w);
    case Run(w) => SortedRemoveRun(rem, w);
  }

  /** `checkSets`: the smallest remaining weight is taken out first as a
      triplet, and failing that as the start of a run; the search backtracks
      from the triplet to the run. */
  function CheckSets(rem: seq<int>): (ok: bool)
    ensures rem == [] ==> ok
    ensures ok ==> |rem| % 3 == 0
    decreases |rem|, 1
  {
    if rem == [] then true else TryTriplet(rem) || TryRun(rem)
  }

  /** The first branch of `checkSets`: three copies of the first weight. */
  function TryTriplet(rem: seq<int>): (ok: bool)
    requires rem != []
    ensures ok ==> multiset(rem)[rem[0]] >= 3 && |rem| % 3 == 0
    decreases |rem|, 0
  {
    Fits(Triplet(rem[0]), rem) && CheckSets(RemoveTriplet(rem, rem[0]))
  }

  /** The second branch of `checkSets`: a run from the first weight, below 40. */
  function TryRun(rem: seq<int>): (ok: bool)
    requires rem != []
    ensures ok ==> rem[0] < 40 && rem[0] + 1 in rem && rem[0] + 2 in rem && |rem| % 3 == 0
    decreases |rem|, 0
  {
    rem[0] < 40 && Fits(Run(rem[0]), rem) && CheckSets(RemoveRun(rem, rem[0]))
  }

  lemma MeldedCons(m: Meld, ms: seq<Meld>)
    ensures Melded([m] + ms) == MeldBag(m) + Melded(ms)
  {
    assert ([m] + ms)[1..] == ms;
  }

  lemma {:induction false} MeldedCut(ms: seq<Meld>, i: int)
    requires 0 <= i < |ms|
    ensures Melded(ms) == Melded(ms[..i] + ms[i + 1..]) + MeldBag(ms[i])
    decreases |ms|
  {
    if i > 0 {
      MeldedCut(ms[1..], i - 1);
      var rest := ms[1..][..i - 1] + ms[1..][i..];
      CutKeepsHead(ms, i);
      MeldedCons(ms[0], rest);
    } else {
      assert ms[..i] + ms[i + 1..] == ms[1..];
    }
  }

  lemma MeldedSplit(ms: seq<Meld>, x: int)
    requires x in Melded(ms)
    ensures ms != [] && (x in MeldBag(ms[0]) || x in Melded(ms[1..]))
  {
  }

  lemma {:induction false} MeldedMember(ms: seq<Meld>, x: int) returns (i: int)
    requires x in Melded(ms)
    ensures 0 <= i < |ms| && x in MeldBag(ms[i])
    decreases |ms|
  {
    MeldedSplit(ms, x);
    if x in MeldBag(ms[0]) {
      i := 0;
    } else {
      var j := MeldedMember(ms[1..], x);
      i := j + 1;
      assert ms[i] == ms[1..][j];
    }
  }

  /** Whatever `checkSets` accepts splits into valid melds. */
  lemma {:induction false} CheckSetsSound(rem: seq<int>) returns (ms: seq<Meld>)
    requires CheckSets(rem)
    ensures AllValid(ms) && Melded(ms) == multiset(rem)
    decreases |rem|
  {
    if rem == [] {
      ms := [];
    } else {
      var m := if TryTriplet(rem) then Triplet(rem[0]) else Run(rem[0]);
      var rest := RemoveMeld(rem, m);
      RemoveMeldBag(rem, m);
      var tail := CheckSetsSound(rest);
      ValidCons(m, tail);
      MeldedCons(m, tail);
      ms := [m] + tail;
    }
  }

  lemma ValidCons(m: Meld, ms: seq<Meld>)
    requires ValidMeld(m) && AllValid(ms)
    ensures AllValid([m] + ms)
  {
    assert forall i :: 0 < i < |ms| + 1 ==> ([m] + ms)[i] == ms[i - 1];
  }

  lemma MeldStartsAtMin(rem: seq<int>, m: Meld)
    requires Sorted(rem) && rem != []
    requires rem[0] in MeldBag(m)
    requires MeldBag(m) <= multiset(rem)
    ensures m.w == rem[0] && Fits(m, rem)
  {
    SortedHeadIsMin(rem, m.w);
    if m.Triplet? {
      assert MeldBag(m)[m.w] == 3;
    } else {
      assert m.w + 1 in MeldBag(m) && m.w + 2 in MeldBag(m);
    }
  }

  lemma ValidCut(ms: seq<Meld>, i: int)
    requires AllValid(ms) && 0 <= i < |ms|
    ensures AllValid(ms[..i] + ms[i + 1..])
  {
    var cut := ms[..i] + ms[i + 1..];
    forall j | 0 <= j < |cut| ensures ValidMeld(cut[j]) {
      if j < i { assert cut[j] == ms[j]; } else { assert cut[j] == ms[j + 1]; }
    }
  }

  /** One step of `checkSets`: taking a fitting meld that starts at the
      smallest weight and succeeding on the rest succeeds. */
  lemma CheckSetsStep(rem: seq<int>, m: Meld)
    requires rem != [] && m.w == rem[0] && ValidMeld(m) && Fits(m, rem)
    requires CheckSets(RemoveMeld(rem, m))
    ensures CheckSets(rem)
  {
    match m
    case Triplet(w) =>
      RemoveMeldIs(rem, m);
      TripletStep(rem);
    case Run(w) =>
      RemoveMeldIs(rem, m);
      RunStep(rem);
  }

  lemma RemoveMeldIs(rem: seq<int>, m: Meld)
    requires Fits(m, rem)
    ensures m.Triplet? ==> RemoveMeld(rem, m) == RemoveTriplet(rem, m.w)
    ensures m.Run? ==> RemoveMeld(rem, m) == RemoveRun(rem, m.w)
  {
  }

  lemma TripletStep(rem: seq<int>)
    requires rem != [] && Fits(Triplet(rem[0]), rem)
    requires CheckSets(RemoveTriplet(rem, rem[0]))
    ensures CheckSets(rem)
  {
    assert TryTriplet(rem);
  }

  lemma RunStep(rem: seq<int>)
    requires rem != [] && rem[0] < 40 && Fits(Run(rem[0]), rem)
    requires CheckSets(RemoveRun(rem, rem[0]))
    ensures CheckSets(rem)
  {
    assert TryRun(rem);
  }

  /** On a sorted sequence, `checkSets` finds every split into valid melds:
      the backtracking is complete. */
  lemma {:induction false} CheckSetsComplete(rem: seq<int>, ms: seq<Meld>)
    requires Sorted(rem) && AllValid(ms)
    requires Melded(ms) == multiset(rem)
    ensures CheckSets(rem)
    decreases |rem|
  {
    if rem != [] {
      var first := rem[0];
      assert first in Melded(ms);
      var i := MeldedMember(ms, first);
      var m := ms[i];
      var ms' := ms[..i] + ms[i + 1..];
      MeldedCut(ms, i);
      MeldStartsAtMin(rem, m);
      var rest := RemoveMeld(rem, m);
      RemoveMeldBag(rem, m);
      SortedRemoveMeld(rem, m);
      CancelBag(multiset(rest), Melded(ms'), MeldBag(m));
      ValidCut(ms, i);
      CheckSetsComplete(rest, ms');
      CheckSetsStep(rem, m);
    }
  }

  lemma {:induction false} MeldedSize(ms: seq<Meld>)
    ensures |Melded(ms)| == 3 * |ms|
  {
    if ms != [] {
      MeldedSize(ms[1..]);
    }
  }

  // ---------------------------------------------------------------------
  // The pair and the whole hand.

  /** `splice(indexOf(w), 2)`: drops the first copy of `w` and the element
      after it. */
  function RemovePair(ws: seq<int>, w: int): (r: seq<int>)
    requires multiset(ws)[w] >= 2
    ensures |r| == |ws| - 2
  {
    assert ws == [ws[0]] + ws[1..];
    if ws[0] == w then ws[2..] else [ws[0]] + RemovePair(ws[1..], w)
  }

  lemma PairAtHead(ws: seq<int>, w: int)
    requires Sorted(ws) && multiset(ws)[w] >= 2 && ws[0] == w
    ensures RemovePair(ws, w) == ws[2..]
    ensures multiset(ws[2..]) + multiset{w, w} == multiset(ws)
    ensures Sorted(ws[2..])
  {
    SortedRepeatedHead(ws);
    MultisetCutTwo(ws, 0);
    assert ws[..0] + ws[2..] == ws[2..];
    SortedDrop(ws, 2);
  }

  lemma PairAfterHead(ws: seq<int>, w: int)
    requires Sorted(ws) && multiset(ws)[w] >= 2 && ws[0] != w
    requires multiset(ws[1..])[w] >= 2
    requires Sorted(RemovePair(ws[1..], w))
    requires multiset(RemovePair(ws[1..], w)) + multiset{w, w} == multiset(ws[1..])
    ensures RemovePair(ws, w) == [ws[0]] + RemovePair(ws[1..], w)
    ensures multiset(RemovePair(ws, w)) + multiset{w, w} == multiset(ws)
    ensures Sorted(RemovePair(ws, w))
  {
    var rest := RemovePair(ws[1..], w);
    SortedConsOfSub(ws, rest);
    assert ws == [ws[0]] + ws[1..];
  }

  /** On sorted weights the two dropped elements are both copies of `w`. */
  lemma {:induction false} RemovePairSorted(ws: seq<int>, w: int)
    requires Sorted(ws) && multiset(ws)[w] >= 2
    ensures multiset(RemovePair(ws, w)) + multiset{w, w} == multiset(ws)
    ensures Sorted(RemovePair(ws, w))
    decreases |ws|
  {
    if ws[0] == w {
      PairAtHead(ws, w);
    } else {
      MultisetTail(ws);
      SortedTail(ws);
      assert multiset(ws[1..])[w] >= 2;
      RemovePairSorted(ws[1..], w);
      PairAfterHead(ws, w);
    }
  }

  /** The sorted weights of a hand (`hand.map(getTileWeight).sort(...)`). */
  function Weights(hand: seq<Tile>): (ws: seq<int>)
    ensures Sorted(ws) && |ws| == |hand|
    ensures multiset(ws) == multiset(MapKey(hand, TileWeight))
  {
    SortInts(MapKey(hand, TileWeight))
  }

  /** Taking out a pair of `w` leaves weights that `checkSets` accepts. */
  predicate PairWins(ws: seq<int>, w: int) {
    multiset(ws)[w] >= 2 && CheckSets(RemovePair(ws, w))
  }

  ghost predicate HasWinningPair(ws: seq<int>) {
    exists w :: PairWins(ws, w)
  }

  /** What `checkHu` decides, for the weights of a hand in any order. */
  ghost predicate WinningWeights(keys: seq<int>) {
    |keys| % 3 == 2 && HasWinningPair(SortInts(keys))
  }

  /** What `checkHu` decides about a hand. */
  ghost predicate IsWinning(hand: seq<Tile>) {
    WinningWeights(MapKey(hand, TileWeight))
  }

  /** The loop of `checkHu`: every distinct weight is tried as the pair. */
  method FindPair(weights: seq<int>) returns (found: bool)
    ensures found == HasWinningPair(weights)
  {
    var unique := Dedup(weights);
    var i := 0;
    while i < |unique|
      invariant 0 <= i <= |unique|
      invariant forall j :: 0 <= j < i ==> !PairWins(weights, unique[j])
    {
      var w := unique[i];
      if multiset(weights)[w] >= 2 {
        var remaining := RemovePair(weights, w);
        if CheckSets(remaining) {
          assert PairWins(weights, w);
          return true;
        }
      }
      assert !PairWins(weights, w);
      i := i + 1;
    }
    forall w ensures !PairWins(weights, w) {
      if w in weights {
        var k :| 0 <= k < |weights| && weights[k] == w;
        assert w in unique;
        var j :| 0 <= j < |unique| && unique[j] == w;
      }
    }
    return false;
  }

  /** `checkHu`. */
  method CheckHu(hand: seq<Tile>) returns (hu: bool)
    ensures hu == IsWinning(hand)
  {
    if |hand| % 3 != 2 {
      return false;
    }
    hu := FindPair(Weights(hand));
  }

  /** A pair of weight `w` and the melds `ms` together make up `ws`. */
  ghost predicate PairAndMelds(ws: multiset<int>, w: int, ms: seq<Meld>) {
    AllValid(ms) && ws == multiset{w, w} + Melded(ms)
  }

  /** The weights split into one pair and valid melds. */
  ghost predicate Splits(keys: seq<int>) {
    exists w, ms :: PairAndMelds(multiset(keys), w, ms)
  }

  lemma WinningGivesSplit(keys: seq<int>) returns (w: int, ms: seq<Meld>)
    requires WinningWeights(keys)
    ensures PairAndMelds(multiset(keys), w, ms)
  {
    var ws := SortInts(keys);
    w :| PairWins(ws, w);
    RemovePairSorted(ws, w);
    ms := CheckSetsSound(RemovePair(ws, w));
  }

  lemma SplitGivesPair(ws: seq<int>, w: int, ms: seq<Meld>)
    requires Sorted(ws) && PairAndMelds(multiset(ws), w, ms)
    ensures PairWins(ws, w)
  {
    assert multiset(ws)[w] >= 2;
    RemovePairSorted(ws, w);
    var rest := RemovePair(ws, w);
    CancelBag(multiset(rest), Melded(ms), multiset{w, w});
    CheckSetsComplete(rest, ms);
  }

  lemma PairPlusMeldsLength(len: int, n: nat)
    requires len == 2 + 3 * n
    ensures len % 3 == 2
  {
  }

  lemma SplitGivesLength(keys: seq<int>, w: int, ms: seq<Meld>)
    requires PairAndMelds(multiset(keys), w, ms)
    ensures |keys| % 3 == 2
  {
    MeldedSize(ms);
    assert |keys| == |multiset(keys)| == |multiset{w, w}| + |Melded(ms)|;
    PairPlusMeldsLength(|keys|, |ms|);
  }

  lemma SplitGivesWinning(keys: seq<int>, w: int, ms: seq<Meld>)
    requires PairAndMelds(multiset(keys), w, ms)
    ensures WinningWeights(keys)
  {
    SplitGivesLength(keys, w, ms);
    SplitGivesPair(SortInts(keys), w, ms);
  }

  /** Weights win exactly when they are one pair plus valid melds; the
      length test of `checkHu` follows from that split. */
  lemma WinningIffSplits(keys: seq<int>)
    ensures WinningWeights(keys) <==> Splits(keys)
  {
    if WinningWeights(keys) {
      var w, ms := WinningGivesSplit(keys);
    }
    if Splits(keys) {
      var w, ms :| PairAndMelds(multiset(keys), w, ms);
      SplitGivesWinning(keys, w, ms);
    }
  }

  /** A hand wins exactly when its tile weights are one pair plus valid melds. */
  lemma HandWinningIffSplits(hand: seq<Tile>)
    ensures IsWinning(hand) <==> Splits(MapKey(hand, TileWeight))
  {
    WinningIffSplits(MapKey(hand, TileWeight));
  }

  /** Only the multiset of weights matters. */
  lemma WinningWeightsOrderFree(k1: seq<int>, k2: seq<int>)
    requires multiset(k1) == multiset(k2)
    ensures WinningWeights(k1) == WinningWeights(k2)
  {
    SortedUnique(SortInts(k1), SortInts(k2));
    assert |k1| == |multiset(k1)| == |k2|;
  }

  /** The order of the tiles in a hand does not matter to `checkHu`. */
  lemma WinningIsOrderFree(h1: seq<Tile>, h2: seq<Tile>)
    requires multiset(h1) == multiset(h2)
    ensures IsWinning(h1) == IsWinning(h2)
  {
    MapKeyPermutation(h1, h2, TileWeight);
    WinningWeightsOrderFree(MapKey(h1, TileWeight), MapKey(h2, TileWeight));
  }
}
