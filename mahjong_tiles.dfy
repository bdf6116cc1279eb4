/** The tiles of the four-player tile game (components/MahjongGame.tsx):
    the names of the 34 kinds, the integer weight that orders them and
    that the winning-hand check works on, the 136-tile set, and the hand
    sort. A tile is its name, as in the source. */
module MahjongTiles {
  import opened Sequences

  type Tile = string

  /** The characters suit, ranks one to nine. */
  const Wan: seq<Tile> := ["一万", "二万", "三万", "四万", "五万", "六万", "七万", "八万", "九万"]
  /** The bamboo suit, ranks one to nine. */
  const Suo: seq<Tile> := ["一条", "二条", "三条", "四条", "五条", "六条", "七条", "八条", "九条"]
  /** The dots suit, ranks one to nine. */
  const Tong: seq<Tile> := ["一饼", "二饼", "三饼", "四饼", "五饼", "六饼", "七饼", "八饼", "九饼"]
  /** The four winds: east, south, west, north. */
  const Feng: seq<Tile> := ["东", "南", "西", "北"]
  /** The three dragons: red, green, white. */
  const Jian: seq<Tile> := ["中", "发", "白"]

  /** All 34 tile kinds. */
  const Names: seq<Tile> := Wan + Suo + Tong + Feng + Jian

  /** The weight of a tile: 10 + rank for characters, 20 + rank for bamboo,
      30 + rank for dots (rank counted from 0), 40 + index for winds,
      50 + index for dragons, and 0 for any other string. */
  function TileWeight(tile: Tile): (w: int)
    ensures 10 <= w <= 18 <==> tile in Wan
    ensures 20 <= w <= 28 <==> tile in Suo
    ensures 30 <= w <= 38 <==> tile in Tong
    ensures 40 <= w <= 43 <==> tile in Feng
    ensures 50 <= w <= 52 <==> tile in Jian
    ensures w == 0 <==> tile !in Names
  {
    TablesDisjoint();
    if tile in Wan then 10 + IndexOf(Wan, tile)
    else if tile in Suo then 20 + IndexOf(Suo, tile)
    else if tile in Tong then 30 + IndexOf(Tong, tile)
    else if tile in Feng then 40 + IndexOf(Feng, tile)
    else if tile in Jian then 50 + IndexOf(Jian, tile)
    else 0
  }

  // ---------------------------------------------------------------------
  // Facts about the literal name tables, checked by computation.

  predicate NotInRec(x: Tile, s: seq<Tile>) {
    |s| == 0 || (x != s[0] && NotInRec(x, s[1..]))
  }

  predicate DistinctRec(s: seq<Tile>) {
    |s| == 0 || (NotInRec(s[0], s[1..]) && DistinctRec(s[1..]))
  }

  ghost predicate Distinct(s: seq<Tile>) {
    forall i, j :: 0 <= i < j < |s| ==> s[i] != s[j]
  }

  predicate EndsWithAll(s: seq<Tile>, suffix: char) {
    |s| == 0 || (|s[0]| == 2 && s[0][1] == suffix && EndsWithAll(s[1..], suffix))
  }

  predicate DisjointRec(s: seq<Tile>, t: seq<Tile>) {
    |s| == 0 || (s[0] !in t && DisjointRec(s[1..], t))
  }

  lemma {:induction false} NotInFromRec(x: Tile, s: seq<Tile>)
    requires NotInRec(x, s)
    ensures x !in s
  {
    if s != [] {
      NotInFromRec(x, s[1..]);
      assert s == [s[0]] + s[1..];
    }
  }

  lemma {:induction false} DistinctFromRec(s: seq<Tile>)
    requires DistinctRec(s)
    ensures Distinct(s)
  {
    if s != [] {
      DistinctFromRec(s[1..]);
      NotInFromRec(s[0], s[1..]);
      forall i, j | 0 <= i < j < |s| ensures s[i] != s[j] {
        if i == 0 {
          assert s[j] == s[1..][j - 1];
        } else {
          assert s[i] == s[1..][i - 1] && s[j] == s[1..][j - 1];
        }
      }
    }
  }

  lemma {:induction false} EndsWithAllMember(s: seq<Tile>, suffix: char, t: Tile)
    requires EndsWithAll(s, suffix) && t in s
    ensures |t| == 2 && t[1] == suffix
  {
    if s[0] != t {
      EndsWithAllMember(s[1..], suffix, t);
    }
  }

  lemma {:induction false} DisjointRecMember(s: seq<Tile>, t: seq<Tile>, x: Tile)
    requires DisjointRec(s, t) && x in s
    ensures x !in t
  {
    if s[0] != x {
      DisjointRecMember(s[1..], t, x);
    }
  }

  lemma WanDistinct() ensures DistinctRec(Wan) {}
  lemma SuoDistinct() ensures DistinctRec(Suo) {}
  lemma TongDistinct() ensures DistinctRec(Tong) {}
  lemma HonoursDistinct() ensures DistinctRec(Feng) && DistinctRec(Jian) {}
  lemma WanSuffix() ensures EndsWithAll(Wan, '万') {}
  lemma SuoSuffix() ensures EndsWithAll(Suo, '条') {}
  lemma TongSuffix() ensures EndsWithAll(Tong, '饼') {}
  lemma HonourShapes() ensures DisjointRec(Feng, Jian) && forall t :: t in Feng + Jian ==> |t| == 1 {}

  /** No name belongs to two tables. */
  lemma TablesDisjoint()
    ensures forall t :: t in Wan ==> t !in Suo && t !in Tong && t !in Feng && t !in Jian
    ensures forall t :: t in Suo ==> t !in Tong && t !in Feng && t !in Jian
    ensures forall t :: t in Tong ==> t !in Feng && t !in Jian
    ensures forall t :: t in Feng ==> t !in Jian
  {
    WanSuffix();
    SuoSuffix();
    TongSuffix();
    HonourShapes();
    forall t | t in Wan ensures t !in Suo && t !in Tong && t !in Feng && t !in Jian {
      EndsWithAllMember(Wan, '万', t);
      if t in Suo { EndsWithAllMember(Suo, '条', t); }
      if t in Tong { EndsWithAllMember(Tong, '饼', t); }
      assert t !in Feng + Jian;
    }
    forall t | t in Suo ensures t !in Tong && t !in Feng && t !in Jian {
      EndsWithAllMember(Suo, '条', t);
      if t in Tong { EndsWithAllMember(Tong, '饼', t); }
      assert t !in Feng + Jian;
    }
    forall t | t in Tong ensures t !in Feng && t !in Jian {
      EndsWithAllMember(Tong, '饼', t);
      assert t !in Feng + Jian;
    }
    forall t | t in Feng ensures t !in Jian {
      DisjointRecMember(Feng, Jian, t);
    }
  }

  /** Every table lists each name once. */
  lemma TablesDistinct()
    ensures Distinct(Wan) && Distinct(Suo) && Distinct(Tong) && Distinct(Feng) && Distinct(Jian)
  {
    WanDistinct();
    SuoDistinct();
    TongDistinct();
    HonoursDistinct();
    DistinctFromRec(Wan);
    DistinctFromRec(Suo);
    DistinctFromRec(Tong);
    DistinctFromRec(Feng);
    DistinctFromRec(Jian);
  }

  lemma IndexOfDistinct(s: seq<Tile>, i: int)
    requires Distinct(s) && 0 <= i < |s|
    ensures IndexOf(s, s[i]) == i
  {
  }

  // ---------------------------------------------------------------------
  // The weight encoding.

  /** Each kind gets the weight of its band plus its position in its table. */
  lemma WeightOfKind(i: int)
    requires 0 <= i < 9
    ensures TileWeight(Wan[i]) == 10 + i
    ensures TileWeight(Suo[i]) == 20 + i
    ensures TileWeight(Tong[i]) == 30 + i
    ensures i < 4 ==> TileWeight(Feng[i]) == 40 + i
    ensures i < 3 ==> TileWeight(Jian[i]) == 50 + i
  {
    TablesDistinct();
    TablesDisjoint();
    IndexOfDistinct(Wan, i);
    IndexOfDistinct(Suo, i);
    IndexOfDistinct(Tong, i);
    if i < 4 { IndexOfDistinct(Feng, i); }
    if i < 3 { IndexOfDistinct(Jian, i); }
  }

  /** Distinct kinds have distinct weights. */
  lemma WeightInjective(a: Tile, b: Tile)
    requires a in Names && b in Names
    requires TileWeight(a) == TileWeight(b)
    ensures a == b
  {
    var w := TileWeight(a);
    if a in Wan {
      assert b in Wan && a == Wan[w - 10] == b;
    } else if a in Suo {
      assert b in Suo && a == Suo[w - 20] == b;
    } else if a in Tong {
      assert b in Tong && a == Tong[w - 30] == b;
    } else if a in Feng {
      assert b in Feng && a == Feng[w - 40] == b;
    } else {
      assert a in Jian && b in Jian && a == Jian[w - 50] == b;
    }
  }

  // ---------------------------------------------------------------------
  // The full set and the hand sort.

  /** A table repeated four times (`Array(4).fill(table).flat()`). */
  function Four(s: seq<Tile>): (r: seq<Tile>)
    ensures |r| == 4 * |s|
    ensures multiset(r) == multiset(s) + multiset(s) + multiset(s) + multiset(s)
  {
    s + s + s + s
  }

  /** The 136-tile set, table by table. */
  const FullDeck: seq<Tile> := Four(Wan) + Four(Suo) + Four(Tong) + Four(Feng) + Four(Jian)

  lemma {:induction false} DistinctCount(s: seq<Tile>, t: Tile)
    requires Distinct(s)
    ensures multiset(s)[t] == if t in s then 1 else 0
  {
    if s != [] {
      assert s == [s[0]] + s[1..];
      assert Distinct(s[1..]) by {
        forall i, j | 0 <= i < j < |s[1..]| ensures s[1..][i] != s[1..][j] {
          assert s[1..][i] == s[i + 1] && s[1..][j] == s[j + 1];
        }
      }
      assert s[0] !in s[1..] by {
        forall j | 0 <= j < |s[1..]| ensures s[1..][j] != s[0] {
          assert s[1..][j] == s[j + 1];
        }
      }
      DistinctCount(s[1..], t);
    }
  }

  lemma FourCount(s: seq<Tile>, t: Tile)
    requires Distinct(s)
    ensures multiset(Four(s))[t] == if t in s then 4 else 0
  {
    DistinctCount(s, t);
  }

  ghost predicate Disjoint(a: seq<Tile>, b: seq<Tile>) {
    forall t :: t in a ==> t !in b
  }

  lemma FiveTablesCount(a: seq<Tile>, b: seq<Tile>, c: seq<Tile>, d: seq<Tile>, e: seq<Tile>, t: Tile)
    requires Distinct(a) && Distinct(b) && Distinct(c) && Distinct(d) && Distinct(e)
    requires Disjoint(a, b) && Disjoint(a, c) && Disjoint(a, d) && Disjoint(a, e)
    requires Disjoint(b, c) && Disjoint(b, d) && Disjoint(b, e)
    requires Disjoint(c, d) && Disjoint(c, e) && Disjoint(d, e)
    ensures multiset(Four(a) + Four(b) + Four(c) + Four(d) + Four(e))[t]
      == if t in a + b + c + d + e then 4 else 0
  {
    FourCount(a, t);
    FourCount(b, t);
    FourCount(c, t);
    FourCount(d, t);
    FourCount(e, t);
  }

  /** The full set holds 136 tiles, four of each of the 34 kinds and nothing else. */
  lemma FullDeckContents()
    ensures |FullDeck| == 136
    ensures forall t :: multiset(FullDeck)[t] == if t in Names then 4 else 0
  {
    TablesDistinct();
    TablesDisjoint();
    forall t ensures multiset(FullDeck)[t] == if t in Names then 4 else 0 {
      FiveTablesCount(Wan, Suo, Tong, Feng, Jian, t);
    }
  }

  lemma FullDeckAtMost(t: Tile)
    ensures multiset(FullDeck)[t] <= 4
  {
    TablesDistinct();
    TablesDisjoint();
    FiveTablesCount(Wan, Suo, Tong, Feng, Jian, t);
  }

  lemma FullDeckCount(t: Tile)
    ensures multiset(FullDeck)[t] == if t in Names then 4 else 0
  {
    TablesDistinct();
    TablesDisjoint();
    FiveTablesCount(Wan, Suo, Tong, Feng, Jian, t);
  }

  lemma NoEmptyName()
    ensures "" !in Names
  {
  }

  lemma FullDeckNoEmpty()
    ensures multiset(FullDeck)[""] == 0
  {
    NoEmptyName();
    FullDeckCount("");
  }

  /** No kind occurs more than four times in the full set, and the empty
      name does not occur. */
  lemma FullDeckBound()
    ensures forall t :: multiset(FullDeck)[t] <= 4
    ensures multiset(FullDeck)[""] == 0
  {
    forall t ensures multiset(FullDeck)[t] <= 4 {
      FullDeckAtMost(t);
    }
    FullDeckNoEmpty();
  }

  /** `s` holds the tiles of the full set in some order. */
  ghost predicate IsShuffle(s: seq<Tile>) {
    multiset(s) == multiset(FullDeck)
  }

  /** A shuffle of the full set keeps those bounds. */
  lemma ShuffledBound(s: seq<Tile>)
    requires IsShuffle(s)
    ensures forall t :: multiset(s)[t] <= 4
    ensures multiset(s)[""] == 0
  {
    FullDeckBound();
  }

  /** `sortHand`: the hand ordered by weight, equal weights keeping their order. */
  function SortHand(hand: seq<Tile>): (r: seq<Tile>)
    ensures multiset(r) == multiset(hand) && |r| == |hand|
  {
    SortBy(hand, TileWeight)
  }

  /** The sorted hand is ordered by weight. */
  lemma SortHandSorted(hand: seq<Tile>)
    ensures SortedBy(SortHand(hand), TileWeight)
  {
    SortBySorted(hand, TileWeight);
  }
}
