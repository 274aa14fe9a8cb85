/** What the move generator promises, proved about module MoveGen: a ray
    slides until it is blocked, a pin is recorded exactly when an enemy king
    stands behind the captured piece, and the cache holds only occupied,
    unpinned squares with at least one move. */
module MoveGenProps {
  import opened Pieces
  import opened Squares
  import opened Boards
  import opened MoveGen

  // -----------------------------------------------------------------------
  // Rays

  /** The ray from step i on reaches steps i..n: those are on the board,
      all but the last are empty, the last may be entered (empty, enemy, or
      friendly when own pieces are kept), and the ray could go no further:
      step 8 is reached, the next step leaves the board or holds a friendly
      piece that must not be entered, or the last step was occupied. */
  ghost predicate Slides(b: Board, x: int, y: int, d: Pos, i: int, s: int, removeOwn: bool, n: int)
    requires IsBoard(b)
  {
    i - 1 <= n <= 7
    && (forall j :: i <= j <= n ==> OnBoard(Ahead(x, y, d, j)))
    && (forall j :: i <= j < n ==> At(b, Ahead(x, y, d, j)) == 0)
    && (n >= i ==> Orient(s, At(b, Ahead(x, y, d, n))) <= 0 || !removeOwn)
    && (n == 7 || (n >= i && At(b, Ahead(x, y, d, n)) != 0)
        || !OnBoard(Ahead(x, y, d, n + 1))
        || (removeOwn && Orient(s, At(b, Ahead(x, y, d, n + 1))) > 0))
  }

  /** `raycast` along one vector yields the offsets i, i+1, ... in order. */
  lemma {:induction false} RayOffsets(b: Board, x: int, y: int, d: Pos, i: int, s: int, removeOwn: bool, pinned: seq<Pos>)
    requires IsBoard(b) && 1 <= i <= 8
    ensures var g := RayFrom(b, x, y, d, i, s, removeOwn, pinned);
            |g.moves| <= 8 - i && forall k :: 0 <= k < |g.moves| ==> g.moves[k] == Pos(Along(i + k, d.x), Along(i + k, d.y))
    decreases 8 - i
  {
    var g := RayFrom(b, x, y, d, i, s, removeOwn, pinned);
    if i < 8 && OnBoard(Ahead(x, y, d, i)) && Orient(s, At(b, Ahead(x, y, d, i))) == 0 {
      RayOffsets(b, x, y, d, i + 1, s, removeOwn, pinned);
      var rest := RayFrom(b, x, y, d, i + 1, s, removeOwn, pinned);
      assert g.moves == [Pos(Along(i, d.x), Along(i, d.y))] + rest.moves;
      forall k | 0 < k < |g.moves| ensures g.moves[k] == Pos(Along(i + k, d.x), Along(i + k, d.y)) {
        assert g.moves[k] == rest.moves[k - 1];
        assert i + 1 + (k - 1) == i + k;
      }
    } else {
      assert |g.moves| <= 1;
    }
  }

  /** ... and stops where `Slides` says. */
  lemma RaySlides(b: Board, x: int, y: int, d: Pos, i: int, s: int, removeOwn: bool, pinned: seq<Pos>)
    requires IsBoard(b) && 1 <= i <= 8 && (s == 1 || s == -1)
    ensures Slides(b, x, y, d, i, s, removeOwn, i - 1 + |RayFrom(b, x, y, d, i, s, removeOwn, pinned).moves|)
  {
    RayLength(b, x, y, d, i, s, removeOwn, pinned);
    RayEndSlides(b, x, y, d, i, s, removeOwn);
  }

  /** The last step a ray from step i reaches, i - 1 when it reaches none. */
  ghost function RayEnd(b: Board, x: int, y: int, d: Pos, i: int, s: int, removeOwn: bool): int
    requires IsBoard(b) && 1 <= i <= 8
    decreases 8 - i
  {
    if i == 8 then 7
    else
      var q := Ahead(x, y, d, i);
      if !OnBoard(q) then i - 1
      else if Orient(s, At(b, q)) == 0 then RayEnd(b, x, y, d, i + 1, s, removeOwn)
      else if Orient(s, At(b, q)) < 0 || !removeOwn then i
      else i - 1
  }

  lemma {:induction false} RayLength(b: Board, x: int, y: int, d: Pos, i: int, s: int, removeOwn: bool, pinned: seq<Pos>)
    requires IsBoard(b) && 1 <= i <= 8
    ensures |RayFrom(b, x, y, d, i, s, removeOwn, pinned).moves| == RayEnd(b, x, y, d, i, s, removeOwn) - i + 1
    decreases 8 - i
  {
    if i < 8 && OnBoard(Ahead(x, y, d, i)) && Orient(s, At(b, Ahead(x, y, d, i))) == 0 {
      RayLength(b, x, y, d, i + 1, s, removeOwn, pinned);
    }
  }

  lemma {:induction false} RayEndSlides(b: Board, x: int, y: int, d: Pos, i: int, s: int, removeOwn: bool)
    requires IsBoard(b) && 1 <= i <= 8 && (s == 1 || s == -1)
    ensures Slides(b, x, y, d, i, s, removeOwn, RayEnd(b, x, y, d, i, s, removeOwn))
    decreases 8 - i
  {
    if i < 8 {
      var q := Ahead(x, y, d, i);
      if !OnBoard(q) || (Orient(s, At(b, q)) > 0 && removeOwn) {
        SlidesBlocked(b, x, y, d, i, s, removeOwn);
      } else if Orient(s, At(b, q)) == 0 {
        RayEndSlides(b, x, y, d, i + 1, s, removeOwn);
        SlidesEmpty(b, x, y, d, i, s, removeOwn, RayEnd(b, x, y, d, i + 1, s, removeOwn));
      } else {
        SlidesStop(b, x, y, d, i, s, removeOwn);
      }
    }
  }

  /** A ray whose first square is off the board or, with removeOwn, holds
      an own piece is empty. */
  lemma SlidesBlocked(b: Board, x: int, y: int, d: Pos, i: int, s: int, removeOwn: bool)
    requires IsBoard(b) && 1 <= i < 8
    requires !OnBoard(Ahead(x, y, d, i)) || (removeOwn && Orient(s, At(b, Ahead(x, y, d, i))) > 0)
    ensures Slides(b, x, y, d, i, s, removeOwn, i - 1)
  {
  }

  /** A ray stops on a square that holds a piece it may take. */
  lemma SlidesStop(b: Board, x: int, y: int, d: Pos, i: int, s: int, removeOwn: bool)
    requires IsBoard(b) && 1 <= i < 8 && (s == 1 || s == -1) && OnBoard(Ahead(x, y, d, i))
    requires Orient(s, At(b, Ahead(x, y, d, i))) < 0 || (!removeOwn && Orient(s, At(b, Ahead(x, y, d, i))) > 0)
    ensures Slides(b, x, y, d, i, s, removeOwn, i)
  {
  }

  /** A ray slides on through an empty square. */
  lemma SlidesEmpty(b: Board, x: int, y: int, d: Pos, i: int, s: int, removeOwn: bool, n: int)
    requires IsBoard(b) && 1 <= i < 8 && (s == 1 || s == -1) && OnBoard(Ahead(x, y, d, i))
    requires Orient(s, At(b, Ahead(x, y, d, i))) == 0 && Slides(b, x, y, d, i + 1, s, removeOwn, n)
    ensures Slides(b, x, y, d, i, s, removeOwn, n)
  {
    assert At(b, Ahead(x, y, d, i)) == 0;
  }

  // -----------------------------------------------------------------------
  // Pins

  /** Looking along d from step j on, an enemy king is the first enemy piece
      on the board. */
  ghost predicate KingBehind(b: Board, x: int, y: int, d: Pos, j: int, s: int)
    requires IsBoard(b)
  {
    exists k :: j <= k < 8 && OnBoard(Ahead(x, y, d, k)) && Orient(s, At(b, Ahead(x, y, d, k))) == -6
                && forall l :: j <= l < k && OnBoard(Ahead(x, y, d, l)) ==> Orient(s, At(b, Ahead(x, y, d, l))) >= 0
  }

  /** The captured square `cap` is appended to the pinned list exactly when
      it is not there yet and the enemy king stands behind it with no other
      enemy piece in between (friendly pieces do not shield the king). */
  lemma {:induction false} PinScanIff(b: Board, x: int, y: int, d: Pos, cap: Pos, j: int, s: int, pinned: seq<Pos>)
    requires IsBoard(b) && 1 <= j <= 8 && (s == 1 || s == -1)
    ensures PinScan(b, x, y, d, cap, j, s, pinned) == pinned + [cap] <==> cap !in pinned && KingBehind(b, x, y, d, j, s)
    decreases 8 - j
  {
    var r := PinScan(b, x, y, d, cap, j, s, pinned);
    if cap in pinned {
      assert r != pinned + [cap] by { assert |r| == |pinned| || r == pinned + [cap]; }
    } else if j < 8 {
      var q := Ahead(x, y, d, j);
      var v := if OnBoard(q) then Orient(s, At(b, q)) else 0;
      if OnBoard(q) && v < 0 && Abs(At(b, q)) != 6 {
        assert !KingBehind(b, x, y, d, j, s);
      } else if OnBoard(q) && v == -6 {
        assert KingBehind(b, x, y, d, j, s);
      } else {
        PinScanIff(b, x, y, d, cap, j + 1, s, pinned);
        assert OnBoard(q) ==> Orient(s, At(b, q)) >= 0;
        if KingBehind(b, x, y, d, j, s) {
          var k :| j <= k < 8 && OnBoard(Ahead(x, y, d, k)) && Orient(s, At(b, Ahead(x, y, d, k))) == -6
                   && forall l :: j <= l < k && OnBoard(Ahead(x, y, d, l)) ==> Orient(s, At(b, Ahead(x, y, d, l))) >= 0;
          assert k != j;
          assert KingBehind(b, x, y, d, j + 1, s);
        }
        if KingBehind(b, x, y, d, j + 1, s) {
          var k :| j + 1 <= k < 8 && OnBoard(Ahead(x, y, d, k)) && Orient(s, At(b, Ahead(x, y, d, k))) == -6
                   && forall l :: j + 1 <= l < k && OnBoard(Ahead(x, y, d, l)) ==> Orient(s, At(b, Ahead(x, y, d, l))) >= 0;
          assert KingBehind(b, x, y, d, j, s);
        }
      }
    }
  }

  // -----------------------------------------------------------------------
  // The cache

  /** Every key holds a piece and at least one destination. */
  ghost predicate KeysOccupied(b: Board, m: Cache)
    requires IsBoard(b)
  {
    forall k {:trigger k in m} :: k in m ==> OnBoard(k) && At(b, k) != 0 && |m[k]| > 0
  }

  lemma {:induction false} CalcFromKeys(c: Ctx, inCheck: bool, removeOwn: bool, k: int, acc: Cache, pinned: seq<Pos>)
    requires ValidCtx(c) && 0 <= k <= 64 && ValidCache(acc) && KeysOccupied(c.board, acc)
    ensures var r := CalcFrom(c, inCheck, removeOwn, k, acc, pinned);
            r.Ok? ==> KeysOccupied(c.board, r.value.moves)
    decreases 64 - k
  {
    if k < 64 {
      var n := Visit(c, inCheck, removeOwn, k, acc, pinned);
      VisitKeys(c, inCheck, removeOwn, k, acc, pinned);
      if n.Ok? {
        CalcFromKeys(c, inCheck, removeOwn, k + 1, n.value.moves, n.value.pinned);
      }
    }
  }

  /** One square of the scan adds only its own, occupied square, with a
      non-empty list. */
  lemma VisitKeys(c: Ctx, inCheck: bool, removeOwn: bool, k: int, acc: Cache, pinned: seq<Pos>)
    requires ValidCtx(c) && 0 <= k < 64 && ValidCache(acc) && KeysOccupied(c.board, acc)
    ensures var n := Visit(c, inCheck, removeOwn, k, acc, pinned);
            n.Ok? ==> KeysOccupied(c.board, n.value.moves)
  {
  }

  /** `calculate_possible_moves`: each key is an occupied square (of either
      colour) with a non-empty list, and no key is in the pinned list. */
  lemma CalcKeys(c: Ctx, inCheck: bool, removeOwn: bool, pinned: seq<Pos>)
    requires ValidCtx(c)
    ensures var r := Calc(c, inCheck, removeOwn, pinned);
            r.Ok? ==> KeysOccupied(c.board, r.value.moves) && forall k :: k in r.value.moves ==> k !in r.value.pinned
  {
    CalcFromKeys(c, inCheck, removeOwn, 0, map[], pinned);
  }

  // -----------------------------------------------------------------------
  // remove_illegal

  /** With `remove_own` set, no destination holds a piece of the mover's
      colour; without it, destinations only have to be on the board. */
  lemma RemoveIllegalNotFriendly(c: Ctx, x: int, y: int, vectors: seq<Pos>, inCheck: bool, white: bool,
                                 isKing: bool, removeOwn: bool, pinned: seq<Pos>)
    requires ValidCtx(c)
    ensures var r := RemoveIllegal(c, x, y, vectors, inCheck, white, isKing, removeOwn, pinned);
            r.Ok? && removeOwn ==>
              forall m :: m in r.value.moves ==> Orient(ColorOf(white).Sign(), At(c.board, Add(Pos(x, y), m))) <= 0
  {
    var r := RemoveIllegal(c, x, y, vectors, inCheck, white, isKing, removeOwn, pinned);
    var v1 := FilterOwn(c.board, x, y, vectors, ColorOf(white).Sign(), removeOwn);
    if r.Ok? && removeOwn && !isKing && inCheck {
      forall m | m in r.value.moves ensures Orient(ColorOf(white).Sign(), At(c.board, Add(Pos(x, y), m))) <= 0 {
        assert Add(Pos(x, y), m) in Destinations(Pos(x, y), v1);
        var m' :| m' in v1 && Add(Pos(x, y), m') == Add(Pos(x, y), m);
      }
    }
  }
}
