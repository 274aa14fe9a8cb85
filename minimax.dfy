/** The material evaluator and the game-tree searches of the engine package
    (src/neuralcheck/engine/minimax.py): `value_function` over a board, and
    `minimax` / `minimax_ab` over nested lists of scores. */
module Minimax {
  import opened Pieces
  import opened Boards

  // ----- value_function -----

  /** `mapper`: the weight of a code's magnitude; magnitudes above 6 have none
      (a KeyError). */
  function Weight(n: nat): Option<int>
  {
    if n == 6 then Some(0)
    else if n == 5 then Some(9)
    else if n == 4 then Some(5)
    else if n == 3 || n == 2 then Some(3)
    else if n <= 1 then Some(1)
    else None
  }

  /** What one board entry adds to the evaluation. */
  function CellValue(v: int): (r: Outcome<int>)
    ensures r.Ok? <==> -6 <= v <= 6
  {
    match Weight(Abs(v))
    case None => Crash
    case Some(w) => Ok(Sign(v) * w)
  }

  /** `board.flatten()`: the rows one after another. */
  function Flatten(b: seq<seq<int>>): (r: seq<int>)
    ensures forall i, v {:trigger v in b[i]} :: 0 <= i < |b| && v in b[i] ==> v in r
    ensures forall v {:trigger v in r} :: v in r ==> exists i :: 0 <= i < |b| && v in b[i]
  {
    if b == [] then [] else b[0] + Flatten(b[1..])
  }

  /** The sum of the mapped entries; any unmapped entry raises. */
  function SumValues(s: seq<int>): (r: Outcome<int>)
    ensures r.Ok? <==> forall v {:trigger v in s} :: v in s ==> -6 <= v <= 6
  {
    if s == [] then Ok(0)
    else
      assert s == [s[0]] + s[1..];
      assert s[0] in s && forall v {:trigger v in s[1..]} :: v in s[1..] ==> v in s;
      match (CellValue(s[0]), SumValues(s[1..]))
      case (Ok(v), Ok(rest)) => Ok(v + rest)
      case _ => Crash
  }

  /** `DeductiveEvaluator.value_function`. */
  function ValueFunction(b: Board): (r: Outcome<int>)
    ensures r.Ok? <==> forall i, j :: 0 <= i < |b| && 0 <= j < |b[i]| ==> -6 <= b[i][j] <= 6
  {
    FlattenEntries(b);
    SumValues(Flatten(b))
  }

  lemma FlattenEntries(b: Board)
    ensures (forall v {:trigger v in Flatten(b)} :: v in Flatten(b) ==> -6 <= v <= 6)
        <==> (forall i, j :: 0 <= i < |b| && 0 <= j < |b[i]| ==> -6 <= b[i][j] <= 6)
  {
    if forall v {:trigger v in Flatten(b)} :: v in Flatten(b) ==> -6 <= v <= 6 {
      forall i, j | 0 <= i < |b| && 0 <= j < |b[i]| ensures -6 <= b[i][j] <= 6 {
        assert b[i][j] in b[i];
      }
    }
    if forall i, j :: 0 <= i < |b| && 0 <= j < |b[i]| ==> -6 <= b[i][j] <= 6 {
      forall v | v in Flatten(b) ensures -6 <= v <= 6 {
        var i :| 0 <= i < |b| && v in b[i];
        var j :| 0 <= j < |b[i]| && b[i][j] == v;
      }
    }
  }

  /** The conventional material weight of a kind; the king counts nothing. */
  function KindWeight(k: Kind): int
  {
    match k
    case Pawn => 1
    case Knight => 3
    case Bishop => 3
    case Rook => 5
    case Queen => 9
    case King => 0
  }

  /** The material of one side among the entries. */
  function Material(s: seq<int>, c: Color): int
  {
    if s == [] then 0
    else
      var here := match Decode(s[0])
        case Some(p) => if p.color == c then KindWeight(p.kind) else 0
        case None => 0;
      here + Material(s[1..], c)
  }

  lemma CellBalance(v: int)
    requires -6 <= v <= 6
    ensures CellValue(v) == Ok(Material([v], White) - Material([v], Black))
  {
    assert [v][1..] == [];
  }

  lemma {:induction false} SumIsBalance(s: seq<int>)
    requires forall v {:trigger v in s} :: v in s ==> -6 <= v <= 6
    ensures SumValues(s) == Ok(Material(s, White) - Material(s, Black))
  {
    if s != [] {
      assert s[0] in s;
      CellBalance(s[0]);
      assert forall v {:trigger v in s[1..]} :: v in s[1..] ==> v in s;
      SumIsBalance(s[1..]);
    }
  }

  /** On a board of piece codes the evaluation is white's material minus black's. */
  lemma ValueIsBalance(b: Board)
    requires ValidBoard(b)
    ensures ValueFunction(b) == Ok(Material(Flatten(b), White) - Material(Flatten(b), Black))
  {
    var s := Flatten(b);
    forall v | v in s ensures -6 <= v <= 6 {
      var i :| 0 <= i < |b| && v in b[i];
      var j :| 0 <= j < |b[i]| && b[i][j] == v;
    }
    SumIsBalance(s);
  }

  /** The board with the colours swapped, entry by entry. */
  function Negated(b: Board): (r: Board)
    ensures |r| == |b| && forall i :: 0 <= i < |b| ==> r[i] == NegatedRow(b[i])
  {
    if b == [] then [] else [NegatedRow(b[0])] + Negated(b[1..])
  }

  function NegatedRow(s: seq<int>): (r: seq<int>)
    ensures |r| == |s| && forall k :: 0 <= k < |s| ==> r[k] == -s[k]
  {
    if s == [] then [] else [-s[0]] + NegatedRow(s[1..])
  }

  lemma {:induction false} SumNegated(s: seq<int>)
    ensures SumValues(NegatedRow(s)) == (match SumValues(s) case Ok(v) => Ok(-v) case Crash => Crash)
  {
    if s != [] {
      assert NegatedRow(s)[1..] == NegatedRow(s[1..]);
      SumNegated(s[1..]);
    }
  }

  lemma {:induction false} FlattenNegated(b: Board)
    ensures Flatten(Negated(b)) == NegatedRow(Flatten(b))
  {
    if b != [] {
      assert Negated(b)[1..] == Negated(b[1..]);
      FlattenNegated(b[1..]);
      NegatedAppend(b[0], Flatten(b[1..]));
    }
  }

  lemma NegatedAppend(s: seq<int>, t: seq<int>)
    ensures NegatedRow(s + t) == NegatedRow(s) + NegatedRow(t)
  {
  }

  /** Swapping the colours negates the evaluation, and raises exactly when
      the original raises. */
  lemma ValueNegated(b: Board)
    ensures ValueFunction(Negated(b)) == (match ValueFunction(b) case Ok(v) => Ok(-v) case Crash => Crash)
  {
    FlattenNegated(b);
    SumNegated(Flatten(b));
  }

  // ----- game trees -----

  /** A position of the test search: a score at a leaf, or the list of the
      positions reachable in one move. */
  datatype Tree = Leaf(n: int) | Node(kids: seq<Tree>)

  /** The numbers a search returns: a score or one of the infinite float seeds. */
  datatype Ext = NegInf | Fin(v: int) | PosInf

  /** What a search call returns: a number, or the position itself when the
      depth runs out on an inner node. */
  datatype Eval = Number(x: Ext) | Position(t: Tree)

  predicate Le(a: Ext, b: Ext)
  {
    a == NegInf || b == PosInf || (a.Fin? && b.Fin? && a.v <= b.v)
  }

  predicate Lt(a: Ext, b: Ext) { !Le(b, a) }

  /** Python's two-argument `max`. */
  function Max(a: Ext, b: Ext): (r: Ext)
    ensures Le(a, r) && Le(b, r) && (r == a || r == b)
  {
    if Le(b, a) then a else b
  }

  /** Python's two-argument `min`. */
  function Min(a: Ext, b: Ext): (r: Ext)
    ensures Le(r, a) && Le(r, b) && (r == a || r == b)
  {
    if Le(a, b) then a else b
  }

  predicate IsNumber(r: Outcome<Eval>) { r.Ok? && r.value.Number? }

  function Score(r: Outcome<Eval>): Ext
    requires IsNumber(r)
  {
    r.value.x
  }

  /** What a search returns when the depth is exhausted: the position itself. */
  function Reached(t: Tree): Eval
  {
    if t.Leaf? then Number(Fin(t.n)) else Position(t)
  }

  /** The seed of a side's running extreme. */
  function Seed(white: bool): Ext { if white then NegInf else PosInf }

  /** The running extreme of a side: white keeps the maximum, black the minimum. */
  function Pick(white: bool, a: Ext, b: Ext): Ext
  {
    if white then Max(a, b) else Min(a, b)
  }

  /** `a` is at least as good for the side to move as `b`. */
  predicate Beats(white: bool, a: Ext, b: Ext)
  {
    if white then Le(b, a) else Le(a, b)
  }

  /** `TestMinimax.minimax`. At depth 0 the position is returned as it is;
      otherwise a leaf raises (`'#' in` an integer) and an inner node folds its
      children's values, which raises as soon as one of them is not a number. */
  function MinimaxValue(t: Tree, depth: int, white: bool): (r: Outcome<Eval>)
    ensures depth != 0 && r.Ok? ==> r.value.Number?
    decreases t, 1
  {
    if depth == 0 then Ok(Reached(t))
    else if t.Leaf? then Crash
    else Best(t, 0, depth, white, Seed(white))
  }

  /** The fold over the children from index `i`, with running extreme `acc`. */
  function Best(t: Tree, i: nat, depth: int, white: bool, acc: Ext): (r: Outcome<Eval>)
    requires t.Node? && i <= |t.kids|
    ensures r.Ok? ==> r.value.Number?
    decreases t, 0, |t.kids| - i
  {
    if i == |t.kids| then Ok(Number(acc))
    else
      match MinimaxValue(t.kids[i], depth - 1, !white)
      case Crash => Crash
      case Ok(Position(_)) => Crash
      case Ok(Number(e)) => Best(t, i + 1, depth, white, Pick(white, acc, e))
  }

  /** `TestMinimax.minimax` as the source writes it: a recursive search whose
      loop over the children keeps the running extreme. */
  method Minimax(t: Tree, depth: int, white: bool) returns (r: Outcome<Eval>)
    ensures r == MinimaxValue(t, depth, white)
    decreases t
  {
    if depth == 0 {
      return Ok(Reached(t));
    }
    if t.Leaf? {
      return Crash;
    }
    var best := Seed(white);
    var i := 0;
    while i < |t.kids|
      invariant 0 <= i <= |t.kids|
      invariant MinimaxValue(t, depth, white) == Best(t, i, depth, white, best)
    {
      var e := Minimax(t.kids[i], depth - 1, !white);
      if e.Crash? || e.value.Position? {
        return Crash;
      }
      best := Pick(white, best, e.value.x);
      i := i + 1;
    }
    return Ok(Number(best));
  }

  /** Every child from index `i` on evaluates to a number. */
  predicate ChildrenScore(t: Tree, i: nat, depth: int, white: bool)
    requires t.Node?
  {
    forall j :: i <= j < |t.kids| ==> IsNumber(MinimaxValue(t.kids[j], depth - 1, !white))
  }

  lemma {:induction false} BestExtreme(t: Tree, i: nat, depth: int, white: bool, acc: Ext)
    requires t.Node? && i <= |t.kids|
    ensures IsNumber(Best(t, i, depth, white, acc)) <==> ChildrenScore(t, i, depth, white)
    ensures ChildrenScore(t, i, depth, white) ==>
      var m := Score(Best(t, i, depth, white, acc));
      Beats(white, m, acc)
      && (forall j :: i <= j < |t.kids| ==> Beats(white, m, Score(MinimaxValue(t.kids[j], depth - 1, !white))))
      && (m == acc || exists j :: i <= j < |t.kids| && m == Score(MinimaxValue(t.kids[j], depth - 1, !white)))
    decreases |t.kids| - i
  {
    if i < |t.kids| {
      var e := MinimaxValue(t.kids[i], depth - 1, !white);
      if IsNumber(e) {
        BestExtreme(t, i + 1, depth, white, Pick(white, acc, e.value.x));
      }
    }
  }

  /** With white to move the search returns the largest of the children's
      values (black to move, at one less depth), with black the smallest; it
      is a number exactly when every child's value is. */
  lemma MinimaxExtreme(t: Tree, depth: int, white: bool)
    requires t.Node? && depth != 0
    ensures IsNumber(MinimaxValue(t, depth, white)) <==> ChildrenScore(t, 0, depth, white)
    ensures ChildrenScore(t, 0, depth, white) ==>
      var m := Score(MinimaxValue(t, depth, white));
      (forall j :: 0 <= j < |t.kids| ==> Beats(white, m, Score(MinimaxValue(t.kids[j], depth - 1, !white))))
      && (t.kids == [] ==> m == Seed(white))
      && (t.kids != [] ==> exists j :: 0 <= j < |t.kids| && m == Score(MinimaxValue(t.kids[j], depth - 1, !white)))
  {
    BestExtreme(t, 0, depth, white, Seed(white));
    if ChildrenScore(t, 0, depth, white) && t.kids != [] {
      var m := Score(MinimaxValue(t, depth, white));
      if m == Seed(white) {
        var e := Score(MinimaxValue(t.kids[0], depth - 1, !white));
        assert Beats(white, m, e);
      }
    }
  }

  /** The tree with every score negated. */
  function Mirror(t: Tree): (r: Tree)
    ensures r.Leaf? == t.Leaf?
    ensures r.Node? ==> |r.kids| == |t.kids|
    decreases t
  {
    match t
    case Leaf(n) => Leaf(-n)
    case Node(kids) => Node(seq(|kids|, i requires 0 <= i < |kids| => Mirror(kids[i])))
  }

  function NegExt(e: Ext): Ext
  {
    match e
    case NegInf => PosInf
    case Fin(v) => Fin(-v)
    case PosInf => NegInf
  }

  function NegEval(r: Outcome<Eval>): Outcome<Eval>
  {
    match r
    case Crash => Crash
    case Ok(Number(e)) => Ok(Number(NegExt(e)))
    case Ok(Position(t)) => Ok(Position(Mirror(t)))
  }

  /** The game is zero-sum: negating every score and swapping the side to
      move negates the result. */
  lemma {:induction false} MinimaxMirror(t: Tree, depth: int, white: bool)
    ensures MinimaxValue(Mirror(t), depth, !white) == NegEval(MinimaxValue(t, depth, white))
    decreases t, 1
  {
    if depth != 0 && t.Node? {
      BestMirror(t, 0, depth, white, Seed(white));
    }
  }

  lemma PickMirror(white: bool, a: Ext, b: Ext)
    ensures Pick(!white, NegExt(a), NegExt(b)) == NegExt(Pick(white, a, b))
  {
  }

  lemma {:induction false} BestMirror(t: Tree, i: nat, depth: int, white: bool, acc: Ext)
    requires t.Node? && i <= |t.kids|
    ensures Best(Mirror(t), i, depth, !white, NegExt(acc)) == NegEval(Best(t, i, depth, white, acc))
    decreases t, 0, |t.kids| - i
  {
    if i < |t.kids| {
      assert Mirror(t).kids[i] == Mirror(t.kids[i]);
      MinimaxMirror(t.kids[i], depth - 1, !white);
      var e := MinimaxValue(t.kids[i], depth - 1, !white);
      if IsNumber(e) {
        PickMirror(white, acc, e.value.x);
        BestMirror(t, i + 1, depth, white, Pick(white, acc, e.value.x));
      }
    }
  }

  // ----- alpha-beta -----

  /** Which comparison the minimising side cuts off on: the source's
      `alpha <= beta`, or the standard `beta <= alpha`. */
  datatype Cutoff = AsWritten | Standard

  /** `TestMinimax.minimax_ab`, with the minimiser's cut-off chosen by `cut`. */
  function AlphaBetaValue(t: Tree, depth: int, alpha: Ext, beta: Ext, white: bool, cut: Cutoff): (r: Outcome<Eval>)
    ensures depth != 0 && r.Ok? ==> r.value.Number?
    decreases t, 1
  {
    if depth == 0 then Ok(Reached(t))
    else if t.Leaf? then Crash
    else Prune(t, 0, depth, alpha, beta, white, cut, Seed(white))
  }

  /** The minimiser stops scanning its children. */
  predicate MinCut(cut: Cutoff, alpha: Ext, beta: Ext)
  {
    if cut == AsWritten then Le(alpha, beta) else Le(beta, alpha)
  }

  /** The pruned fold over the children from index `i`. */
  function Prune(t: Tree, i: nat, depth: int, alpha: Ext, beta: Ext, white: bool, cut: Cutoff, acc: Ext): (r: Outcome<Eval>)
    requires t.Node? && i <= |t.kids|
    ensures r.Ok? ==> r.value.Number?
    decreases t, 0, |t.kids| - i
  {
    if i == |t.kids| then Ok(Number(acc))
    else
      match AlphaBetaValue(t.kids[i], depth - 1, alpha, beta, !white, cut)
      case Crash => Crash
      case Ok(Position(_)) => Crash
      case Ok(Number(e)) =>
        if white then
          if Le(beta, Max(alpha, e)) then Ok(Number(Max(acc, e)))
          else Prune(t, i + 1, depth, Max(alpha, e), beta, white, cut, Max(acc, e))
        else
          if MinCut(cut, alpha, Min(beta, e)) then Ok(Number(Min(acc, e)))
          else Prune(t, i + 1, depth, alpha, Min(beta, e), white, cut, Min(acc, e))
  }

  /** `TestMinimax.minimax_ab`: the recursive search whose loop narrows the
      window and leaves the loop on a cut-off; `cut == AsWritten` is the
      source's comparison. */
  method MinimaxAB(t: Tree, depth: int, alpha: Ext, beta: Ext, white: bool, cut: Cutoff) returns (r: Outcome<Eval>)
    ensures r == AlphaBetaValue(t, depth, alpha, beta, white, cut)
    decreases t
  {
    if depth == 0 {
      return Ok(Reached(t));
    }
    if t.Leaf? {
      return Crash;
    }
    var a, b := alpha, beta;
    var best := Seed(white);
    var i := 0;
    while i < |t.kids|
      invariant 0 <= i <= |t.kids|
      invariant AlphaBetaValue(t, depth, alpha, beta, white, cut) == Prune(t, i, depth, a, b, white, cut, best)
    {
      var e := MinimaxAB(t.kids[i], depth - 1, a, b, !white, cut);
      if e.Crash? || e.value.Position? {
        return Crash;
      }
      var x := e.value.x;
      if white {
        best := Max(best, x);
        a := Max(a, x);
        if Le(b, a) {
          break;
        }
      } else {
        best := Min(best, x);
        b := Min(b, x);
        if MinCut(cut, a, b) {
          break;
        }
      }
      i := i + 1;
    }
    return Ok(Number(best));
  }

  /** The fail-soft window property: a result at or below alpha bounds the true
      value from above, one at or above beta bounds it from below, and one
      strictly inside the window is the true value. */
  predicate Bounds(v: Ext, m: Ext, alpha: Ext, beta: Ext)
  {
    (Le(v, alpha) ==> Le(m, v)) && (Le(beta, v) ==> Le(v, m)) && (Lt(alpha, v) && Lt(v, beta) ==> v == m)
  }

  lemma {:induction false} BestBeats(t: Tree, i: nat, depth: int, white: bool, acc: Ext)
    requires t.Node? && i <= |t.kids|
    requires IsNumber(Best(t, i, depth, white, acc))
    ensures Beats(white, Score(Best(t, i, depth, white, acc)), acc)
    decreases |t.kids| - i
  {
    if i < |t.kids| {
      var e := MinimaxValue(t.kids[i], depth - 1, !white);
      BestBeats(t, i + 1, depth, white, Pick(white, acc, e.value.x));
    }
  }

  /** With the standard cut-off, alpha-beta keeps the window property against
      the plain search whenever the window is non-empty and the plain search
      yields a number. */
  lemma {:induction false} AlphaBetaSound(t: Tree, depth: int, alpha: Ext, beta: Ext, white: bool)
    requires Lt(alpha, beta)
    requires IsNumber(MinimaxValue(t, depth, white))
    ensures IsNumber(AlphaBetaValue(t, depth, alpha, beta, white, Standard))
    ensures Bounds(Score(AlphaBetaValue(t, depth, alpha, beta, white, Standard)), Score(MinimaxValue(t, depth, white)), alpha, beta)
    decreases t, 1
  {
    if depth != 0 {
      var m := Score(MinimaxValue(t, depth, white));
      if white {
        PruneMaxSound(t, 0, depth, alpha, alpha, beta, NegInf, NegInf, m);
      } else {
        PruneMinSound(t, 0, depth, beta, alpha, beta, PosInf, PosInf, m);
      }
    }
  }

  lemma {:induction false} PruneMaxSound(t: Tree, i: nat, depth: int, a0: Ext, alpha: Ext, beta: Ext, acc: Ext, soFar: Ext, m: Ext)
    requires t.Node? && i <= |t.kids|
    requires alpha == Max(a0, acc) && Lt(alpha, beta)
    requires Le(soFar, acc) && (Lt(a0, acc) ==> soFar == acc)
    requires Best(t, i, depth, true, soFar) == Ok(Number(m))
    ensures IsNumber(Prune(t, i, depth, alpha, beta, true, Standard, acc))
    ensures Bounds(Score(Prune(t, i, depth, alpha, beta, true, Standard, acc)), m, a0, beta)
    decreases t, 0, |t.kids| - i
  {
    if i < |t.kids| {
      var c := Score(MinimaxValue(t.kids[i], depth - 1, false));
      AlphaBetaSound(t.kids[i], depth - 1, alpha, beta, false);
      var v := Score(AlphaBetaValue(t.kids[i], depth - 1, alpha, beta, false, Standard));
      BestBeats(t, i + 1, depth, true, Max(soFar, c));
      if !Le(beta, Max(alpha, v)) {
        PruneMaxSound(t, i + 1, depth, a0, Max(alpha, v), beta, Max(acc, v), Max(soFar, c), m);
      }
    }
  }

  lemma {:induction false} PruneMinSound(t: Tree, i: nat, depth: int, b0: Ext, alpha: Ext, beta: Ext, acc: Ext, soFar: Ext, m: Ext)
    requires t.Node? && i <= |t.kids|
    requires beta == Min(b0, acc) && Lt(alpha, beta)
    requires Le(acc, soFar) && (Lt(acc, b0) ==> soFar == acc)
    requires Best(t, i, depth, false, soFar) == Ok(Number(m))
    ensures IsNumber(Prune(t, i, depth, alpha, beta, false, Standard, acc))
    ensures Bounds(Score(Prune(t, i, depth, alpha, beta, false, Standard, acc)), m, alpha, b0)
    decreases t, 0, |t.kids| - i
  {
    if i < |t.kids| {
      var c := Score(MinimaxValue(t.kids[i], depth - 1, true));
      AlphaBetaSound(t.kids[i], depth - 1, alpha, beta, true);
      var v := Score(AlphaBetaValue(t.kids[i], depth - 1, alpha, beta, true, Standard));
      BestBeats(t, i + 1, depth, false, Min(soFar, c));
      if !Le(Min(beta, v), alpha) {
        PruneMinSound(t, i + 1, depth, b0, alpha, Min(beta, v), Min(acc, v), Min(soFar, c), m);
      }
    }
  }

  /** Over the full window the standard alpha-beta search returns exactly
      what the plain search returns. */
  lemma AlphaBetaExact(t: Tree, depth: int, white: bool)
    requires IsNumber(MinimaxValue(t, depth, white))
    ensures AlphaBetaValue(t, depth, NegInf, PosInf, white, Standard) == MinimaxValue(t, depth, white)
  {
    AlphaBetaSound(t, depth, NegInf, PosInf, white);
  }

  /** The tree of the example call at the foot of the source: white chooses
      between `Left()` and `Right()`. */
  function ExampleTree(): Tree
  {
    Node([Left(), Right()])
  }

  function Left(): Tree { Node([Node([Leaf(-1), Leaf(3)]), Node([Leaf(5), Leaf(1)])]) }

  function Right(): Tree { Node([Node([Leaf(-6), Leaf(-4)]), Node([Leaf(0), Leaf(9)])]) }

  /** On the example, at depth 3 with white to move, the plain search returns 3. */
  lemma ExampleMinimax()
    ensures MinimaxValue(ExampleTree(), 3, true) == Ok(Number(Fin(3)))
  {
    assert MinimaxValue(Left(), 2, false) == Ok(Number(Fin(3)));
    assert MinimaxValue(Right(), 2, false) == Ok(Number(Fin(-4)));
  }

  /** On the example the source's alpha-beta search also returns 3: the left
      reply is cut off after its first child, the right one is searched with
      alpha raised to 3. */
  lemma ExampleAlphaBeta()
    ensures AlphaBetaValue(ExampleTree(), 3, NegInf, PosInf, true, AsWritten) == Ok(Number(Fin(3)))
  {
    assert AlphaBetaValue(Left(), 2, NegInf, PosInf, false, AsWritten) == Ok(Number(Fin(3)));
    assert AlphaBetaValue(Right(), 2, Fin(3), PosInf, false, AsWritten) == Ok(Number(Fin(-4)));
  }

  /** The source's minimiser cut-off stops after the first child whenever
      alpha does not exceed the lowered beta, so one white move leading to a
      black choice between 5 and 1 is scored 5 rather than 1. */
  lemma AsWrittenMisses()
    ensures MinimaxValue(Node([Node([Leaf(5), Leaf(1)])]), 2, true) == Ok(Number(Fin(1)))
    ensures AlphaBetaValue(Node([Node([Leaf(5), Leaf(1)])]), 2, NegInf, PosInf, true, AsWritten) == Ok(Number(Fin(5)))
  {
  }
}
