/** The notation codec: `notation_from_move` and `read_move`
    (src/neuralcheck/logic.py:682-819). */
module Notation {
  import opened Pieces
  import opened Squares
  import opened Boards
  import opened MoveGen

  const E1 := Pos(7, 4)
  const G1 := Pos(7, 6)
  const C1 := Pos(7, 2)
  const E8 := Pos(0, 4)
  const G8 := Pos(0, 6)
  const C8 := Pos(0, 2)

  /** The castle strings, keyed only on the squares (logic.py:701-708). */
  function CastleText(src: Pos, dst: Pos): Option<string>
  {
    if src == E1 && dst == G1 then Some("O-O")
    else if src == E1 && dst == C1 then Some("O-O-O")
    else if src == E8 && dst == G8 then Some("O-O")
    else if src == E8 && dst == C8 then Some("O-O-O")
    else None
  }

  datatype Text = Text(text: string, pinned: seq<Pos>)

  /** The other squares holding the same piece that can also reach `dst`;
      each is asked through `allowed_movements` with its default arguments. */
  function OtherCandidates(c: Ctx, pc: Piece, same: seq<Pos>, src: Pos, dst: Pos, pinned: seq<Pos>): Outcome<(seq<Pos>, seq<Pos>)>
    requires ValidCtx(c)
    requires forall q :: q in same ==> OnBoard(q)
  {
    if same == [] then Ok(([], pinned))
    else if same[0] == src then OtherCandidates(c, pc, same[1..], src, dst, pinned)
    else
      match Allowed(c, pc, same[0], false, true, true, pinned)
      case Crash => Crash
      case Ok(g) =>
        match OtherCandidates(c, pc, same[1..], src, dst, g.pinned)
        case Crash => Crash
        case Ok((rest, p)) => Ok((if dst in g.moves then [same[0]] + rest else rest, p))
  }

  predicate SameFile(others: seq<Pos>, src: Pos)
  {
    forall i :: 0 <= i < |others| ==> others[i].y == src.y
  }

  /** The disambiguation text: the rank when every candidate shares the
      source's file, else the file; nothing without other candidates. */
  function Disambiguation(others: seq<Pos>, src: Pos): (d: string)
    requires OnBoard(src)
    ensures others == [] ==> d == []
    ensures others != [] && SameFile(others, src) ==> d == [RankChar(src.x)]
    ensures others != [] && !SameFile(others, src) ==> d == [FileChar(src.y)]
  {
    if others == [] then []
    else if SameFile(others, src) then [RankChar(src.x)]
    else [FileChar(src.y)]
  }

  /** `notation_from_move`: a castle between e1/e8 and g/c of the same rank
      is named by its castle string; any other move's notation ends with its
      destination's name. A pawn's notation never raises. */
  function NotationFromMove(c: Ctx, pc: Piece, src: Pos, dst: Pos, pinned: seq<Pos>): (r: Outcome<Text>)
    requires ValidCtx(c) && OnBoard(src) && Target(dst)
    ensures pc.kind == King && CastleText(src, dst).Some? ==> r == Ok(Text(CastleText(src, dst).value, pinned))
    ensures r.Ok? && !(pc.kind == King && CastleText(src, dst).Some?) ==>
              |r.value.text| >= 2 && r.value.text[|r.value.text| - 2..] == ArrayToLogic(dst)
    ensures pc.kind == Pawn ==> r.Ok? && r.value.pinned == pinned
  {
    if pc.kind == King && CastleText(src, dst).Some? then Ok(Text(CastleText(src, dst).value, pinned))
    else
      var others: Outcome<(seq<Pos>, seq<Pos>)> := if pc.kind == Pawn then Ok(([], pinned))
                    else OtherCandidates(c, pc, SearchFor(c.board, pc), src, dst, pinned);
      match others
      case Crash => Crash
      case Ok((cands, p)) =>
        var body := Body(pc.kind, Disambiguation(cands, src), WhatIn(c.board, dst).Occupied?, FileChar(src.y));
        Ok(Text(body + ArrayToLogic(dst), p))
  }

  /** The text before the destination's name: the piece letter (for a pawn
      nothing, or its file when it captures), the disambiguation, and 'x'
      on a capture. */
  function Body(kind: Kind, d: string, capture: bool, file: char): string
  {
    var prefix := if kind == Pawn then [] else [Letter(kind)];
    if capture then (if kind == Pawn then [file] else prefix) + d + "x"
    else prefix + d
  }

  // -----------------------------------------------------------------------
  // read_move

  /** `play.replace('+', '').replace('#', '')`. */
  function Strip(s: string): (r: string)
    ensures '+' !in r && '#' !in r
    ensures |r| <= |s|
  {
    if s == [] then []
    else (if s[0] == '+' || s[0] == '#' then [] else [s[0]]) + Strip(s[1..])
  }

  /** Python's `pat in s` on strings. */
  predicate IsSubstring(pat: string, s: string)
  {
    |pat| <= |s| && (s[..|pat|] == pat || IsSubstring(pat, s[1..]))
  }

  /** Python's `s[-2:]`. */
  function LastTwo(s: string): (r: string)
    ensures |s| >= 2 ==> r == s[|s| - 2..]
    ensures |s| < 2 ==> r == s
    ensures |r| <= |s|
  {
    if |s| >= 2 then s[|s| - 2..] else s
  }

  /** The square a destination text names, when it names one: membership of
      the text in a destination list is membership of this square. */
  function ParseEnd(end: string): Option<Pos>
  {
    if |end| == 2 && LogicToArray(end).Ok? then Some(LogicToArray(end).value) else None
  }

  lemma ParseEndNames(end: string, q: Pos)
    requires Nameable(q)
    ensures ArrayToLogic(q) == end <==> ParseEnd(end) == Some(q)
  {
    LogicToArrayRoundTrip(q);
    if ParseEnd(end) == Some(q) {
      ArrayToLogicRoundTrip(end);
      assert end[..2] == end;
    }
  }

  /** The kind `read_move` infers from the letters present anywhere in the play. */
  function KindOfPlay(play: string): Kind
  {
    if 'K' in play then King
    else if 'Q' in play then Queen
    else if 'B' in play then Bishop
    else if 'N' in play then Knight
    else if 'R' in play then Rook
    else Pawn
  }

  /** Keys (scan order) whose list reaches `end`, optionally restricted to
      squares holding `pc`. */
  function Reaching(c: Ctx, end: Pos, pc: Option<Piece>, k: int): (r: seq<Pos>)
    requires ValidCtx(c) && 0 <= k <= 64
    ensures forall q {:trigger q in r} :: q in r ==> 0 <= q.x < 8 && 0 <= q.y < 8 && q in c.cache && end in c.cache[q]
    ensures forall q :: q in r && pc.Some? ==> WhatIn(c.board, q) == Occupied(pc.value)
    ensures forall q {:trigger q in c.cache} :: (q in c.cache && end in c.cache[q] && 0 <= q.x < 8 && 0 <= q.y < 8 && ScanIndex(q) >= k
                         && (pc.Some? ==> WhatIn(c.board, q) == Occupied(pc.value))) ==> q in r
    decreases 64 - k, c
  {
    if k == 64 then []
    else
      var p := ScanPos(k);
      var hit := p in c.cache && end in c.cache[p] && (pc.Some? ==> WhatIn(c.board, p) == Occupied(pc.value));
      (if hit then [p] else []) + Reaching(c, end, pc, k + 1)
  }

  /** First candidate on the file `f`, as the pawn loop finds it. */
  function FirstOnFile(cands: seq<Pos>, f: char): (r: Option<Pos>)
    requires forall q :: q in cands ==> 0 <= q.x < 8 && 0 <= q.y < 8
    ensures r.Some? ==> r.value in cands && FileChar(r.value.y) == f
    ensures r.None? ==> forall q :: q in cands ==> FileChar(q.y) != f
    ensures r.Some? ==> exists i :: 0 <= i < |cands| && cands[i] == r.value
                                    && forall j :: 0 <= j < i ==> FileChar(cands[j].y) != f
  {
    if cands == [] then None
    else if FileChar(cands[0].y) == f then Some(cands[0])
    else
      FirstOnFile(cands[1..], f)
  }

  /** `candidates_dict.get(piece, ...)`: the dict keeps the last square per
      descriptor, so this is the last candidate holding the piece. */
  function LastHolding(c: Ctx, cands: seq<Pos>, pc: Piece): (r: Option<Pos>)
    requires ValidCtx(c) && forall q :: q in cands ==> 0 <= q.x < 8 && 0 <= q.y < 8
    ensures r.Some? ==> r.value in cands && WhatIn(c.board, r.value) == Occupied(pc)
    ensures r.None? ==> forall q :: q in cands ==> WhatIn(c.board, q) != Occupied(pc)
  {
    if cands == [] then None
    else if WhatIn(c.board, cands[|cands| - 1]) == Occupied(pc) then Some(cands[|cands| - 1])
    else LastHolding(c, cands[..|cands| - 1], pc)
  }

  datatype Decoded = Decoded(piece: Piece, from: Pos, to: Pos)

  /** `read_move`. Castling is read from the text alone; otherwise the
      destination is the last two characters and the source is chosen among
      the cache entries reaching it. No candidate, or an 'O' in a text that
      is not a castle, leaves a variable unbound (a crash). */
  function ReadMove(c: Ctx, play: string, white: bool): (r: Outcome<Decoded>)
    requires ValidCtx(c)
    ensures r.Ok? ==> r.value.piece.color == ColorOf(white)
    ensures 'O' in Strip(play) && r.Ok? ==> r.value.piece.kind == King
    ensures 'O' !in Strip(play) && r.Ok? ==> r.value.from in c.cache && r.value.to in c.cache[r.value.from]
  {
    var stripped := Strip(play);
    var color := ColorOf(white);
    if 'O' in stripped then
      if IsSubstring("O-O-O", play) then
        Ok(if white then Decoded(Piece(White, King), E1, C1) else Decoded(Piece(Black, King), E8, C8))
      else if IsSubstring("O-O", play) then
        Ok(if white then Decoded(Piece(White, King), E1, G1) else Decoded(Piece(Black, King), E8, G8))
      else Crash
    else
      var pc := Piece(color, KindOfPlay(play));
      match ParseEnd(LastTwo(stripped))
      case None => Crash
      case Some(end) => ChooseSource(c, play, pc, end)
  }

  /** The source `read_move` picks among the cache entries reaching `end`:
      those holding the piece if any, else all of them; a sole candidate is
      taken, a pawn takes the first on the file of the text's first
      character, any other piece the last candidate holding it (else the
      first candidate). */
  function ChooseSource(c: Ctx, play: string, pc: Piece, end: Pos): (r: Outcome<Decoded>)
    requires ValidCtx(c) && |play| > 0
    ensures r.Ok? ==> r.value.piece == pc && r.value.to == end
    ensures r.Ok? ==> r.value.from in c.cache && end in c.cache[r.value.from]
    ensures r.Ok? && Reaching(c, end, Some(pc), 0) != [] ==> WhatIn(c.board, r.value.from) == Occupied(pc)
    ensures (forall q :: q in c.cache ==> end !in c.cache[q]) ==> r.Crash?
  {
    var exact := Reaching(c, end, Some(pc), 0);
    Pick(c, play, pc, end, if exact != [] then exact else Reaching(c, end, None, 0))
  }

  function Pick(c: Ctx, play: string, pc: Piece, end: Pos, cands: seq<Pos>): (r: Outcome<Decoded>)
    requires ValidCtx(c) && |play| > 0
    requires forall q :: q in cands ==> 0 <= q.x < 8 && 0 <= q.y < 8
    ensures r.Ok? ==> r.value == Decoded(pc, r.value.from, end) && r.value.from in cands
    ensures r.Ok? && (forall q :: q in cands ==> WhatIn(c.board, q) == Occupied(pc)) ==>
              WhatIn(c.board, r.value.from) == Occupied(pc)
    ensures cands == [] ==> r.Crash?
  {
    if |cands| == 1 then Ok(Decoded(pc, cands[0], end))
    else if pc.kind == Pawn then
      (if cands == [] then Crash
       else match FirstOnFile(cands, play[0])
         case None => Crash
         case Some(src) => Ok(Decoded(pc, src, end)))
    else if cands == [] then Crash
    else
      match LastHolding(c, cands, pc)
      case Some(src) => Ok(Decoded(pc, src, end))
      case None => Ok(Decoded(pc, cands[0], end))
  }
}
