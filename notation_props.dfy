/** What the notation codec promises, proved about module Notation: the
    castle strings and unambiguous moves read back as the move that wrote
    them, and every other move read from text is one the cache lists. */
module NotationProps {
  import opened Pieces
  import opened Squares
  import opened Boards
  import opened MoveGen
  import opened Notation

  /** Characters of square names, file disambiguations and the capture 'x':
      none is a piece letter, '+', '#' or 'O'. */
  predicate Plain(s: string)
  {
    forall i :: 0 <= i < |s| ==> PlainChar(s[i])
  }

  predicate PlainChar(ch: char)
  {
    'a' <= ch <= 'h' || ch == 'x' || '0' <= ch <= '9'
  }

  lemma {:induction false} StripPlain(s: string)
    requires Plain(s)
    ensures Strip(s) == s
    decreases |s|
  {
    if s != [] {
      assert Plain(s[1..]) by {
        forall i | 0 <= i < |s[1..]| ensures PlainChar(s[1..][i]) {
          assert s[1..][i] == s[i + 1];
        }
      }
      StripPlain(s[1..]);
      assert s == [s[0]] + s[1..];
    }
  }

  /** The text `notation_from_move` writes for a move that is not a castle:
      an optional piece letter, then plain characters ending in the square. */
  lemma NotationPlain(c: Ctx, pc: Piece, src: Pos, dst: Pos, pinned: seq<Pos>)
    requires ValidCtx(c) && OnBoard(src) && Target(dst)
    requires !(pc.kind == King && CastleText(src, dst).Some?)
    ensures var r := NotationFromMove(c, pc, src, dst, pinned);
            r.Ok? ==> if pc.kind == Pawn then Plain(r.value.text)
                      else |r.value.text| >= 1 && r.value.text[0] == Letter(pc.kind) && Plain(r.value.text[1..])
  {
    var others: Outcome<(seq<Pos>, seq<Pos>)> := if pc.kind == Pawn then Ok(([], pinned))
                  else OtherCandidates(c, pc, SearchFor(c.board, pc), src, dst, pinned);
    if others.Ok? {
      TextPlain(pc.kind, others.value.0, src, WhatIn(c.board, dst).Occupied?, dst);
    }
  }

  lemma TextPlain(kind: Kind, others: seq<Pos>, src: Pos, capture: bool, dst: Pos)
    requires OnBoard(src) && Nameable(dst)
    ensures var t := Body(kind, Disambiguation(others, src), capture, FileChar(src.y)) + ArrayToLogic(dst);
            if kind == Pawn then Plain(t) else |t| >= 1 && t[0] == Letter(kind) && Plain(t[1..])
  {
    var d := Disambiguation(others, src);
    PlainChars(d);
    PlainChars(ArrayToLogic(dst));
    BodyPlain(kind, d, capture, FileChar(src.y), ArrayToLogic(dst));
  }

  /** A body followed by a square name is plain after the piece letter. */
  lemma BodyPlain(kind: Kind, d: string, capture: bool, file: char, name: string)
    requires Plain(d) && Plain(name) && PlainChar(file)
    ensures var t := Body(kind, d, capture, file) + name;
            if kind == Pawn then Plain(t) else |t| >= 1 && t[0] == Letter(kind) && Plain(t[1..])
  {
    var mid := if capture then d + "x" else d;
    PlainConcat(d, "x");
    PlainConcat(mid, name);
    if kind == Pawn && capture {
      PlainConcat([file], mid + name);
      assert Body(kind, d, capture, file) + name == [file] + (mid + name);
    } else if kind == Pawn {
      assert Body(kind, d, capture, file) + name == mid + name;
    } else {
      assert Body(kind, d, capture, file) + name == [Letter(kind)] + (mid + name);
    }
  }

  /** Square names and disambiguation characters are plain. */
  lemma PlainChars(s: string)
    requires forall i :: 0 <= i < |s| ==> s[i] in Files || '0' <= s[i] <= '9'
    ensures Plain(s)
  {
  }

  lemma PlainConcat(a: string, b: string)
    requires Plain(a) && Plain(b)
    ensures Plain(a + b)
  {
    forall i | 0 <= i < |a + b| ensures PlainChar((a + b)[i]) {
      if i >= |a| {
        assert (a + b)[i] == b[i - |a|];
      }
    }
  }

  /** The kind `read_move` infers from plain text after an optional letter. */
  lemma KindOfPlain(k: Kind, rest: string)
    requires Plain(rest)
    ensures KindOfPlay(rest) == Pawn && 'O' !in rest
    ensures k != Pawn ==> KindOfPlay([Letter(k)] + rest) == k
  {
    assert 'K' !in rest && 'Q' !in rest && 'B' !in rest && 'N' !in rest && 'R' !in rest;
  }

  /** A move that is not a castle, whose piece is the only one of its kind
      listed in the cache as reaching the destination, reads back from its
      notation as itself. */
  lemma NotationReadBack(c: Ctx, pc: Piece, src: Pos, dst: Pos, pinned: seq<Pos>, white: bool)
    requires ValidCtx(c) && OnBoard(src) && Target(dst) && pc.color == ColorOf(white)
    requires !(pc.kind == King && CastleText(src, dst).Some?)
    requires Reaching(c, dst, Some(pc), 0) == [src]
    ensures var r := NotationFromMove(c, pc, src, dst, pinned);
            r.Ok? ==> ReadMove(c, r.value.text, white) == Ok(Decoded(pc, src, dst))
  {
    var r := NotationFromMove(c, pc, src, dst, pinned);
    if r.Ok? {
      var t := r.value.text;
      assert Strip(t) == t && 'O' !in t && KindOfPlay(t) == pc.kind by {
        NotationPlain(c, pc, src, dst, pinned);
        TextFacts(t, pc.kind);
      }
      assert |t| >= 2 && t[|t| - 2..] == ArrayToLogic(dst);
      TextReadsBack(c, t, pc, src, dst, white);
    }
  }

  /** Reading a written text back: nothing is stripped, there is no 'O', and
      the kind is the one written. */
  lemma TextFacts(t: string, k: Kind)
    requires if k == Pawn then Plain(t) else |t| >= 1 && t[0] == Letter(k) && Plain(t[1..])
    ensures Strip(t) == t && 'O' !in t && KindOfPlay(t) == k
  {
    if k == Pawn {
      StripPlain(t);
      KindOfPlain(k, t);
    } else {
      var rest := t[1..];
      assert t == [Letter(k)] + rest;
      StripPlain(rest);
      StripCons(Letter(k), rest);
      KindOfPlain(k, rest);
      assert 'O' !in rest;
    }
  }

  lemma StripCons(ch: char, s: string)
    requires ch != '+' && ch != '#'
    ensures Strip([ch] + s) == [ch] + Strip(s)
  {
    assert ([ch] + s)[1..] == s;
  }

  /** A text without '+', '#' or 'O', naming the piece's kind and ending with
      the destination, reads back as the move of the sole listed square
      holding that piece. */
  lemma TextReadsBack(c: Ctx, t: string, pc: Piece, src: Pos, dst: Pos, white: bool)
    requires ValidCtx(c) && Nameable(dst) && pc == Piece(ColorOf(white), KindOfPlay(t))
    requires Strip(t) == t && |t| >= 2 && t[|t| - 2..] == ArrayToLogic(dst) && 'O' !in t
    requires Reaching(c, dst, Some(pc), 0) == [src]
    ensures ReadMove(c, t, white) == Ok(Decoded(pc, src, dst))
  {
    ParseEndNames(LastTwo(t), dst);
  }

  /** A castle's notation reads back as the king's move that wrote it. */
  lemma CastleReadBack(c: Ctx, src: Pos, dst: Pos, pinned: seq<Pos>, white: bool)
    requires ValidCtx(c) && CastleText(src, dst).Some? && src == (if white then E1 else E8)
    ensures var king := Piece(ColorOf(white), King);
            var r := NotationFromMove(c, king, src, dst, pinned);
            r == Ok(Text(CastleText(src, dst).value, pinned))
            && ReadMove(c, r.value.text, white) == Ok(Decoded(king, src, dst))
  {
    ReadCastle(c, white);
    if CastleText(src, dst) == Some("O-O") {
      assert dst == (if white then G1 else G8);
    } else {
      assert dst == (if white then C1 else C8);
    }
  }

  /** `read_move` on the two castle strings. */
  lemma ReadCastle(c: Ctx, white: bool)
    requires ValidCtx(c)
    ensures ReadMove(c, "O-O", white) == Ok(Decoded(Piece(ColorOf(white), King), if white then E1 else E8, if white then G1 else G8))
    ensures ReadMove(c, "O-O-O", white) == Ok(Decoded(Piece(ColorOf(white), King), if white then E1 else E8, if white then C1 else C8))
  {
    CastleStrings();
  }

  /** How `read_move` sees the two castle strings. */
  lemma CastleStrings()
    ensures Strip("O-O") == "O-O" && Strip("O-O-O") == "O-O-O" && 'O' in "O-O" && 'O' in "O-O-O"
    ensures IsSubstring("O-O", "O-O") && IsSubstring("O-O-O", "O-O-O") && !IsSubstring("O-O-O", "O-O")
  {
    assert "O-O"[0] == 'O' && "O-O-O"[0] == 'O';
    assert Strip("O-O") == "O-O";
    assert Strip("O-O-O") == "O-O-O";
    assert IsSubstring("O-O", "O-O");
    assert IsSubstring("O-O-O", "O-O-O");
    assert !IsSubstring("O-O-O", "O-O");
  }

  /** Apart from castles, a move read from text is listed in the cache, its
      destination named by the text's last two characters, and it moves a
      piece of the reader's colour; its source holds the inferred piece
      whenever any listed square holding that piece reaches the destination. */
  lemma ReadMoveListed(c: Ctx, play: string, white: bool)
    requires ValidCtx(c)
    ensures var r := ReadMove(c, play, white);
            r.Ok? && 'O' !in Strip(play) ==>
              r.value.from in c.cache && r.value.to in c.cache[r.value.from]
              && ParseEnd(LastTwo(Strip(play))) == Some(r.value.to)
              && r.value.piece == Piece(ColorOf(white), KindOfPlay(play))
              && (Reaching(c, r.value.to, Some(r.value.piece), 0) != [] ==>
                    WhatIn(c.board, r.value.from) == Occupied(r.value.piece))
  {
    var r := ReadMove(c, play, white);
    var stripped := Strip(play);
    if r.Ok? && 'O' !in stripped {
      var pc := Piece(ColorOf(white), KindOfPlay(play));
      var end := ParseEnd(LastTwo(stripped)).value;
      var exact := Reaching(c, end, Some(pc), 0);
      var cands := if exact != [] then exact else Reaching(c, end, None, 0);
      assert r.value.to == end && r.value.piece == pc;
      assert r.value.from in cands;
    }
  }
}
