/** FEN piece-placement serialisation of the board (`numpy2fen` / `fen2numpy`,
    src/neuralcheck/logic.py:897-959). Ranks are written from row 0 (rank 8)
    down, separated by '/'; a run of empty squares is one decimal digit. */
module Fen {
  import opened Pieces
  import opened Boards

  /** `mapping` of `numpy2fen`: upper case for white, lower case for black. */
  function PieceChar(v: int): (c: char)
    requires v != 0 && -6 <= v <= 6
    ensures !('0' <= c <= '9') && c != '/' && c != ' '
  {
    match v
    case 6 => 'K' case 5 => 'Q' case 4 => 'R' case 3 => 'B' case 2 => 'N' case 1 => 'P'
    case -6 => 'k' case -5 => 'q' case -4 => 'r' case -3 => 'b' case -2 => 'n' case _ => 'p'
  }

  /** `mapping` of `fen2numpy`; any other character is a KeyError. */
  function CharPiece(c: char): Outcome<int>
  {
    match c
    case 'K' => Ok(6) case 'Q' => Ok(5) case 'R' => Ok(4) case 'B' => Ok(3) case 'N' => Ok(2) case 'P' => Ok(1)
    case 'k' => Ok(-6) case 'q' => Ok(-5) case 'r' => Ok(-4) case 'b' => Ok(-3) case 'n' => Ok(-2) case 'p' => Ok(-1)
    case _ => Crash
  }

  lemma CharPieceInverse(v: int)
    requires v != 0 && -6 <= v <= 6
    ensures CharPiece(PieceChar(v)) == Ok(v)
  {
  }

  predicate IsDigit(c: char) { '0' <= c <= '9' }

  function DigitChar(n: nat): (c: char)
    requires n <= 9
    ensures IsDigit(c)
  {
    ('0' as int + n) as char
  }

  function DigitValue(c: char): nat
    requires IsDigit(c)
  {
    c as int - '0' as int
  }

  function Zeros(n: nat): (r: seq<int>)
    ensures |r| == n && forall i :: 0 <= i < n ==> r[i] == 0
  {
    if n == 0 then [] else [0] + Zeros(n - 1)
  }

  ghost predicate ValidRow(row: seq<int>)
  {
    forall i :: 0 <= i < |row| ==> -6 <= row[i] <= 6
  }

  /** The text of one rank, given `empty` pending empty squares already counted. */
  function RowFen(row: seq<int>, empty: nat): (s: string)
    requires ValidRow(row) && empty + |row| <= 9
    ensures '/' !in s && ' ' !in s
  {
    if row == [] then (if empty > 0 then [DigitChar(empty)] else [])
    else if row[0] == 0 then RowFen(row[1..], empty + 1)
    else (if empty > 0 then [DigitChar(empty)] else []) + [PieceChar(row[0])] + RowFen(row[1..], 0)
  }

  function Join(parts: seq<string>, sep: char): string
  {
    if parts == [] then []
    else if |parts| == 1 then parts[0]
    else parts[0] + [sep] + Join(parts[1..], sep)
  }

  function RowsFen(b: Board, k: nat): (r: seq<string>)
    requires ValidBoard(b) && k <= 8
    ensures |r| == 8 - k
    ensures forall i :: 0 <= i < |r| ==> r[i] == RowFen(b[k + i], 0)
    decreases 8 - k
  {
    if k == 8 then [] else [RowFen(b[k], 0)] + RowsFen(b, k + 1)
  }

  /** `numpy2fen`. */
  function BoardToFen(b: Board): (r: string)
    requires ValidBoard(b)
    ensures ' ' !in r
    ensures Split(r, '/') == RowsFen(b, 0)
  {
    var rows := RowsFen(b, 0);
    JoinHasNo(rows, '/', ' ');
    SplitJoin(rows, '/');
    Join(rows, '/')
  }

  /** Python's `str.split(sep)`: always at least one part. */
  function Split(s: string, sep: char): (parts: seq<string>)
    ensures |parts| >= 1
    ensures forall i :: 0 <= i < |parts| ==> sep !in parts[i]
  {
    if s == [] then [[]]
    else if s[0] == sep then [[]] + Split(s[1..], sep)
    else
      var rest := Split(s[1..], sep);
      [[s[0]] + rest[0]] + rest[1..]
  }

  /** What one character of a rank contributes to `fen2numpy`'s row: a digit
      extends it by that many zeros, any other character goes through the
      letter mapping. */
  function CellParse(c: char): Outcome<seq<int>>
  {
    if IsDigit(c) then Ok(Zeros(DigitValue(c)))
    else if CharPiece(c).Ok? then Ok([CharPiece(c).value])
    else Crash
  }

  /** Concatenation that propagates a crash. */
  function Cat<T>(a: Outcome<seq<T>>, b: Outcome<seq<T>>): Outcome<seq<T>>
  {
    if a.Ok? && b.Ok? then Ok(a.value + b.value) else Crash
  }

  lemma CatLeftUnit<T>(b: Outcome<seq<T>>)
    ensures Cat(Ok([]), b) == b
  {
    if b.Ok? {
      assert [] + b.value == b.value;
    }
  }

  lemma CatAssoc<T>(a: Outcome<seq<T>>, b: Outcome<seq<T>>, c: Outcome<seq<T>>)
    ensures Cat(Cat(a, b), c) == Cat(a, Cat(b, c))
  {
    if a.Ok? && b.Ok? && c.Ok? {
      assert a.value + b.value + c.value == a.value + (b.value + c.value);
    }
  }

  function RowParse(s: string): Outcome<seq<int>>
  {
    if s == [] then Ok([]) else Cat(CellParse(s[0]), RowParse(s[1..]))
  }

  function RowsParse(rows: seq<string>): Outcome<seq<seq<int>>>
  {
    if rows == [] then Ok([])
    else Cat(if RowParse(rows[0]).Ok? then Ok([RowParse(rows[0]).value]) else Crash, RowsParse(rows[1..]))
  }

  /** numpy refuses to build an array from rows of different lengths. */
  predicate Rectangular(rows: seq<seq<int>>)
  {
    forall i :: 0 <= i < |rows| ==> |rows[i]| == |rows[0]|
  }

  /** `fen2numpy`: only the first space-separated field is read. */
  function FenToBoard(fen: string): (r: Outcome<Board>)
    ensures r.Ok? ==> |r.value| > 0 && Rectangular(r.value)
  {
    var rows := RowsParse(Split(Split(fen, ' ')[0], '/'));
    if rows.Ok? && Rectangular(rows.value) then rows else Crash
  }

  // ---------------------------------------------------------------------
  // Round trip

  lemma {:induction false} SplitJoin(parts: seq<string>, sep: char)
    requires |parts| >= 1
    requires forall i :: 0 <= i < |parts| ==> sep !in parts[i]
    ensures Split(Join(parts, sep), sep) == parts
  {
    if |parts| == 1 {
      SplitNoSep(parts[0], sep);
    } else {
      SplitJoin(parts[1..], sep);
      SplitPrefix(parts[0], Join(parts[1..], sep), sep);
    }
  }

  lemma {:induction false} SplitNoSep(s: string, sep: char)
    requires sep !in s
    ensures Split(s, sep) == [s]
  {
    if s != [] {
      SplitNoSep(s[1..], sep);
      assert [s[0]] + s[1..] == s;
    }
  }

  lemma {:induction false} SplitPrefix(a: string, rest: string, sep: char)
    requires sep !in a
    ensures Split(a + [sep] + rest, sep) == [a] + Split(rest, sep)
  {
    if a == [] {
      assert a + [sep] + rest == [sep] + rest;
      assert ([sep] + rest)[1..] == rest;
    } else {
      assert (a + [sep] + rest)[1..] == a[1..] + [sep] + rest;
      SplitPrefix(a[1..], rest, sep);
      assert [a[0]] + a[1..] == a;
    }
  }

  lemma {:induction false} RowParseAppend(s: string, t: string)
    requires RowParse(s).Ok?
    ensures RowParse(s + t) == Cat(RowParse(s), RowParse(t))
  {
    if s == [] {
      assert s + t == t;
      CatLeftUnit(RowParse(t));
    } else {
      assert (s + t)[1..] == s[1..] + t;
      RowParseAppend(s[1..], t);
      assert (s + t)[0] == s[0];
      CatAssoc(CellParse(s[0]), RowParse(s[1..]), RowParse(t));
    }
  }

  lemma RowParseSingle(c: char)
    ensures RowParse([c]) == CellParse(c)
  {
    assert [c][1..] == [];
    var h := CellParse(c);
    if h.Ok? {
      assert h.value + [] == h.value;
    }
  }

  /** The text written for a pending run parses back to that many zeros. */
  lemma PendingParse(empty: nat)
    requires empty <= 9
    ensures RowParse(if empty > 0 then [DigitChar(empty)] else []) == Ok(Zeros(empty))
  {
    if empty > 0 {
      RowParseSingle(DigitChar(empty));
    }
  }

  lemma {:induction false} RowFenParse(row: seq<int>, empty: nat)
    requires ValidRow(row) && empty + |row| <= 9
    ensures RowParse(RowFen(row, empty)) == Ok(Zeros(empty) + row)
    decreases |row|
  {
    if row == [] {
      PendingParse(empty);
      assert Zeros(empty) + row == Zeros(empty);
    } else if row[0] == 0 {
      RowFenParse(row[1..], empty + 1);
      RowFenZeroStep(row, empty);
    } else {
      RowFenParse(row[1..], 0);
      RowFenPieceStep(row, empty);
    }
  }

  lemma RowFenZeroStep(row: seq<int>, empty: nat)
    requires ValidRow(row) && empty + |row| <= 9 && row != [] && row[0] == 0
    requires RowParse(RowFen(row[1..], empty + 1)) == Ok(Zeros(empty + 1) + row[1..])
    ensures RowParse(RowFen(row, empty)) == Ok(Zeros(empty) + row)
  {
    ZerosCons(empty, row);
  }

  lemma RowFenPieceStep(row: seq<int>, empty: nat)
    requires ValidRow(row) && empty + |row| <= 9 && row != [] && row[0] != 0
    requires RowParse(RowFen(row[1..], 0)) == Ok(Zeros(0) + row[1..])
    ensures RowParse(RowFen(row, empty)) == Ok(Zeros(empty) + row)
  {
    assert Zeros(0) + row[1..] == row[1..];
    PieceRunParse(empty, row[0], RowFen(row[1..], 0), row[1..]);
    assert Zeros(empty) + [row[0]] + row[1..] == Zeros(empty) + row;
  }

  /** A pending run, then a piece's letter, then text that parses. */
  lemma PieceRunParse(empty: nat, v: int, t: string, rest: seq<int>)
    requires empty <= 9 && -6 <= v <= 6 && v != 0 && RowParse(t) == Ok(rest)
    ensures RowParse((if empty > 0 then [DigitChar(empty)] else []) + [PieceChar(v)] + t) == Ok(Zeros(empty) + [v] + rest)
  {
    var z := if empty > 0 then [DigitChar(empty)] else [];
    var p := [PieceChar(v)];
    PendingParse(empty);
    CharPieceInverse(v);
    RowParseSingle(PieceChar(v));
    RowParseAppend(p, t);
    RowParseAppend(z, p + t);
    assert z + p + t == z + (p + t);
    assert Zeros(empty) + ([v] + rest) == Zeros(empty) + [v] + rest;
  }

  lemma ZerosCons(n: nat, row: seq<int>)
    requires row != [] && row[0] == 0
    ensures Zeros(n + 1) + row[1..] == Zeros(n) + row
  {
    ZerosSnoc(n);
    assert Zeros(n) + [0] + row[1..] == Zeros(n) + row;
  }

  lemma {:induction false} ZerosSnoc(n: nat)
    ensures Zeros(n + 1) == Zeros(n) + [0]
  {
    if n > 0 {
      ZerosSnoc(n - 1);
    }
  }

  lemma {:induction false} RowsParseFen(b: Board, k: nat)
    requires ValidBoard(b) && k <= 8
    ensures RowsParse(RowsFen(b, k)) == Ok(b[k..])
    decreases 8 - k
  {
    if k < 8 {
      RowsParseFen(b, k + 1);
      RowFenParse(b[k], 0);
      assert Zeros(0) + b[k] == b[k];
      var rs := RowsFen(b, k);
      assert rs[0] == RowFen(b[k], 0);
      assert rs[1..] == RowsFen(b, k + 1);
      assert RowParse(rs[0]) == Ok(b[k]);
      assert RowsParse(rs) == Cat(Ok([b[k]]), Ok(b[k + 1..]));
      assert [b[k]] + b[k + 1..] == b[k..];
    }
  }

  /** Reading back what `numpy2fen` wrote gives the same board. */
  lemma FenRoundTrip(b: Board)
    requires ValidBoard(b)
    ensures FenToBoard(BoardToFen(b)) == Ok(b)
  {
    var rows := RowsFen(b, 0);
    var fen := BoardToFen(b);
    JoinHasNo(rows, '/', ' ');
    SplitNoSep(fen, ' ');
    SplitJoin(rows, '/');
    RowsParseFen(b, 0);
    assert b[0..] == b;
  }

  lemma {:induction false} JoinHasNo(parts: seq<string>, sep: char, c: char)
    requires c != sep
    requires forall i :: 0 <= i < |parts| ==> c !in parts[i]
    ensures c !in Join(parts, sep)
  {
    if |parts| > 1 {
      JoinHasNo(parts[1..], sep, c);
    }
  }

  // ---------------------------------------------------------------------
  // Shape of one rank

  /** Squares a rank text covers: digit values plus one per letter. */
  function Width(s: string): nat
  {
    if s == [] then 0 else (if IsDigit(s[0]) then DigitValue(s[0]) else 1) + Width(s[1..])
  }

  predicate NoAdjacentDigits(s: string)
  {
    forall i :: 0 <= i < |s| - 1 ==> !(IsDigit(s[i]) && IsDigit(s[i + 1]))
  }

  lemma {:induction false} WidthAppend(s: string, t: string)
    ensures Width(s + t) == Width(s) + Width(t)
  {
    if s != [] {
      assert (s + t)[1..] == s[1..] + t;
      assert (s + t)[0] == s[0];
      WidthAppend(s[1..], t);
    } else {
      assert s + t == t;
    }
  }

  /** A rank's text covers exactly its squares, starts with a digit only when
      the pending run is the first thing written, and never holds two digits
      in a row. */
  lemma {:induction false} RowFenShape(row: seq<int>, empty: nat)
    requires ValidRow(row) && empty + |row| <= 9
    ensures Width(RowFen(row, empty)) == empty + |row|
    ensures NoAdjacentDigits(RowFen(row, empty))
    ensures RowFen(row, empty) != [] && IsDigit(RowFen(row, empty)[0]) ==> empty > 0 || (row != [] && row[0] == 0)
    decreases |row|
  {
    var z := if empty > 0 then [DigitChar(empty)] else [];
    if row == [] {
    } else if row[0] == 0 {
      RowFenShape(row[1..], empty + 1);
    } else {
      RowFenShape(row[1..], 0);
      var p := [PieceChar(row[0])];
      var t := RowFen(row[1..], 0);
      WidthAppend(p, t);
      WidthAppend(z, p + t);
      assert z + p + t == z + (p + t);
      var s := z + (p + t);
      forall i | 0 <= i < |s| - 1 ensures !(IsDigit(s[i]) && IsDigit(s[i + 1])) {
        if i >= |z| + 1 {
          assert s[i] == t[i - |z| - 1] && s[i + 1] == t[i - |z|];
        } else if i == |z| {
          assert s[i] == PieceChar(row[0]);
        } else {
          assert s[i + 1] == PieceChar(row[0]);
        }
      }
    }
  }

  lemma BoardRowsShape(b: Board, r: nat)
    requires ValidBoard(b) && r < 8
    ensures Width(RowFen(b[r], 0)) == 8 && NoAdjacentDigits(RowFen(b[r], 0))
  {
    RowFenShape(b[r], 0);
  }

  // ---------------------------------------------------------------------
  // The loops of the source

  /** The body of `numpy2fen`'s outer loop: one rank with its running count
      of empty squares. */
  method RankToFen(row: seq<int>) returns (fenRow: string)
    requires ValidRow(row) && |row| == 8
    ensures fenRow == RowFen(row, 0)
  {
    fenRow := [];
    var emptyCount: nat := 0;
    var y := 0;
    assert row[0..] == row;
    while y < 8
      invariant 0 <= y <= 8 && emptyCount <= y
      invariant fenRow + RowFen(row[y..], emptyCount) == RowFen(row, 0)
    {
      var rest := row[y..];
      assert rest[0] == row[y] && rest[1..] == row[y + 1..];
      if row[y] == 0 {
        emptyCount := emptyCount + 1;
      } else {
        var pending := if emptyCount > 0 then [DigitChar(emptyCount)] else [];
        assert RowFen(rest, emptyCount) == pending + [PieceChar(row[y])] + RowFen(row[y + 1..], 0);
        if emptyCount > 0 {
          fenRow := fenRow + [DigitChar(emptyCount)];
          emptyCount := 0;
        }
        fenRow := fenRow + [PieceChar(row[y])];
      }
      y := y + 1;
    }
    assert row[8..] == [];
    if emptyCount > 0 {
      fenRow := fenRow + [DigitChar(emptyCount)];
    } else {
      assert fenRow + [] == fenRow;
    }
  }

  /** `numpy2fen` as written: one text per rank, then the join. */
  method Numpy2Fen(b: Board) returns (fen: string)
    requires ValidBoard(b)
    ensures fen == BoardToFen(b)
  {
    var fenRows: seq<string> := [];
    var x := 0;
    while x < 8
      invariant 0 <= x <= 8
      invariant |fenRows| == x && forall i :: 0 <= i < x ==> fenRows[i] == RowFen(b[i], 0)
    {
      var fenRow := RankToFen(b[x]);
      fenRows := fenRows + [fenRow];
      x := x + 1;
    }
    assert fenRows == RowsFen(b, 0);
    fen := Join(fenRows, '/');
  }

  /** One rank of `fen2numpy` as written: the loop over its characters. */
  method ParseRow(s: string) returns (r: Outcome<seq<int>>)
    ensures r == RowParse(s)
  {
    var current: seq<int> := [];
    var j := 0;
    assert s[0..] == s;
    CatLeftUnit(RowParse(s));
    while j < |s|
      invariant 0 <= j <= |s|
      invariant RowParse(s) == Cat(Ok(current), RowParse(s[j..]))
    {
      assert s[j..][1..] == s[j + 1..];
      CatAssoc(Ok(current), CellParse(s[j]), RowParse(s[j + 1..]));
      if IsDigit(s[j]) {
        current := current + Zeros(DigitValue(s[j]));
      } else {
        match CharPiece(s[j])
        case Crash => return Crash;
        case Ok(v) => current := current + [v];
      }
      j := j + 1;
    }
    assert current + [] == current;
    r := Ok(current);
  }

  /** `fen2numpy` as written: split the placement field and parse rank by rank. */
  method Fen2Numpy(fen: string) returns (r: Outcome<Board>)
    ensures r == FenToBoard(fen)
  {
    var rows := Split(Split(fen, ' ')[0], '/');
    var board: seq<seq<int>> := [];
    var i := 0;
    assert rows[0..] == rows;
    CatLeftUnit(RowsParse(rows));
    while i < |rows|
      invariant 0 <= i <= |rows|
      invariant RowsParse(rows) == Cat(Ok(board), RowsParse(rows[i..]))
    {
      assert rows[i..][1..] == rows[i + 1..];
      var head := if RowParse(rows[i]).Ok? then Ok([RowParse(rows[i]).value]) else Crash;
      CatAssoc(Ok(board), head, RowsParse(rows[i + 1..]));
      var row := ParseRow(rows[i]);
      match row
      case Crash => return Crash;
      case Ok(cur) => board := board + [cur];
      i := i + 1;
    }
    assert rows[i..] == [];
    assert board + [] == board;
    r := if Rectangular(board) then Ok(board) else Crash;
  }
}
