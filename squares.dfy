/** Coordinate mapping between algebraic square names and numpy indices
    (`logic2array` / `array2logic`, src/neuralcheck/logic.py:62-90). Row index
    x = 8 - rank, column index y = file a..h as 0..7. */
module Squares {
  import opened Pieces

  datatype Pos = Pos(x: int, y: int)

  predicate OnBoard(p: Pos) { 0 <= p.x < 8 && 0 <= p.y < 8 }

  const Files: string := "abcdefgh"

  /** Positions `array2logic` can name with a one-digit rank ('0'..'9'). */
  predicate Nameable(p: Pos) { -1 <= p.x <= 8 && 0 <= p.y < 8 }

  function FileChar(y: int): char
    requires 0 <= y < 8
  {
    Files[y]
  }

  function RankChar(x: int): char
    requires -1 <= x <= 8
  {
    ('0' as int + 8 - x) as char
  }

  /** `array2logic`: file letter followed by the decimal rank 8 - x. */
  function ArrayToLogic(p: Pos): (s: string)
    requires Nameable(p)
    ensures |s| == 2 && s[0] in Files && '0' <= s[1] <= '9'
    ensures s[1] as int - '0' as int == 8 - p.x
  {
    [FileChar(p.y), RankChar(p.x)]
  }

  function FileIndex(c: char): Option<int>
  {
    if 'a' <= c <= 'h' then Some(c as int - 'a' as int) else None
  }

  /** `logic2array`: reads the first two characters; a missing character
      (IndexError), a non-digit rank (ValueError) or an unknown file (KeyError)
      is a crash. */
  function LogicToArray(s: string): (r: Outcome<Pos>)
    ensures r.Ok? ==> Nameable(r.value)
  {
    if |s| < 2 || !('0' <= s[1] <= '9') then Crash
    else match FileIndex(s[0])
      case None => Crash
      case Some(y) => Ok(Pos(8 - (s[1] as int - '0' as int), y))
  }

  lemma {:induction false} LogicToArrayRoundTrip(p: Pos)
    requires Nameable(p)
    ensures LogicToArray(ArrayToLogic(p)) == Ok(p)
  {
    var s := ArrayToLogic(p);
    assert s[0] == Files[p.y];
    assert FileIndex(s[0]) == Some(p.y);
  }

  lemma {:induction false} ArrayToLogicRoundTrip(s: string)
    requires LogicToArray(s).Ok?
    ensures ArrayToLogic(LogicToArray(s).value) == s[..2]
  {
    var p := LogicToArray(s).value;
    assert FileIndex(s[0]) == Some(p.y);
    assert Files[p.y] == s[0];
  }

  /** Distinct nameable positions have distinct names. */
  lemma NamesInjective(p: Pos, q: Pos)
    requires Nameable(p) && Nameable(q) && ArrayToLogic(p) == ArrayToLogic(q)
    ensures p == q
  {
    LogicToArrayRoundTrip(p);
    LogicToArrayRoundTrip(q);
  }

  /** The 64 squares in the order the engine scans the board: row 0 (rank 8)
      first, each row from file a to h. */
  function ScanPos(k: int): (p: Pos)
    requires 0 <= k < 64
    ensures OnBoard(p)
  {
    var x := RowOf(k);
    Pos(x, k - 8 * x)
  }

  /** The row of the k-th square in scan order, `k // 8`. */
  function RowOf(k: int): (x: int)
    requires 0 <= k < 64
    ensures 0 <= x < 8 && 8 * x <= k < 8 * x + 8
  {
    if k < 8 then 0 else 1 + RowOf(k - 8)
  }

  function ScanIndex(p: Pos): (k: int)
    requires OnBoard(p)
    ensures 0 <= k < 64 && ScanPos(k) == p
  {
    8 * p.x + p.y
  }
}
