// The board vocabulary shared by the Flask backend and the React client:
// both declare the same constants and the same grid of one-character cells.
module Rules {

  const BOARD_SIZE: int := 8
  const SHIP_SIZES: seq<nat> := [2, 2, 2, 3, 3, 4]
  const SHIP_SYMBOL: char := 'S'
  const HIT_SYMBOL: char := 'X'
  const MISS_SYMBOL: char := 'O'
  const EMPTY_SYMBOL: char := '~'

  datatype Option<T> = None | Some(value: T)

  /** A board as both programs hold it: a list of rows, each a list of cells. */
  type Grid = seq<seq<char>>

  datatype Coord = Coord(row: int, col: int)

  datatype Direction = H | V

  /** The board has BOARD_SIZE rows of BOARD_SIZE cells. */
  predicate IsGrid(g: Grid) {
    |g| == BOARD_SIZE && forall r :: 0 <= r < |g| ==> |g[r]| == BOARD_SIZE
  }

  predicate InBounds(p: Coord) {
    0 <= p.row < BOARD_SIZE && 0 <= p.col < BOARD_SIZE
  }

  function At(g: Grid, p: Coord): char
    requires IsGrid(g) && InBounds(p)
  {
    g[p.row][p.col]
  }

  /** `board[row][col] = ch`: one cell is written, no other cell changes. */
  function Set(g: Grid, p: Coord, ch: char): (g': Grid)
    requires IsGrid(g) && InBounds(p)
    ensures IsGrid(g')
    ensures At(g', p) == ch
    ensures forall q :: InBounds(q) && q != p ==> At(g', q) == At(g, q)
  {
    g[p.row := g[p.row][p.col := ch]]
  }

  /** Two boards that agree on every cell are the same board. */
  lemma GridExt(g1: Grid, g2: Grid)
    requires IsGrid(g1) && IsGrid(g2)
    requires forall q :: InBounds(q) ==> At(g1, q) == At(g2, q)
    ensures g1 == g2
  {
    forall r | 0 <= r < BOARD_SIZE
      ensures g1[r] == g2[r]
    {
      forall c | 0 <= c < BOARD_SIZE
        ensures g1[r][c] == g2[r][c]
      {
        assert At(g1, Coord(r, c)) == At(g2, Coord(r, c));
      }
    }
  }

  /** `create_board` / `createBoard`: a fresh board, every cell empty. */
  function CreateBoard(): (g: Grid)
    ensures IsGrid(g)
    ensures forall p :: InBounds(p) ==> At(g, p) == EMPTY_SYMBOL
  {
    seq(BOARD_SIZE, _ => seq(BOARD_SIZE, _ => EMPTY_SYMBOL))
  }

  /** Sum of a list of ship lengths, `sum(SHIP_SIZES)` in the backend. */
  function Sum(s: seq<nat>): nat {
    if s == [] then 0 else Sum(s[..|s| - 1]) + s[|s| - 1]
  }

  /** The number of ship segments in a full fleet. */
  function TotalSegments(): nat {
    Sum(SHIP_SIZES)
  }

  lemma TotalSegmentsIs16()
    ensures TotalSegments() == 16
  {
    var s := SHIP_SIZES;
    assert s[..5] == [2, 2, 2, 3, 3] && s[..4] == [2, 2, 2, 3] && s[..3] == [2, 2, 2];
    assert s[..2] == [2, 2] && s[..1] == [2] && s[..0] == [];
    assert Sum(s[..1]) == 2 by { assert s[..1][..0] == s[..0]; }
    assert Sum(s[..2]) == 4 by { assert s[..2][..1] == s[..1]; }
    assert Sum(s[..3]) == 6 by { assert s[..3][..2] == s[..2]; }
    assert Sum(s[..4]) == 9 by { assert s[..4][..3] == s[..3]; }
    assert Sum(s[..5]) == 12 by { assert s[..5][..4] == s[..4]; }
  }

  /** Number of cells of one row that hold `ch`. */
  function CountRow(s: seq<char>, ch: char): nat {
    if s == [] then 0 else (if s[0] == ch then 1 else 0) + CountRow(s[1..], ch)
  }

  /** Number of cells of the board that hold `ch`. */
  function CountOf(g: Grid, ch: char): nat {
    if g == [] then 0 else CountRow(g[0], ch) + CountOf(g[1..], ch)
  }

  lemma {:induction false} CountRowUpdate(s: seq<char>, i: nat, x: char, ch: char)
    requires i < |s|
    ensures CountRow(s[i := x], ch)
         == CountRow(s, ch) - (if s[i] == ch then 1 else 0) + (if x == ch then 1 else 0)
  {
    if i == 0 {
      assert s[i := x][1..] == s[1..];
    } else {
      assert s[i := x][1..] == s[1..][i - 1 := x];
      CountRowUpdate(s[1..], i - 1, x, ch);
    }
  }

  lemma {:induction false} CountOfUpdate(g: Grid, r: nat, row: seq<char>, ch: char)
    requires r < |g|
    ensures CountOf(g[r := row], ch) == CountOf(g, ch) - CountRow(g[r], ch) + CountRow(row, ch)
  {
    if r == 0 {
      assert g[r := row][1..] == g[1..];
    } else {
      assert g[r := row][1..] == g[1..][r - 1 := row];
      CountOfUpdate(g[1..], r - 1, row, ch);
    }
  }

  /** Writing one cell changes the count of `ch` by what left and what arrived. */
  lemma CountOfSet(g: Grid, p: Coord, x: char, ch: char)
    requires IsGrid(g) && InBounds(p)
    ensures CountOf(Set(g, p, x), ch)
         == CountOf(g, ch) - (if At(g, p) == ch then 1 else 0) + (if x == ch then 1 else 0)
  {
    CountRowUpdate(g[p.row], p.col, x, ch);
    CountOfUpdate(g, p.row, g[p.row][p.col := x], ch);
  }

  lemma {:induction false} CountRowZero(s: seq<char>, ch: char)
    ensures CountRow(s, ch) == 0 <==> forall c :: 0 <= c < |s| ==> s[c] != ch
  {
    if s != [] {
      CountRowZero(s[1..], ch);
      assert forall c :: 1 <= c < |s| ==> s[c] == s[1..][c - 1];
    }
  }

  /** No cell holds `ch` exactly when the count of `ch` is zero. */
  lemma {:induction false} CountOfZero(g: Grid, ch: char)
    ensures CountOf(g, ch) == 0
        <==> forall r, c :: 0 <= r < |g| && 0 <= c < |g[r]| ==> g[r][c] != ch
  {
    if g != [] {
      CountRowZero(g[0], ch);
      CountOfZero(g[1..], ch);
      assert forall r :: 1 <= r < |g| ==> g[r] == g[1..][r - 1];
    }
  }
}
