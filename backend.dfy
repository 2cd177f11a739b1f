// The Flask backend's board engine (Backend/app.py): ship placement, random
// fleet placement and the player's shot. The boards are lists the handlers
// change in place, so each one is a Board object whose `cells` the methods
// reassign cell by cell.
module Backend {
  import opened Rules

  /** One random draw of `place_ships_randomly`: a direction and an anchor cell. */
  datatype Draw = Draw(dir: Direction, anchor: Coord)

  /** The `result` field of a `/player_click` response. */
  datatype ClickResult = Win | Sunk | Hit | Continue

  /** A `/player_click` response: result, `player_turn` (absent on a win) and `player_hits`. */
  datatype ClickResponse = ClickResponse(result: ClickResult, playerTurn: Option<bool>, playerHits: int)

  /** The `player_turn` flag each kind of response carries. */
  function TurnFlag(result: ClickResult): Option<bool> {
    match result
    case Win => None
    case Sunk => Some(true)
    case Hit => Some(true)
    case Continue => Some(false)
  }

  /** The cells a ship of length `size` anchored at `anchor` covers, in the order they are recorded. */
  function Run(anchor: Coord, size: nat, dir: Direction): seq<Coord> {
    seq(size, i => if dir == H then Coord(anchor.row, anchor.col + i) else Coord(anchor.row + i, anchor.col))
  }

  /** The bounds test: `col + size <= BOARD_SIZE` across, `row + size <= BOARD_SIZE` down. */
  predicate Fits(anchor: Coord, size: nat, dir: Direction) {
    if dir == H then anchor.col + size <= BOARD_SIZE else anchor.row + size <= BOARD_SIZE
  }

  /** The placement test of both placement routines: in bounds, and every covered cell empty. */
  predicate CanPlace(g: Grid, anchor: Coord, size: nat, dir: Direction)
    requires IsGrid(g) && InBounds(anchor)
  {
    Fits(anchor, size, dir) && forall i :: 0 <= i < size ==> At(g, Run(anchor, size, dir)[i]) == EMPTY_SYMBOL
  }

  /** A run in bounds has `size` distinct cells, all on the board. */
  lemma RunShape(anchor: Coord, size: nat, dir: Direction)
    requires InBounds(anchor) && Fits(anchor, size, dir)
    ensures |Run(anchor, size, dir)| == size
    ensures forall q :: q in Run(anchor, size, dir) ==> InBounds(q)
    ensures Distinct(Run(anchor, size, dir))
  {
  }

  predicate Distinct(cs: seq<Coord>) {
    forall i, j :: 0 <= i < j < |cs| ==> cs[i] != cs[j]
  }

  /** Both directions of the placement test, stated on the cells of the run. */
  lemma CanPlaceIff(g: Grid, anchor: Coord, size: nat, dir: Direction)
    requires IsGrid(g) && InBounds(anchor)
    ensures CanPlace(g, anchor, size, dir)
        <==> Fits(anchor, size, dir)
             && forall q :: q in Run(anchor, size, dir) ==> InBounds(q) && At(g, q) == EMPTY_SYMBOL
  {
    var run := Run(anchor, size, dir);
    if CanPlace(g, anchor, size, dir) {
      forall q | q in run ensures InBounds(q) && At(g, q) == EMPTY_SYMBOL {
        var i :| 0 <= i < |run| && run[i] == q;
      }
    }
  }

  /** The board after writing `ch` into each of `cs`, one after the other. */
  function Mark(g: Grid, cs: seq<Coord>, ch: char): (g': Grid)
    requires IsGrid(g) && forall q :: q in cs ==> InBounds(q)
    ensures IsGrid(g')
    ensures forall q :: InBounds(q) ==> At(g', q) == if q in cs then ch else At(g, q)
  {
    if cs == [] then g
    else
      assert cs == cs[..|cs| - 1] + [cs[|cs| - 1]];
      Set(Mark(g, cs[..|cs| - 1], ch), cs[|cs| - 1], ch)
  }

  lemma MarkAppend(g: Grid, a: seq<Coord>, b: seq<Coord>, ch: char)
    requires IsGrid(g) && (forall q :: q in a ==> InBounds(q)) && (forall q :: q in b ==> InBounds(q))
    ensures Mark(Mark(g, a, ch), b, ch) == Mark(g, a + b, ch)
  {
    GridExt(Mark(Mark(g, a, ch), b, ch), Mark(g, a + b, ch));
  }

  /** Writing `ch` over distinct cells that did not hold it adds one `ch` per cell. */
  lemma {:induction false} MarkCount(g: Grid, cs: seq<Coord>, ch: char)
    requires IsGrid(g) && forall q :: q in cs ==> InBounds(q)
    requires Distinct(cs) && forall q :: q in cs ==> At(g, q) != ch
    ensures CountOf(Mark(g, cs, ch), ch) == CountOf(g, ch) + |cs|
  {
    if cs != [] {
      var init, last := cs[..|cs| - 1], cs[|cs| - 1];
      assert cs == init + [last];
      MarkCount(g, init, ch);
      assert last !in init;
      CountOfSet(Mark(g, init, ch), last, ch, ch);
    }
  }

  /** A successful placement changes exactly the cells of the run, each from empty to ship. */
  lemma PlacementChangesOnlyRun(g: Grid, anchor: Coord, size: nat, dir: Direction)
    requires IsGrid(g) && InBounds(anchor) && CanPlace(g, anchor, size, dir)
    ensures forall q :: q in Run(anchor, size, dir) ==> InBounds(q)
    ensures forall q :: InBounds(q) && q in Run(anchor, size, dir) ==>
      At(g, q) == EMPTY_SYMBOL && At(Mark(g, Run(anchor, size, dir), SHIP_SYMBOL), q) == SHIP_SYMBOL
    ensures forall q :: InBounds(q) && q !in Run(anchor, size, dir) ==>
      At(Mark(g, Run(anchor, size, dir), SHIP_SYMBOL), q) == At(g, q)
  {
    CanPlaceIff(g, anchor, size, dir);
  }

  /** A successful placement adds exactly `size` ship segments to the board. */
  lemma PlacementAddsSegments(g: Grid, anchor: Coord, size: nat, dir: Direction)
    requires IsGrid(g) && InBounds(anchor) && CanPlace(g, anchor, size, dir)
    ensures forall q :: q in Run(anchor, size, dir) ==> InBounds(q)
    ensures CountOf(Mark(g, Run(anchor, size, dir), SHIP_SYMBOL), SHIP_SYMBOL) == CountOf(g, SHIP_SYMBOL) + size
  {
    CanPlaceIff(g, anchor, size, dir);
    RunShape(anchor, size, dir);
    MarkCount(g, Run(anchor, size, dir), SHIP_SYMBOL);
  }

  /** All recorded ship coordinates, ship after ship. */
  function Flatten(ships: seq<seq<Coord>>): seq<Coord> {
    if ships == [] then [] else Flatten(ships[..|ships| - 1]) + ships[|ships| - 1]
  }

  lemma {:induction false} InFlatten(ships: seq<seq<Coord>>, k: nat, q: Coord)
    requires k < |ships| && q in ships[k]
    ensures q in Flatten(ships)
  {
    if k < |ships| - 1 {
      InFlatten(ships[..|ships| - 1], k, q);
    }
  }

  predicate ShipsInBounds(ships: seq<seq<Coord>>) {
    forall k, q :: 0 <= k < |ships| && q in ships[k] ==> InBounds(q)
  }

  /** `all(board[r][c] == HIT_SYMBOL for r, c in ship)`. */
  predicate AllHit(g: Grid, ship: seq<Coord>)
    requires IsGrid(g) && forall q :: q in ship ==> InBounds(q)
  {
    forall q :: q in ship ==> At(g, q) == HIT_SYMBOL
  }

  /** Some recorded ship contains `p` and has every coordinate hit. */
  predicate SunkAt(g: Grid, ships: seq<seq<Coord>>, p: Coord)
    requires IsGrid(g) && ShipsInBounds(ships)
  {
    exists k :: 0 <= k < |ships| && p in ships[k] && AllHit(g, ships[k])
  }

  /** The computer board after the player's shot: a ship cell becomes a hit, any other cell stays. */
  function ShotOnComputer(g: Grid, p: Coord): (g': Grid)
    requires IsGrid(g) && InBounds(p)
    ensures IsGrid(g')
    ensures At(g', p) == if At(g, p) == SHIP_SYMBOL then HIT_SYMBOL else At(g, p)
    ensures forall q :: InBounds(q) && q != p ==> At(g', q) == At(g, q)
  {
    if At(g, p) == SHIP_SYMBOL then Set(g, p, HIT_SYMBOL) else g
  }

  /** The player's view after the shot: hit if the computer cell held a ship, miss otherwise. */
  function ShotOnView(view: Grid, g: Grid, p: Coord): (view': Grid)
    requires IsGrid(view) && IsGrid(g) && InBounds(p)
    ensures IsGrid(view')
    ensures At(view', p) == if At(g, p) == SHIP_SYMBOL then HIT_SYMBOL else MISS_SYMBOL
    ensures forall q :: InBounds(q) && q != p ==> At(view', q) == At(view, q)
  {
    Set(view, p, if At(g, p) == SHIP_SYMBOL then HIT_SYMBOL else MISS_SYMBOL)
  }

  /** A shot removes one ship segment from the computer board exactly when it hits. */
  lemma ShotRemovesHitSegment(g: Grid, p: Coord)
    requires IsGrid(g) && InBounds(p)
    ensures CountOf(ShotOnComputer(g, p), SHIP_SYMBOL)
         == CountOf(g, SHIP_SYMBOL) - (if At(g, p) == SHIP_SYMBOL then 1 else 0)
  {
    if At(g, p) == SHIP_SYMBOL {
      CountOfSet(g, p, HIT_SYMBOL, SHIP_SYMBOL);
    }
  }

  /** What a view cell may show given the computer cell beneath it. */
  predicate CellAgrees(actual: char, shown: char) {
    (shown == EMPTY_SYMBOL && (actual == EMPTY_SYMBOL || actual == SHIP_SYMBOL))
    || (shown == HIT_SYMBOL && actual == HIT_SYMBOL)
    || (shown == MISS_SYMBOL && actual == EMPTY_SYMBOL)
  }

  /** The player's view is a faithful partial picture of the computer board. */
  ghost predicate ViewAgrees(g: Grid, view: Grid)
    requires IsGrid(g) && IsGrid(view)
  {
    forall q :: InBounds(q) ==> CellAgrees(At(g, q), At(view, q))
  }

  /** At the start: a fresh view over a board of empty and ship cells agrees with it. */
  lemma FreshViewAgrees(g: Grid)
    requires IsGrid(g)
    requires forall q :: InBounds(q) ==> At(g, q) == EMPTY_SYMBOL || At(g, q) == SHIP_SYMBOL
    ensures ViewAgrees(g, CreateBoard())
  {
  }

  /** A shot at a cell the view still shows as empty keeps the view faithful. */
  lemma FreshShotKeepsViewAgreement(g: Grid, view: Grid, p: Coord)
    requires IsGrid(g) && IsGrid(view) && InBounds(p)
    requires ViewAgrees(g, view) && At(view, p) == EMPTY_SYMBOL
    ensures ViewAgrees(ShotOnComputer(g, p), ShotOnView(view, g, p))
  {
    var g', view' := ShotOnComputer(g, p), ShotOnView(view, g, p);
    forall q | InBounds(q) ensures CellAgrees(At(g', q), At(view', q)) {
      if q != p {
        assert CellAgrees(At(g, q), At(view, q));
      }
    }
  }

  /** Without the client's guard, shooting a cell already hit turns the shown hit into a miss. */
  lemma ReshotHitShowsMiss(g: Grid, view: Grid, p: Coord)
    requires IsGrid(g) && IsGrid(view) && InBounds(p)
    requires At(g, p) == HIT_SYMBOL && At(view, p) == HIT_SYMBOL
    ensures ShotOnComputer(g, p) == g
    ensures At(ShotOnView(view, g, p), p) == MISS_SYMBOL
    ensures !ViewAgrees(ShotOnComputer(g, p), ShotOnView(view, g, p))
  {
    assert !CellAgrees(At(g, p), At(ShotOnView(view, g, p), p));
  }

  class Board {
    var cells: Grid

    ghost predicate Valid()
      reads this
    {
      IsGrid(cells)
    }

    /** `create_board()`. */
    constructor ()
      ensures Valid() && cells == CreateBoard()
      ensures forall q :: InBounds(q) ==> At(cells, q) == EMPTY_SYMBOL
    {
      cells := CreateBoard();
    }

    /** The write loop `for i in range(size): board[..][..] = SHIP_SYMBOL`. */
    method MarkShip(run: seq<Coord>)
      requires Valid() && forall q :: q in run ==> InBounds(q)
      modifies this
      ensures Valid()
      ensures cells == Mark(old(cells), run, SHIP_SYMBOL)
    {
      var i := 0;
      while i < |run|
        invariant 0 <= i <= |run| && Valid()
        invariant cells == Mark(old(cells), run[..i], SHIP_SYMBOL)
      {
        assert run[..i + 1][..i] == run[..i];
        cells := Set(cells, run[i], SHIP_SYMBOL);
        i := i + 1;
      }
      assert run[..i] == run;
    }

    /**
     * The `/place_ship` handler: place one ship of `size` at `anchor` going `dir`.
     * Returns whether it succeeded; on failure the board is left as it was.
     */
    method PlaceShip(anchor: Coord, size: nat, dir: Direction) returns (placed: bool)
      requires Valid() && InBounds(anchor)
      modifies this
      ensures Valid()
      ensures placed == CanPlace(old(cells), anchor, size, dir)
      ensures placed ==> forall q :: q in Run(anchor, size, dir) ==> InBounds(q)
      ensures cells == if placed then Mark(old(cells), Run(anchor, size, dir), SHIP_SYMBOL) else old(cells)
    {
      placed := false;
      var run := Run(anchor, size, dir);
      if Fits(anchor, size, dir) {
        if forall i | 0 <= i < size :: At(cells, run[i]) == EMPTY_SYMBOL {
          RunShape(anchor, size, dir);
          MarkShip(run);
          placed := true;
        }
      }
    }

    /**
     * The inner `while not placed` loop of `place_ships_randomly`: try the draws from `from`
     * on, one attempt each, until one places a ship of `size`. Returns whether one did and
     * the index it stopped at: the draw that placed the ship, or the end of the draws.
     */
    method PlaceNextShip(draws: seq<Draw>, from: nat, size: nat) returns (placed: bool, d: nat)
      requires Valid() && from <= |draws|
      requires forall k :: 0 <= k < |draws| ==> InBounds(draws[k].anchor)
      modifies this
      ensures Valid() && from <= d <= |draws|
      ensures forall e :: from <= e < d ==> Misses(old(cells), draws, e, size)
      ensures placed ==>
        d < |draws| && CanPlace(old(cells), draws[d].anchor, size, draws[d].dir)
        && (forall q :: q in Run(draws[d].anchor, size, draws[d].dir) ==> InBounds(q))
        && cells == Mark(old(cells), Run(draws[d].anchor, size, draws[d].dir), SHIP_SYMBOL)
      ensures !placed ==> d == |draws| && cells == old(cells)
    {
      placed, d := false, from;
      while d < |draws|
        invariant from <= d <= |draws| && Valid() && cells == old(cells)
        invariant forall e :: from <= e < d ==> Misses(old(cells), draws, e, size)
      {
        placed := PlaceShip(draws[d].anchor, size, draws[d].dir);
        if placed {
          return;
        }
        d := d + 1;
      }
    }

    /**
     * The outer loop `for size in SHIP_SIZES` of `place_ships_randomly`: search a placement
     * for each ship in turn, each search starting at the draw after the previous ship's.
     * Stops early only when a search runs out of draws; `d` is where the draws stopped.
     */
    method PlaceEachShip(draws: seq<Draw>) returns (ships: seq<seq<Coord>>, ghost used: seq<nat>, ghost boards: seq<Grid>, ghost d: nat)
      requires Valid()
      requires forall k :: 0 <= k < |draws| ==> InBounds(draws[k].anchor)
      modifies this
      ensures Valid() && d <= |draws| && (|ships| < |SHIP_SIZES| ==> d == |draws|)
      ensures FleetTrace(old(cells), ships, draws, used, boards, d) && boards[|ships|] == cells
    {
      ships, used, boards := [], [], [cells];
      var from, placed := 0, true;
      while placed && |ships| < |SHIP_SIZES|
        invariant from <= |draws| && (placed || from == |draws|)
        invariant FleetTrace(old(cells), ships, draws, used, boards, from) && boards[|ships|] == cells
        decreases |SHIP_SIZES| - |ships| + (if placed then 1 else 0)
      {
        var size := SHIP_SIZES[|ships|];
        var at;
        placed, at := PlaceNextShip(draws, from, size);
        TraceAdvance(old(cells), ships, draws, used, boards, from, at);
        if placed {
          TraceStep(old(cells), ships, draws, used, boards, at);
          ships, used, boards := ships + [Run(draws[at].anchor, size, draws[at].dir)], used + [at], boards + [cells];
          from := at + 1;
        } else {
          from := at;
        }
      }
      d := from;
    }


    /**
     * `place_ships_randomly`: place the fleet SHIP_SIZES in order, retrying each ship on
     * fresh draws until one fits. Returns the coordinate list of each ship placed; when the
     * draws run out first, the ships placed so far. The ghost `used` names the draw that
     * placed each ship and `boards` the board as it stood before each ship (and, last, the
     * final board).
     */
    method PlaceShipsRandomly(draws: seq<Draw>) returns (ships: seq<seq<Coord>>, ghost used: seq<nat>, ghost boards: seq<Grid>)
      requires Valid()
      requires forall k :: 0 <= k < |draws| ==> InBounds(draws[k].anchor)
      modifies this
      ensures Valid()
      ensures |ships| <= |SHIP_SIZES| && ShipsInBounds(ships)
      ensures forall k :: 0 <= k < |ships| ==> |ships[k]| == SHIP_SIZES[k]
      ensures |used| == |ships| && forall k :: 0 <= k < |used| ==> used[k] < |draws|
      ensures forall j, k :: 0 <= j < k < |used| ==> used[j] < used[k]
      ensures forall k :: 0 <= k < |ships| ==>
        ships[k] == Run(draws[used[k]].anchor, SHIP_SIZES[k], draws[used[k]].dir)
      ensures |boards| == |ships| + 1 && boards[0] == old(cells) && boards[|ships|] == cells
      ensures forall k :: 0 <= k < |boards| ==> IsGrid(boards[k])
      ensures forall k :: 0 <= k < |ships| ==>
        CanPlace(boards[k], draws[used[k]].anchor, SHIP_SIZES[k], draws[used[k]].dir)
        && boards[k + 1] == Mark(boards[k], ships[k], SHIP_SYMBOL)
      ensures forall k, e :: 0 <= k < |ships| && Start(used, k) <= e < used[k] ==>
        Misses(boards[k], draws, e, SHIP_SIZES[k])
      ensures |ships| < |SHIP_SIZES| ==> forall e :: Start(used, |ships|) <= e < |draws| ==>
        Misses(cells, draws, e, SHIP_SIZES[|ships|])
      ensures forall k, q :: 0 <= k < |ships| && q in ships[k] ==> old(At(cells, q)) == EMPTY_SYMBOL
      ensures forall j, k, q :: 0 <= j < k < |ships| && q in ships[j] ==> q !in ships[k]
      ensures forall q :: q in Flatten(ships) ==> InBounds(q)
      ensures cells == Mark(old(cells), Flatten(ships), SHIP_SYMBOL)
      ensures CountOf(cells, SHIP_SYMBOL) == old(CountOf(cells, SHIP_SYMBOL)) + Sum(SHIP_SIZES[..|ships|])
      ensures |ships| == |SHIP_SIZES| ==>
        CountOf(cells, SHIP_SYMBOL) == old(CountOf(cells, SHIP_SYMBOL)) + TotalSegments()
    {
      ghost var d;
      ships, used, boards, d := PlaceEachShip(draws);
      TraceFacts(old(cells), cells, ships, draws, used, boards, d);
      TraceHistory(old(cells), cells, ships, draws, used, boards, d);
    }

    /**
     * The scan `for ship in computer_ships1: if (row, col) in ship: if all(...)`:
     * whether some ship through `target` has every coordinate hit.
     */
    method FindSunk(ships: seq<seq<Coord>>, target: Coord) returns (sunk: bool)
      requires Valid() && ShipsInBounds(ships)
      ensures sunk == SunkAt(cells, ships, target)
    {
      var k := 0;
      while k < |ships|
        invariant 0 <= k <= |ships|
        invariant forall j :: 0 <= j < k ==> !(target in ships[j] && AllHit(cells, ships[j]))
      {
        if target in ships[k] && AllHit(cells, ships[k]) {
          return true;
        }
        k := k + 1;
      }
      return false;
    }

    /**
     * The `/player_click` handler on the computer board `this` and the player's view `view`:
     * a ship cell becomes a hit on both and counts; anything else is a miss on the view only.
     */
    method PlayerClick(view: Board, target: Coord, ships: seq<seq<Coord>>, hits: int) returns (resp: ClickResponse)
      requires Valid() && view.Valid() && view != this
      requires InBounds(target) && ShipsInBounds(ships)
      modifies this, view
      ensures Valid() && view.Valid()
      ensures cells == ShotOnComputer(old(cells), target)
      ensures view.cells == ShotOnView(old(view.cells), old(cells), target)
      ensures resp.playerTurn == TurnFlag(resp.result)
      ensures old(At(cells, target)) == SHIP_SYMBOL ==>
        resp.playerHits == hits + 1
        && resp.result == if hits + 1 == TotalSegments() then Win
                          else if SunkAt(cells, ships, target) then Sunk
                          else Hit
      ensures old(At(cells, target)) != SHIP_SYMBOL ==>
        resp.playerHits == hits && resp.result == Continue
      ensures CountOf(old(cells), SHIP_SYMBOL) + hits == TotalSegments() ==>
        CountOf(cells, SHIP_SYMBOL) + resp.playerHits == TotalSegments()
      ensures CountOf(old(cells), SHIP_SYMBOL) + hits == TotalSegments() && old(At(cells, target)) == SHIP_SYMBOL ==>
        (resp.result == Win <==> CountOf(cells, SHIP_SYMBOL) == 0)
    {
      ShotRemovesHitSegment(cells, target);
      if At(cells, target) == SHIP_SYMBOL {
        view.cells := Set(view.cells, target, HIT_SYMBOL);
        cells := Set(cells, target, HIT_SYMBOL);
        var playerHits := hits + 1;
        if playerHits == TotalSegments() {
          return ClickResponse(Win, None, playerHits);
        }
        var sunk := FindSunk(ships, target);
        if sunk {
          return ClickResponse(Sunk, Some(true), playerHits);
        }
        return ClickResponse(Hit, Some(true), playerHits);
      } else {
        view.cells := Set(view.cells, target, MISS_SYMBOL);
        return ClickResponse(Continue, Some(false), hits);
      }
    }
  }

  /** Ship k has length SHIP_SIZES[k], lies on the board and is the run of one of the draws. */
  ghost predicate FleetShaped(ships: seq<seq<Coord>>, draws: seq<Draw>) {
    |ships| <= |SHIP_SIZES|
    && (forall k :: 0 <= k < |ships| ==> |ships[k]| == SHIP_SIZES[k])
    && (forall k :: 0 <= k < |ships| ==>
          exists e :: 0 <= e < |draws| && ships[k] == Run(draws[e].anchor, SHIP_SIZES[k], draws[e].dir))
    && ShipsInBounds(ships)
  }

  /** Every ship covers cells that were empty on `g0`, and no two ships share a cell. */
  ghost predicate FleetOverEmpty(g0: Grid, ships: seq<seq<Coord>>)
    requires IsGrid(g0) && ShipsInBounds(ships)
  {
    (forall k, q :: 0 <= k < |ships| && q in ships[k] ==> At(g0, q) == EMPTY_SYMBOL)
    && (forall j, k, q :: 0 <= j < k < |ships| && q in ships[j] ==> q !in ships[k])
  }

  /** `g` is `g0` with exactly the ships' cells marked, and holds their segments on top of g0's. */
  ghost predicate FleetMarked(g0: Grid, g: Grid, ships: seq<seq<Coord>>)
    requires IsGrid(g0)
  {
    (forall q :: q in Flatten(ships) ==> InBounds(q))
    && g == Mark(g0, Flatten(ships), SHIP_SYMBOL)
    && |ships| <= |SHIP_SIZES|
    && CountOf(g, SHIP_SYMBOL) == CountOf(g0, SHIP_SYMBOL) + Sum(SHIP_SIZES[..|ships|])
  }

  /** What `place_ships_randomly` has achieved so far on a board that started as `g0`. */
  ghost predicate FleetPlaced(g0: Grid, g: Grid, ships: seq<seq<Coord>>, draws: seq<Draw>)
    requires IsGrid(g0)
  {
    IsGrid(g) && FleetShaped(ships, draws) && FleetOverEmpty(g0, ships) && FleetMarked(g0, g, ships)
  }

  /** Where the search for ship `k` starts: the draw after the one that placed ship `k - 1`. */
  function Start(used: seq<nat>, k: nat): nat
    requires k <= |used|
  {
    if k == 0 then 0 else used[k - 1] + 1
  }

  /**
   * The bookkeeping of `place_ships_randomly` after `d` draws: one draw index per ship,
   * in increasing order and all among the draws tried, and one board per ship plus the
   * current one.
   */
  ghost predicate TraceIndexed(ships: seq<seq<Coord>>, draws: seq<Draw>, used: seq<nat>, boards: seq<Grid>, d: nat) {
    |ships| <= |SHIP_SIZES| && d <= |draws| && |used| == |ships| && |boards| == |ships| + 1
    && (forall k :: 0 <= k < |boards| ==> IsGrid(boards[k]))
    && (forall j, k :: 0 <= j < k < |used| ==> used[j] < used[k])
    && (forall k :: 0 <= k < |used| ==> used[k] < d)
  }

  /** Draw `used[k]` fits on `boards[k]`, ship `k` is its run, and marking it gives `boards[k + 1]`. */
  ghost predicate TracePlaced(ships: seq<seq<Coord>>, draws: seq<Draw>, used: seq<nat>, boards: seq<Grid>, d: nat)
    requires forall k :: 0 <= k < |draws| ==> InBounds(draws[k].anchor)
    requires TraceIndexed(ships, draws, used, boards, d)
  {
    forall k :: 0 <= k < |ships| ==>
      ships[k] == Run(draws[used[k]].anchor, SHIP_SIZES[k], draws[used[k]].dir)
      && CanPlace(boards[k], draws[used[k]].anchor, SHIP_SIZES[k], draws[used[k]].dir)
      && (forall q :: q in ships[k] ==> InBounds(q))
      && boards[k + 1] == Mark(boards[k], ships[k], SHIP_SYMBOL)
  }

  /** Draw `e` does not fit a ship of `size` on `g`. */
  predicate Misses(g: Grid, draws: seq<Draw>, e: nat, size: nat)
    requires IsGrid(g) && e < |draws| && InBounds(draws[e].anchor)
  {
    !CanPlace(g, draws[e].anchor, size, draws[e].dir)
  }

  /** Every draw tried for ship `k` before the one that placed it failed on `boards[k]`. */
  ghost predicate TraceSkipped(ships: seq<seq<Coord>>, draws: seq<Draw>, used: seq<nat>, boards: seq<Grid>, d: nat)
    requires forall k :: 0 <= k < |draws| ==> InBounds(draws[k].anchor)
    requires TraceIndexed(ships, draws, used, boards, d)
  {
    forall k, e :: 0 <= k < |ships| && Start(used, k) <= e < used[k] ==>
      Misses(boards[k], draws, e, SHIP_SIZES[k])
  }

  /** Every draw tried since the last ship was placed failed for the next one. */
  ghost predicate TraceSearching(ships: seq<seq<Coord>>, draws: seq<Draw>, used: seq<nat>, boards: seq<Grid>, d: nat)
    requires forall k :: 0 <= k < |draws| ==> InBounds(draws[k].anchor)
    requires TraceIndexed(ships, draws, used, boards, d)
  {
    |ships| < |SHIP_SIZES| ==> forall e :: Start(used, |ships|) <= e < d ==>
      Misses(boards[|ships|], draws, e, SHIP_SIZES[|ships|])
  }

  /** The history of `place_ships_randomly` after `d` draws on a board that started as `g0`. */
  ghost predicate FleetTrace(g0: Grid, ships: seq<seq<Coord>>, draws: seq<Draw>, used: seq<nat>, boards: seq<Grid>, d: nat)
    requires forall k :: 0 <= k < |draws| ==> InBounds(draws[k].anchor)
  {
    TraceIndexed(ships, draws, used, boards, d) && boards[0] == g0
    && TracePlaced(ships, draws, used, boards, d)
    && TraceSkipped(ships, draws, used, boards, d)
    && TraceSearching(ships, draws, used, boards, d)
  }

  /**
   * Replaying the recorded placements one by one rebuilds the fleet: the ships are shaped,
   * lie over cells empty on `g0`, do not overlap, and the last board is `g0` with them marked.
   */
  lemma {:induction false} TraceBuildsFleet(g0: Grid, ships: seq<seq<Coord>>, draws: seq<Draw>,
                                            used: seq<nat>, boards: seq<Grid>, d: nat)
    requires IsGrid(g0) && forall k :: 0 <= k < |draws| ==> InBounds(draws[k].anchor)
    requires TraceIndexed(ships, draws, used, boards, d) && boards[0] == g0
    requires TracePlaced(ships, draws, used, boards, d)
    ensures FleetPlaced(g0, boards[|ships|], ships, draws)
  {
    var n := |ships|;
    if n == 0 {
      assert Sum(SHIP_SIZES[..0]) == 0 && Mark(g0, [], SHIP_SYMBOL) == g0;
    } else {
      var ships0, used0, boards0 := ships[..n - 1], used[..n - 1], boards[..n];
      TracePrefix(ships, draws, used, boards, d);
      TraceBuildsFleet(g0, ships0, draws, used0, boards0, d);
      var e := used[n - 1];
      SplitLast(ships);
      FleetStep(g0, boards[n - 1], ships0, draws, e, boards[n], ships);
    }
  }

  lemma SplitLast<T>(s: seq<T>)
    requires |s| > 0
    ensures s[..|s| - 1] + [s[|s| - 1]] == s
  {
  }

  /** Dropping the last ship keeps the bookkeeping and the recorded placements of the others. */
  lemma TracePrefix(ships: seq<seq<Coord>>, draws: seq<Draw>, used: seq<nat>, boards: seq<Grid>, d: nat)
    requires forall k :: 0 <= k < |draws| ==> InBounds(draws[k].anchor)
    requires TraceIndexed(ships, draws, used, boards, d) && TracePlaced(ships, draws, used, boards, d)
    requires |ships| > 0
    ensures TraceIndexed(ships[..|ships| - 1], draws, used[..|ships| - 1], boards[..|ships|], d)
    ensures TracePlaced(ships[..|ships| - 1], draws, used[..|ships| - 1], boards[..|ships|], d)
  {
    var n := |ships|;
    var ships0, used0, boards0 := ships[..n - 1], used[..n - 1], boards[..n];
    assert forall k :: 0 <= k < n - 1 ==> ships0[k] == ships[k] && used0[k] == used[k];
    assert forall k :: 0 <= k < n ==> boards0[k] == boards[k];
    assert TraceIndexed(ships0, draws, used0, boards0, d);
  }

  /** The fleet the history after the last draw built. */
  lemma TraceFacts(g0: Grid, g: Grid, ships: seq<seq<Coord>>, draws: seq<Draw>, used: seq<nat>, boards: seq<Grid>, d: nat)
    requires IsGrid(g0) && forall k :: 0 <= k < |draws| ==> InBounds(draws[k].anchor)
    requires FleetTrace(g0, ships, draws, used, boards, d) && boards[|ships|] == g
    requires |ships| < |SHIP_SIZES| ==> d == |draws|
    ensures |boards| == |ships| + 1 && IsGrid(g) && g == boards[|ships|]
    ensures |ships| <= |SHIP_SIZES| && ShipsInBounds(ships)
    ensures forall k :: 0 <= k < |ships| ==> |ships[k]| == SHIP_SIZES[k]
    ensures forall k, q :: 0 <= k < |ships| && q in ships[k] ==> At(g0, q) == EMPTY_SYMBOL
    ensures forall j, k, q :: 0 <= j < k < |ships| && q in ships[j] ==> q !in ships[k]
    ensures forall q :: q in Flatten(ships) ==> InBounds(q)
    ensures g == Mark(g0, Flatten(ships), SHIP_SYMBOL)
    ensures CountOf(g, SHIP_SYMBOL) == CountOf(g0, SHIP_SYMBOL) + Sum(SHIP_SIZES[..|ships|])
    ensures |ships| == |SHIP_SIZES| ==>
      CountOf(g, SHIP_SYMBOL) == CountOf(g0, SHIP_SYMBOL) + TotalSegments()
  {
    TraceBuildsFleet(g0, ships, draws, used, boards, d);
    if |ships| == |SHIP_SIZES| {
      assert SHIP_SIZES[..|ships|] == SHIP_SIZES;
    }
  }

  /** The history after the last draw, spelled out clause by clause. */
  lemma TraceHistory(g0: Grid, g: Grid, ships: seq<seq<Coord>>, draws: seq<Draw>, used: seq<nat>, boards: seq<Grid>, d: nat)
    requires forall k :: 0 <= k < |draws| ==> InBounds(draws[k].anchor)
    requires FleetTrace(g0, ships, draws, used, boards, d) && boards[|ships|] == g
    requires |ships| < |SHIP_SIZES| ==> d == |draws|
    ensures |used| == |ships| && forall k :: 0 <= k < |used| ==> used[k] < |draws|
    ensures forall j, k :: 0 <= j < k < |used| ==> used[j] < used[k]
    ensures |boards| == |ships| + 1 && boards[0] == g0 && |ships| <= |SHIP_SIZES|
    ensures forall k :: 0 <= k < |boards| ==> IsGrid(boards[k])
    ensures forall k :: 0 <= k < |ships| ==>
      ships[k] == Run(draws[used[k]].anchor, SHIP_SIZES[k], draws[used[k]].dir)
      && CanPlace(boards[k], draws[used[k]].anchor, SHIP_SIZES[k], draws[used[k]].dir)
      && (forall q :: q in ships[k] ==> InBounds(q))
      && boards[k + 1] == Mark(boards[k], ships[k], SHIP_SYMBOL)
    ensures forall k, e :: 0 <= k < |ships| && Start(used, k) <= e < used[k] ==>
      Misses(boards[k], draws, e, SHIP_SIZES[k])
    ensures |ships| < |SHIP_SIZES| ==> forall e :: Start(used, |ships|) <= e < |draws| ==>
      Misses(g, draws, e, SHIP_SIZES[|ships|])
  {
  }

  /** Draws that all fail for the next ship extend its search. */
  lemma TraceAdvance(g0: Grid, ships: seq<seq<Coord>>, draws: seq<Draw>, used: seq<nat>, boards: seq<Grid>,
                     from: nat, d: nat)
    requires forall k :: 0 <= k < |draws| ==> InBounds(draws[k].anchor)
    requires FleetTrace(g0, ships, draws, used, boards, from) && |ships| < |SHIP_SIZES| && from <= d <= |draws|
    requires forall e :: from <= e < d ==> Misses(boards[|ships|], draws, e, SHIP_SIZES[|ships|])
    ensures FleetTrace(g0, ships, draws, used, boards, d)
  {
    assert TraceIndexed(ships, draws, used, boards, d);
    assert TracePlaced(ships, draws, used, boards, d);
    assert TraceSkipped(ships, draws, used, boards, d);
  }

  /** A draw that places the next ship ends its search and records the ship and the new board. */
  lemma TraceStep(g0: Grid, ships: seq<seq<Coord>>, draws: seq<Draw>, used: seq<nat>, boards: seq<Grid>, d: nat)
    requires forall k :: 0 <= k < |draws| ==> InBounds(draws[k].anchor)
    requires FleetTrace(g0, ships, draws, used, boards, d) && |ships| < |SHIP_SIZES| && d < |draws|
    requires CanPlace(boards[|ships|], draws[d].anchor, SHIP_SIZES[|ships|], draws[d].dir)
    ensures forall q :: q in Run(draws[d].anchor, SHIP_SIZES[|ships|], draws[d].dir) ==> InBounds(q)
    ensures FleetTrace(g0, ships + [Run(draws[d].anchor, SHIP_SIZES[|ships|], draws[d].dir)], draws, used + [d],
                       boards + [Mark(boards[|ships|], Run(draws[d].anchor, SHIP_SIZES[|ships|], draws[d].dir), SHIP_SYMBOL)],
                       d + 1)
  {
    var n := |ships|;
    var run := Run(draws[d].anchor, SHIP_SIZES[n], draws[d].dir);
    CanPlaceIff(boards[n], draws[d].anchor, SHIP_SIZES[n], draws[d].dir);
    var ships', used' := ships + [run], used + [d];
    var boards' := boards + [Mark(boards[n], run, SHIP_SYMBOL)];
    TraceStepPlaced(ships, draws, used, boards, d);
    TraceStepSkipped(ships, draws, used, boards, d, run, Mark(boards[n], run, SHIP_SYMBOL));
    assert Start(used', n + 1) == d + 1;
    assert TraceSearching(ships', draws, used', boards', d + 1);
  }

  lemma TraceStepIndexed(ships: seq<seq<Coord>>, draws: seq<Draw>, used: seq<nat>, boards: seq<Grid>, d: nat,
                         run: seq<Coord>, g: Grid)
    requires TraceIndexed(ships, draws, used, boards, d) && |ships| < |SHIP_SIZES| && d < |draws| && IsGrid(g)
    ensures TraceIndexed(ships + [run], draws, used + [d], boards + [g], d + 1)
  {
    var used' := used + [d];
    assert forall k :: 0 <= k < |used| ==> used'[k] == used[k];
  }

  lemma TraceStepPlaced(ships: seq<seq<Coord>>, draws: seq<Draw>, used: seq<nat>, boards: seq<Grid>, d: nat)
    requires forall k :: 0 <= k < |draws| ==> InBounds(draws[k].anchor)
    requires TraceIndexed(ships, draws, used, boards, d) && TracePlaced(ships, draws, used, boards, d)
    requires |ships| < |SHIP_SIZES| && d < |draws|
    requires CanPlace(boards[|ships|], draws[d].anchor, SHIP_SIZES[|ships|], draws[d].dir)
    ensures forall q :: q in Run(draws[d].anchor, SHIP_SIZES[|ships|], draws[d].dir) ==> InBounds(q)
    ensures TraceIndexed(ships + [Run(draws[d].anchor, SHIP_SIZES[|ships|], draws[d].dir)], draws, used + [d],
                         boards + [Mark(boards[|ships|], Run(draws[d].anchor, SHIP_SIZES[|ships|], draws[d].dir), SHIP_SYMBOL)],
                         d + 1)
    ensures TracePlaced(ships + [Run(draws[d].anchor, SHIP_SIZES[|ships|], draws[d].dir)], draws, used + [d],
                        boards + [Mark(boards[|ships|], Run(draws[d].anchor, SHIP_SIZES[|ships|], draws[d].dir), SHIP_SYMBOL)],
                        d + 1)
  {
    var n := |ships|;
    var run := Run(draws[d].anchor, SHIP_SIZES[n], draws[d].dir);
    CanPlaceIff(boards[n], draws[d].anchor, SHIP_SIZES[n], draws[d].dir);
    var g := Mark(boards[n], run, SHIP_SYMBOL);
    var ships', used', boards' := ships + [run], used + [d], boards + [g];
    TraceStepIndexed(ships, draws, used, boards, d, run, g);
    forall k | 0 <= k < |ships'|
      ensures ships'[k] == Run(draws[used'[k]].anchor, SHIP_SIZES[k], draws[used'[k]].dir)
      ensures CanPlace(boards'[k], draws[used'[k]].anchor, SHIP_SIZES[k], draws[used'[k]].dir)
      ensures forall q :: q in ships'[k] ==> InBounds(q)
      ensures boards'[k + 1] == Mark(boards'[k], ships'[k], SHIP_SYMBOL)
    {
      if k < n {
        assert ships'[k] == ships[k] && used'[k] == used[k] && boards'[k] == boards[k] && boards'[k + 1] == boards[k + 1];
      } else {
        assert ships'[k] == run && used'[k] == d && boards'[k] == boards[n] && boards'[k + 1] == g;
      }
    }
  }

  lemma TraceStepSkipped(ships: seq<seq<Coord>>, draws: seq<Draw>, used: seq<nat>, boards: seq<Grid>, d: nat,
                         run: seq<Coord>, g: Grid)
    requires forall k :: 0 <= k < |draws| ==> InBounds(draws[k].anchor)
    requires TraceIndexed(ships, draws, used, boards, d) && |ships| < |SHIP_SIZES| && d < |draws| && IsGrid(g)
    requires TraceSkipped(ships, draws, used, boards, d) && TraceSearching(ships, draws, used, boards, d)
    ensures TraceIndexed(ships + [run], draws, used + [d], boards + [g], d + 1)
    ensures TraceSkipped(ships + [run], draws, used + [d], boards + [g], d + 1)
  {
    var n := |ships|;
    var ships', used', boards' := ships + [run], used + [d], boards + [g];
    TraceStepIndexed(ships, draws, used, boards, d, run, g);
    forall k, e | 0 <= k < |ships'| && Start(used', k) <= e < used'[k]
      ensures Misses(boards'[k], draws, e, SHIP_SIZES[k])
    {
      assert Start(used', k) == Start(used, k) && boards'[k] == boards[k];
      if k < n {
        assert used'[k] == used[k];
      } else {
        assert used'[k] == d;
      }
    }
  }

  /** One successful draw for the next ship of the fleet keeps FleetPlaced. */
  lemma FleetStep(g0: Grid, g: Grid, ships: seq<seq<Coord>>, draws: seq<Draw>, d: nat, g': Grid, ships': seq<seq<Coord>>)
    requires IsGrid(g0) && FleetPlaced(g0, g, ships, draws)
    requires |ships| < |SHIP_SIZES| && d < |draws| && InBounds(draws[d].anchor)
    requires CanPlace(g, draws[d].anchor, SHIP_SIZES[|ships|], draws[d].dir)
    requires forall q :: q in Run(draws[d].anchor, SHIP_SIZES[|ships|], draws[d].dir) ==> InBounds(q)
    requires ships' == ships + [Run(draws[d].anchor, SHIP_SIZES[|ships|], draws[d].dir)]
    requires g' == Mark(g, Run(draws[d].anchor, SHIP_SIZES[|ships|], draws[d].dir), SHIP_SYMBOL)
    ensures FleetPlaced(g0, g', ships', draws)
  {
    var size := SHIP_SIZES[|ships|];
    var run := Run(draws[d].anchor, size, draws[d].dir);
    CanPlaceIff(g, draws[d].anchor, size, draws[d].dir);
    FleetStepShape(ships, draws, d);
    FleetStepCells(g0, g, ships, run);
    FleetStepBoard(g0, g, ships, draws[d].anchor, size, draws[d].dir);
  }

  lemma FleetStepShape(ships: seq<seq<Coord>>, draws: seq<Draw>, d: nat)
    requires FleetShaped(ships, draws)
    requires |ships| < |SHIP_SIZES| && d < |draws| && InBounds(draws[d].anchor)
    requires Fits(draws[d].anchor, SHIP_SIZES[|ships|], draws[d].dir)
    ensures FleetShaped(ships + [Run(draws[d].anchor, SHIP_SIZES[|ships|], draws[d].dir)], draws)
  {
    var run := Run(draws[d].anchor, SHIP_SIZES[|ships|], draws[d].dir);
    var ships' := ships + [run];
    RunShape(draws[d].anchor, SHIP_SIZES[|ships|], draws[d].dir);
    assert forall k :: 0 <= k < |ships| ==> ships'[k] == ships[k];
    assert ships'[|ships|] == run;
  }

  lemma FleetStepCells(g0: Grid, g: Grid, ships: seq<seq<Coord>>, run: seq<Coord>)
    requires IsGrid(g0) && ShipsInBounds(ships) && FleetOverEmpty(g0, ships) && FleetMarked(g0, g, ships)
    requires ShipsInBounds(ships + [run])
    requires forall q :: q in run ==> InBounds(q) && At(g, q) == EMPTY_SYMBOL
    ensures FleetOverEmpty(g0, ships + [run])
  {
    var ships' := ships + [run];
    assert forall k :: 0 <= k < |ships| ==> ships'[k] == ships[k];
    assert ships'[|ships|] == run;
    forall q | q in run ensures At(g0, q) == EMPTY_SYMBOL {
      assert At(g, q) == EMPTY_SYMBOL;
    }
    forall j, q | 0 <= j < |ships| && q in ships[j] ensures q !in run {
      InFlatten(ships, j, q);
      assert At(g, q) == SHIP_SYMBOL;
    }
  }

  lemma FleetStepBoard(g0: Grid, g: Grid, ships: seq<seq<Coord>>, anchor: Coord, size: nat, dir: Direction)
    requires IsGrid(g0) && |ships| < |SHIP_SIZES| && size == SHIP_SIZES[|ships|]
    requires FleetMarked(g0, g, ships) && IsGrid(g)
    requires InBounds(anchor) && CanPlace(g, anchor, size, dir)
    ensures forall q :: q in Run(anchor, size, dir) ==> InBounds(q)
    ensures FleetMarked(g0, Mark(g, Run(anchor, size, dir), SHIP_SYMBOL), ships + [Run(anchor, size, dir)])
  {
    var run := Run(anchor, size, dir);
    var F := Flatten(ships);
    PlacementAddsSegments(g, anchor, size, dir);
    FlattenAppend(ships, run);
    MarkAppend(g0, F, run, SHIP_SYMBOL);
    SumPrefixStep(SHIP_SIZES, |ships|);
  }

  lemma FlattenAppend(ships: seq<seq<Coord>>, run: seq<Coord>)
    ensures Flatten(ships + [run]) == Flatten(ships) + run
  {
    assert (ships + [run])[..|ships|] == ships;
  }

  lemma SumPrefixStep(s: seq<nat>, k: nat)
    requires k < |s|
    ensures Sum(s[..k + 1]) == Sum(s[..k]) + s[k]
  {
    assert s[..k + 1][..k] == s[..k];
  }

  /** A fresh board holds no ship segment. */
  lemma CreateBoardHasNoShips()
    ensures CountOf(CreateBoard(), SHIP_SYMBOL) == 0
  {
    var g := CreateBoard();
    CountOfZero(g, SHIP_SYMBOL);
    assert forall r, c :: 0 <= r < |g| && 0 <= c < |g[r]| ==> g[r][c] == At(g, Coord(r, c));
  }

  /**
   * The `/start` handler: two fresh boards, the computer's fleet placed at random (from
   * `draws`) and the hit counter at zero. With the whole fleet placed, the ship segments
   * on the computer board and the counter add up to the fleet's total.
   */
  method StartGame(draws: seq<Draw>)
    returns (player: Board, computer: Board, ships: seq<seq<Coord>>, hits: int, ghost used: seq<nat>, ghost boards: seq<Grid>)
    requires forall k :: 0 <= k < |draws| ==> InBounds(draws[k].anchor)
    ensures fresh(player) && fresh(computer) && player != computer
    ensures player.Valid() && computer.Valid() && player.cells == CreateBoard()
    ensures |ships| <= |SHIP_SIZES| && ShipsInBounds(ships)
    ensures forall k :: 0 <= k < |ships| ==> |ships[k]| == SHIP_SIZES[k]
    ensures |used| == |ships| && forall k :: 0 <= k < |used| ==> used[k] < |draws|
    ensures forall j, k :: 0 <= j < k < |used| ==> used[j] < used[k]
    ensures forall k :: 0 <= k < |ships| ==>
      ships[k] == Run(draws[used[k]].anchor, SHIP_SIZES[k], draws[used[k]].dir)
    ensures |boards| == |ships| + 1 && boards[0] == CreateBoard() && boards[|ships|] == computer.cells
    ensures forall k :: 0 <= k < |boards| ==> IsGrid(boards[k])
    ensures forall k :: 0 <= k < |ships| ==>
      CanPlace(boards[k], draws[used[k]].anchor, SHIP_SIZES[k], draws[used[k]].dir)
      && boards[k + 1] == Mark(boards[k], ships[k], SHIP_SYMBOL)
    ensures forall k, e :: 0 <= k < |ships| && Start(used, k) <= e < used[k] ==>
      Misses(boards[k], draws, e, SHIP_SIZES[k])
    ensures |ships| < |SHIP_SIZES| ==> forall e :: Start(used, |ships|) <= e < |draws| ==>
      Misses(computer.cells, draws, e, SHIP_SIZES[|ships|])
    ensures forall j, k, q :: 0 <= j < k < |ships| && q in ships[j] ==> q !in ships[k]
    ensures forall q :: q in Flatten(ships) ==> InBounds(q)
    ensures computer.cells == Mark(CreateBoard(), Flatten(ships), SHIP_SYMBOL)
    ensures hits == 0
    ensures |ships| == |SHIP_SIZES| ==> CountOf(computer.cells, SHIP_SYMBOL) + hits == TotalSegments()
  {
    player := new Board();
    computer := new Board();
    CreateBoardHasNoShips();
    ships, used, boards := computer.PlaceShipsRandomly(draws);
    hits := 0;
  }

  /** Six draws, draw k across row k from column 0: each fits beside the ships drawn before it. */
  function RowDraws(): seq<Draw> {
    seq(|SHIP_SIZES|, k => Draw(H, Coord(k, 0)))
  }

  /** What `StartGame` states about a fleet placed from `RowDraws()`, with the draws written out. */
  ghost predicate RowFleet(ships: seq<seq<Coord>>, used: seq<nat>, boards: seq<Grid>) {
    |ships| <= |SHIP_SIZES| && ShipsInBounds(ships)
    && |used| == |ships| && |boards| == |ships| + 1
    && (forall k :: 0 <= k < |used| ==> used[k] < |SHIP_SIZES|)
    && (forall j, k :: 0 <= j < k < |used| ==> used[j] < used[k])
    && (forall k :: 0 <= k < |ships| ==> ships[k] == Run(Coord(used[k], 0), SHIP_SIZES[k], H))
    && boards[0] == CreateBoard() && (forall k :: 0 <= k < |boards| ==> IsGrid(boards[k]))
    && (forall k :: 0 <= k < |ships| ==> boards[k + 1] == Mark(boards[k], ships[k], SHIP_SYMBOL))
  }

  /** On the board before ship k, a cell on no row used so far is still empty. */
  lemma {:induction false} RowsUntouched(ships: seq<seq<Coord>>, used: seq<nat>, boards: seq<Grid>, k: nat)
    requires RowFleet(ships, used, boards) && k <= |ships|
    ensures forall q :: InBounds(q) && (forall j :: 0 <= j < k ==> used[j] != q.row) ==>
      At(boards[k], q) == EMPTY_SYMBOL
  {
    if k > 0 {
      RowsUntouched(ships, used, boards, k - 1);
      forall q | InBounds(q) && (forall j :: 0 <= j < k ==> used[j] != q.row)
        ensures At(boards[k], q) == EMPTY_SYMBOL
      {
        assert used[k - 1] != q.row;
      }
    }
  }

  /** Once the first k draws placed the first k ships, draw k fits ship k. */
  lemma RowFits(ships: seq<seq<Coord>>, used: seq<nat>, boards: seq<Grid>, k: nat)
    requires RowFleet(ships, used, boards) && k <= |ships| && k < |SHIP_SIZES|
    requires forall j :: 0 <= j < k ==> used[j] == j
    ensures CanPlace(boards[k], Coord(k, 0), SHIP_SIZES[k], H)
    ensures !Misses(boards[k], RowDraws(), k, SHIP_SIZES[k])
  {
    RowsUntouched(ships, used, boards, k);
    assert forall i :: 0 <= i < SHIP_SIZES[k] ==> Run(Coord(k, 0), SHIP_SIZES[k], H)[i] == Coord(k, i);
  }

  /** Ship k was placed by draw k: none of these draws is passed over. */
  lemma {:induction false} RowsUsedInOrder(ships: seq<seq<Coord>>, used: seq<nat>, boards: seq<Grid>, k: nat)
    requires RowFleet(ships, used, boards) && k < |ships|
    requires forall j, e :: 0 <= j < |ships| && Start(used, j) <= e < used[j] ==>
      Misses(boards[j], RowDraws(), e, SHIP_SIZES[j])
    ensures forall j :: 0 <= j <= k ==> used[j] == j
  {
    if k > 0 {
      RowsUsedInOrder(ships, used, boards, k - 1);
    }
    assert Start(used, k) == k <= used[k];
    RowFits(ships, used, boards, k);
  }

  /**
   * `/start` with draws that each fit in turn: the whole fleet is placed, ship k across
   * row k from column 0, and the segments and the counter add up to the fleet's total.
   */
  method StartGameRowByRow() returns (ships: seq<seq<Coord>>, hits: int)
    ensures |ships| == |SHIP_SIZES|
    ensures forall k :: 0 <= k < |ships| ==> ships[k] == Run(Coord(k, 0), SHIP_SIZES[k], H)
    ensures hits == 0
  {
    var draws := RowDraws();
    var player, computer;
    ghost var used, boards;
    player, computer, ships, hits, used, boards := StartGame(draws);
    assert RowFleet(ships, used, boards);
    if |ships| > 0 {
      RowsUsedInOrder(ships, used, boards, |ships| - 1);
    }
    if |ships| < |SHIP_SIZES| {
      assert Start(used, |ships|) == |ships|;
      RowFits(ships, used, boards, |ships|);
      assert false;
    }
  }
}
