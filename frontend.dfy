// The React client (src/App.js): its own copy of the win test, the computer's
// shot on the player's board, and the small state machine behind the click,
// placement and turn handlers. The component's state hooks are the fields of
// a Game object.
module Frontend {
  import opened Rules
  import Backend

  /** `checkWin`: no cell of the board holds a ship segment. */
  predicate CheckWin(board: Grid) {
    forall r, c :: 0 <= r < |board| && 0 <= c < |board[r]| ==> board[r][c] != SHIP_SYMBOL
  }

  /** The win test says exactly that no ship segment is left on the board. */
  lemma CheckWinIffNoSegments(board: Grid)
    ensures CheckWin(board) <==> CountOf(board, SHIP_SYMBOL) == 0
  {
    CountOfZero(board, SHIP_SYMBOL);
  }

  /**
   * The backend's win test (hit counter equals the fleet's segments) and the client's
   * (no ship cell left) agree on any board whose segments and counter add up to the fleet.
   */
  lemma HitCounterWinMatchesCheckWin(board: Grid, hits: int)
    requires CountOf(board, SHIP_SYMBOL) + hits == TotalSegments()
    ensures hits == TotalSegments() <==> CheckWin(board)
  {
    CheckWinIffNoSegments(board);
  }

  /**
   * A counted hit on a board whose segments and counter add up to the fleet keeps them
   * adding up, and the backend's `win` (the counter reaching the fleet's total) is then
   * exactly the client's `checkWin` on the board after the shot.
   */
  lemma HitKeepsTallyAndWinMatches(g: Grid, p: Coord, hits: int)
    requires IsGrid(g) && InBounds(p) && At(g, p) == SHIP_SYMBOL
    requires CountOf(g, SHIP_SYMBOL) + hits == TotalSegments()
    ensures CountOf(Backend.ShotOnComputer(g, p), SHIP_SYMBOL) + (hits + 1) == TotalSegments()
    ensures hits + 1 == TotalSegments() <==> CheckWin(Backend.ShotOnComputer(g, p))
  {
    Backend.ShotRemovesHitSegment(g, p);
    HitCounterWinMatchesCheckWin(Backend.ShotOnComputer(g, p), hits + 1);
  }

  /** A cell the computer may shoot at: not yet hit or missed. */
  predicate Targetable(board: Grid, p: Coord)
    requires IsGrid(board) && InBounds(p)
  {
    At(board, p) == EMPTY_SYMBOL || At(board, p) == SHIP_SYMBOL
  }

  /** The computer's shot on a copy of the player's board. */
  function ComputerShot(board: Grid, p: Coord): (board': Grid)
    requires IsGrid(board) && InBounds(p)
    ensures IsGrid(board')
    ensures At(board', p) == if At(board, p) == SHIP_SYMBOL then HIT_SYMBOL else MISS_SYMBOL
    ensures forall q :: InBounds(q) && q != p ==> At(board', q) == At(board, q)
  {
    Set(board, p, if At(board, p) == SHIP_SYMBOL then HIT_SYMBOL else MISS_SYMBOL)
  }

  /** The only moves a cell makes during play: a ship is hit, an empty cell is missed. */
  predicate Advances(before: char, after: char) {
    before == after
    || (before == SHIP_SYMBOL && after == HIT_SYMBOL)
    || (before == EMPTY_SYMBOL && after == MISS_SYMBOL)
  }

  /**
   * A shot at a targetable cell moves that one cell forward and leaves every other cell,
   * and it removes a ship segment exactly when it hits.
   */
  lemma ComputerShotAdvances(board: Grid, p: Coord)
    requires IsGrid(board) && InBounds(p) && Targetable(board, p)
    ensures forall q :: InBounds(q) ==> Advances(At(board, q), At(ComputerShot(board, p), q))
    ensures At(ComputerShot(board, p), p) != At(board, p)
    ensures CountOf(ComputerShot(board, p), SHIP_SYMBOL)
         == CountOf(board, SHIP_SYMBOL) - (if At(board, p) == SHIP_SYMBOL then 1 else 0)
  {
    CountOfSet(board, p, At(ComputerShot(board, p), p), SHIP_SYMBOL);
  }

  /** `toggleDirection`'s choice. */
  function Toggled(d: Direction): (e: Direction)
    ensures e != d
  {
    if d == H then V else H
  }

  lemma ToggleTwice(d: Direction)
    ensures Toggled(Toggled(d)) == d
  {
  }

  /** The turn flag after a `/player_click` response, by its result. */
  function NextTurn(result: Backend.ClickResult, isPlayerTurn: bool): bool {
    match result
    case Win => isPlayerTurn
    case Sunk => true
    case Hit => true
    case Continue => false
  }

  /**
   * The client decides the turn from `result` alone; it lands where the backend's
   * `player_turn` flag says, and stays put on a win, where the flag is absent.
   */
  lemma NextTurnFollowsServerFlag(result: Backend.ClickResult, isPlayerTurn: bool)
    ensures Backend.TurnFlag(result).Some? ==> NextTurn(result, isPlayerTurn) == Backend.TurnFlag(result).value
    ensures Backend.TurnFlag(result).None? ==> NextTurn(result, isPlayerTurn) == isPlayerTurn
  {
  }

  /** What a click on a board cell does. */
  datatype ClickAction =
    | PlaceRequest(anchor: Coord, size: nat, dir: Direction)  // POST /place_ship
    | ShotRequest(target: Coord)                              // POST /player_click
    | Ignored

  /** How the computer's turn ended. */
  datatype ComputerOutcome =
    | NoTarget                                  // no draw found a cell still open
    | Shot(target: Coord, computerWins: bool)

  class Game {
    var playerBoard: Grid
    var computerBoard: Grid
    var playerViewBoard: Grid
    var computerShips: seq<seq<Coord>>
    var isPlayerTurn: bool
    var isPlacing: bool
    var currentShip: nat
    var direction: Direction
    var shipIndex: nat
    var playerHits: int

    ghost predicate Valid()
      reads this
    {
      IsGrid(playerBoard) && IsGrid(computerBoard) && IsGrid(playerViewBoard)
      && shipIndex < |SHIP_SIZES| && currentShip == SHIP_SIZES[shipIndex]
    }

    /** The initial values of the component's state. */
    constructor ()
      ensures Valid()
      ensures playerBoard == CreateBoard() && computerBoard == CreateBoard() && playerViewBoard == CreateBoard()
      ensures computerShips == [] && playerHits == 0
      ensures isPlayerTurn && isPlacing && direction == H
      ensures shipIndex == 0 && currentShip == SHIP_SIZES[0]
    {
      playerBoard := CreateBoard();
      computerBoard := CreateBoard();
      playerViewBoard := CreateBoard();
      computerShips := [];
      isPlayerTurn := true;
      isPlacing := true;
      currentShip := SHIP_SIZES[0];
      direction := H;
      shipIndex := 0;
      playerHits := 0;
    }

    /**
     * `handleCellClick`: while placing, a click asks to place the current ship there;
     * during play it asks for a shot unless it is not the player's turn or the cell
     * was already shot at.
     */
    method HandleCellClick(p: Coord) returns (action: ClickAction)
      requires Valid() && InBounds(p)
      ensures isPlacing ==> action == PlaceRequest(p, currentShip, direction)
      ensures !isPlacing ==>
        (action == Ignored <==> !isPlayerTurn || At(playerViewBoard, p) != EMPTY_SYMBOL)
      ensures !isPlacing && action != Ignored ==> action == ShotRequest(p)
    {
      if isPlacing {
        return PlaceRequest(p, currentShip, direction);
      }
      if !isPlayerTurn || At(playerViewBoard, p) != EMPTY_SYMBOL {
        return Ignored;
      }
      return ShotRequest(p);
    }

    /**
     * The `/place_ship` response handler: on success take the new board and move on to
     * the next ship of SHIP_SIZES, or end placement after the last one.
     */
    method ReceivePlacement(success: bool, board: Grid)
      requires Valid() && IsGrid(board)
      modifies this`playerBoard, this`shipIndex, this`currentShip, this`isPlacing
      ensures Valid()
      ensures !success ==>
        playerBoard == old(playerBoard) && shipIndex == old(shipIndex) && isPlacing == old(isPlacing)
      ensures success ==> playerBoard == board
      ensures success && old(shipIndex) < |SHIP_SIZES| - 1 ==>
        shipIndex == old(shipIndex) + 1 && currentShip == SHIP_SIZES[old(shipIndex) + 1]
        && isPlacing == old(isPlacing)
      ensures success && old(shipIndex) == |SHIP_SIZES| - 1 ==>
        shipIndex == old(shipIndex) && !isPlacing
    {
      if success {
        playerBoard := board;
        if shipIndex < |SHIP_SIZES| - 1 {
          shipIndex := shipIndex + 1;
          currentShip := SHIP_SIZES[shipIndex];
        } else {
          isPlacing := false;
        }
      }
    }

    /** `toggleDirection`. */
    method ToggleDirection()
      modifies this`direction
      ensures direction == Toggled(old(direction))
    {
      direction := Toggled(direction);
    }

    /**
     * The `/player_click` response handler: take the boards, ships and counter the backend
     * sent, then set the turn by the result. Returns whether the computer's turn follows.
     */
    method ReceiveShotResult(result: Backend.ClickResult, view: Grid, computer: Grid,
                             ships: seq<seq<Coord>>, hits: int) returns (computerNext: bool)
      requires Valid() && IsGrid(view) && IsGrid(computer)
      modifies this`playerViewBoard, this`computerBoard, this`computerShips, this`playerHits, this`isPlayerTurn
      ensures Valid()
      ensures playerViewBoard == view && computerBoard == computer && computerShips == ships && playerHits == hits
      ensures isPlayerTurn == NextTurn(result, old(isPlayerTurn))
      ensures computerNext <==> result == Backend.Continue
    {
      playerViewBoard, computerBoard, computerShips, playerHits := view, computer, ships, hits;
      computerNext := false;
      if result == Backend.Win {
      } else if result == Backend.Sunk {
        isPlayerTurn := true;
      } else if result == Backend.Hit {
        isPlayerTurn := true;
      } else {
        isPlayerTurn := false;
        computerNext := true;
      }
    }

    /**
     * The search loop of `computerTurn` over the supplied random draws: the first draw
     * that is still empty or a ship, if any.
     */
    method SelectTarget(draws: seq<Coord>) returns (target: Option<Coord>)
      requires Valid() && forall k :: 0 <= k < |draws| ==> InBounds(draws[k])
      ensures target.None? <==> forall k :: 0 <= k < |draws| ==> !Targetable(playerBoard, draws[k])
      ensures target.Some? ==>
        exists k :: 0 <= k < |draws| && draws[k] == target.value && Targetable(playerBoard, draws[k])
                    && forall j :: 0 <= j < k ==> !Targetable(playerBoard, draws[j])
    {
      var k := 0;
      while k < |draws| && !Targetable(playerBoard, draws[k])
        invariant 0 <= k <= |draws|
        invariant forall j :: 0 <= j < k ==> !Targetable(playerBoard, draws[j])
      {
        k := k + 1;
      }
      if k < |draws| {
        target := Some(draws[k]);
      } else {
        target := None;
      }
    }

    /**
     * `computerTurn`: shoot at the first open cell among the draws on a copy of the
     * player's board, store the copy, and give the turn back unless the computer won.
     */
    method ComputerTurn(draws: seq<Coord>) returns (outcome: ComputerOutcome)
      requires Valid() && forall k :: 0 <= k < |draws| ==> InBounds(draws[k])
      modifies this`playerBoard, this`isPlayerTurn
      ensures Valid()
      ensures outcome.NoTarget? ==>
        (forall k :: 0 <= k < |draws| ==> !Targetable(old(playerBoard), draws[k]))
        && playerBoard == old(playerBoard) && isPlayerTurn == old(isPlayerTurn)
      ensures outcome.Shot? ==>
        outcome.target in draws && Targetable(old(playerBoard), outcome.target)
        && playerBoard == ComputerShot(old(playerBoard), outcome.target)
        && outcome.computerWins == CheckWin(playerBoard)
        && isPlayerTurn == if outcome.computerWins then old(isPlayerTurn) else true
    {
      var target := SelectTarget(draws);
      if target.None? {
        return NoTarget;
      }
      var p := target.value;
      var newPlayerBoard := playerBoard;
      if At(newPlayerBoard, p) == SHIP_SYMBOL {
        newPlayerBoard := Set(newPlayerBoard, p, HIT_SYMBOL);
      } else {
        newPlayerBoard := Set(newPlayerBoard, p, MISS_SYMBOL);
      }
      playerBoard := newPlayerBoard;
      if CheckWin(newPlayerBoard) {
        outcome := Shot(p, true);
      } else {
        isPlayerTurn := true;
        outcome := Shot(p, false);
      }
    }
  }
}
