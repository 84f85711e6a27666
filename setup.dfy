/** The setup handler, `src/pages/api/board/setup.ts`. */
module SetupBoard {
  import opened Wrappers
  import opened BoardModel

  /** The JSON body `{ id, displayName, maxSquares }`; `None` is a missing key. */
  datatype SetupRequest = SetupRequest(id: Option<string>, displayName: Option<string>, maxSquares: Option<int>)

  /** All three fields of the body are truthy. */
  predicate HasFields(req: SetupRequest) {
    Present(req.id) && Present(req.displayName) && PresentNumber(req.maxSquares)
  }

  /**
   * The handler as written. `fetched` is what `getBoard(id)` returned. The
   * new record is the fetched one spread, with the camelCase keys
   * `displayName` and `maxSquaresPerContestant` added and the state moved
   * to `choosing`; there is no state guard and no range check.
   */
  function Setup(req: SetupRequest, fetched: Option<Board>): (r: Result<Board, Error>)
    ensures r == Err(MissingFields) <==> !HasFields(req)
    ensures r == Err(NotFound) <==> HasFields(req) && fetched.None?
    ensures r.Ok? <==> HasFields(req) && fetched.Some?
    ensures r.Ok? ==>
      var b, b' := fetched.value, r.value;
      && b'.state == Choosing
      && b'.id == b.id && b'.squares == b.squares && b'.teams == b.teams && b'.winners == b.winners
      && b'.display_name == b.display_name
      && b'.max_squares_per_contestant == b.max_squares_per_contestant
      && b'.displayName == req.displayName && b'.maxSquaresPerContestant == req.maxSquares
  {
    if !HasFields(req) then Err(MissingFields)
    else if fetched.None? then Err(NotFound)
    else Ok(fetched.value.(
      displayName := req.displayName,
      maxSquaresPerContestant := req.maxSquares,
      state := Choosing))
  }

  /**
   * The evidently intended handler: the same checks, but the new values go
   * to the `display_name` and `max_squares_per_contestant` keys that the
   * rest of the program reads.
   */
  function SetupCorrected(req: SetupRequest, fetched: Option<Board>): (r: Result<Board, Error>)
    ensures r == Err(MissingFields) <==> !HasFields(req)
    ensures r == Err(NotFound) <==> HasFields(req) && fetched.None?
    ensures r.Ok? <==> HasFields(req) && fetched.Some?
    ensures r.Ok? ==>
      var b, b' := fetched.value, r.value;
      && b'.state == Choosing
      && b'.id == b.id && b'.squares == b.squares && b'.teams == b.teams && b'.winners == b.winners
      && b'.display_name == req.displayName.value
      && b'.max_squares_per_contestant == req.maxSquares.value
      && b'.displayName == b.displayName && b'.maxSquaresPerContestant == b.maxSquaresPerContestant
  {
    if !HasFields(req) then Err(MissingFields)
    else if fetched.None? then Err(NotFound)
    else Ok(fetched.value.(
      display_name := req.displayName.value,
      max_squares_per_contestant := req.maxSquares.value,
      state := Choosing))
  }

  /**
   * Setup as written keeps every board invariant: the quota limit it leaves
   * in place is the old one, and squares, teams and winners are untouched.
   */
  lemma SetupPreservesValid(req: SetupRequest, b: Board)
    requires Valid(b)
    ensures Setup(req, Some(b)).Ok? ==> Valid(Setup(req, Some(b)).value)
  {
  }

  /** No state guard: setup succeeds from every state, a locked board included, and reopens it. */
  lemma SetupFromAnyState(req: SetupRequest, b: Board)
    requires HasFields(req)
    ensures Setup(req, Some(b)).Ok? && Setup(req, Some(b)).value.state == Choosing
  {
  }

  /** No range check: any non-zero limit is accepted, negative or above 100. */
  lemma SetupAcceptsAnyNonZeroLimit(b: Board, limit: int)
    requires b.id != "" && limit != 0
    ensures Setup(SetupRequest(Some(b.id), Some("Party"), Some(limit)), Some(b)).Ok?
  {
  }

  /** A zero limit or an empty display name is falsy and rejected. */
  lemma SetupRejectsFalsyFields(id: string, name: string, limit: int, fetched: Option<Board>)
    requires name == "" || limit == 0 || id == ""
    ensures Setup(SetupRequest(Some(id), Some(name), Some(limit)), fetched) == Err(MissingFields)
  {
  }

  /**
   * The corrected handler, applied to a board still in its initial shape
   * with a limit in the range the setup form enforces, yields a valid board.
   */
  lemma SetupCorrectedValid(req: SetupRequest, b: Board)
    requires Valid(b) && b.squares == map[]
    requires HasFields(req) && 1 <= req.maxSquares.value <= 100
    ensures SetupCorrected(req, Some(b)).Ok? && Valid(SetupCorrected(req, Some(b)).value)
  {
  }
}
