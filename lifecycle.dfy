/**
 * Scenarios across handlers: a board's life from creation to locking, and
 * what the setup handler's key names do to it.
 */
module Lifecycle {
  import opened Wrappers
  import opened BoardModel
  import opened Create
  import opened SetupBoard
  import opened Square
  import opened AssignTeams

  /**
   * As written, setup leaves `max_squares_per_contestant` at the 0 of a new
   * board, so every later claim on it is refused with the limit error.
   */
  lemma SetupAsWrittenBlocksClaims(id: string, setup: SetupRequest, claim: ClaimRequest)
    requires SetupBoard.HasFields(setup) && Square.HasFields(claim)
    ensures var r := SetupBoard.Setup(setup, Some(NewBoard(id)));
      && r.Ok? && r.value.state == Choosing && r.value.max_squares_per_contestant == 0
      && Claim(claim, Some(r.value)) == Err(LimitReached(0))
  {
  }

  /** The concrete request that shows it: a limit of 10 is stored under the wrong key. */
  lemma SetupAsWrittenExample()
    ensures var r := SetupBoard.Setup(SetupRequest(Some("ABC123"), Some("Party"), Some(10)), Some(NewBoard("ABC123")));
      && r.Ok? && r.value.maxSquaresPerContestant == Some(10) && r.value.max_squares_per_contestant == 0
      && Claim(ClaimRequest(Some("ABC123"), Some("0,0"), Some("Ann"), false), Some(r.value)) == Err(LimitReached(0))
  {
  }

  /**
   * With the corrected setup and a limit in 1..100, the first claim of any
   * contestant on any position of a new board succeeds.
   */
  lemma SetupCorrectedAllowsClaims(id: string, setup: SetupRequest, claim: ClaimRequest)
    requires SetupBoard.HasFields(setup) && 1 <= setup.maxSquares.value <= 100
    requires Square.HasFields(claim)
    ensures var r := SetupCorrected(setup, Some(NewBoard(id)));
      r.Ok? && Valid(r.value) && Claim(claim, Some(r.value)).Ok?
  {
  }

  /**
   * A limit of 2: Ann claims "0,0" and "1,1", and her third claim, on
   * "2,2", is refused with the limit error.
   */
  lemma AnnReachesLimit(id: string)
    requires id != ""
    ensures var s := SetupCorrected(SetupRequest(Some(id), Some("Party"), Some(2)), Some(NewBoard(id)));
      && s.Ok?
      && var c1 := Claim(ClaimRequest(Some(id), Some("0,0"), Some("Ann"), false), Some(s.value));
      && c1.Ok?
      && var c2 := Claim(ClaimRequest(Some(id), Some("1,1"), Some("Ann"), false), Some(c1.value));
      && c2.Ok?
      && Claim(ClaimRequest(Some(id), Some("2,2"), Some("Ann"), false), Some(c2.value)) == Err(LimitReached(2))
  {
    var setup := SetupRequest(Some(id), Some("Party"), Some(2));
    SetupCorrectedValid(setup, NewBoard(id));
    var b0 := SetupCorrected(setup, Some(NewBoard(id))).value;
    var r1 := ClaimRequest(Some(id), Some("0,0"), Some("Ann"), false);
    assert Owned(b0.squares, "Ann") == {};
    var b1 := Claim(r1, Some(b0)).value;
    ClaimPreservesValid(r1, b0);
    var r2 := ClaimRequest(Some(id), Some("1,1"), Some("Ann"), false);
    assert b1.squares == map["0,0" := "Ann"];
    var b2 := Claim(r2, Some(b1)).value;
    ClaimPreservesValid(r2, b1);
  }

  /**
   * A board one square short of full cannot be assigned; claiming the last
   * free position fills it, after which assignment locks it with valid
   * teams.
   */
  lemma LastClaimEnablesAssignment(b: Board, claim: ClaimRequest, assign: AssignRequest,
                                   shuffledTeams: seq<Team>, numbers: seq<int>, numbers2: seq<int>)
    requires IsPermutation(shuffledTeams, [Chiefs, Eagles])
    requires IsPermutation(numbers, Digits()) && IsPermutation(numbers2, Digits())
    requires Valid(b) && b.state == Choosing && |b.squares| == 99
    requires Present(assign.boardId) && Claim(claim, Some(b)).Ok?
    ensures Assign(assign, Some(b), shuffledTeams, numbers, numbers2) == Err(IncompleteBoard)
    ensures var full := Claim(claim, Some(b)).value;
      var r := Assign(assign, Some(full), shuffledTeams, numbers, numbers2);
      && |full.squares| == 100
      && r.Ok? && r.value.state == Locked && Valid(r.value)
  {
    var full := Claim(claim, Some(b)).value;
    ClaimPreservesValid(claim, b);
    AssignPreservesValid(assign, full, shuffledTeams, numbers, numbers2);
  }

  /**
   * Positions are never checked to be grid cells, so a full board can take
   * a 101st key; from then on assignment is refused, since it demands
   * exactly 100 keys.
   */
  lemma GridOverflowBlocksAssignment(b: Board, claim: ClaimRequest, assign: AssignRequest,
                                     shuffledTeams: seq<Team>, numbers: seq<int>, numbers2: seq<int>)
    requires IsPermutation(shuffledTeams, [Chiefs, Eagles])
    requires IsPermutation(numbers, Digits()) && IsPermutation(numbers2, Digits())
    requires Valid(b) && |b.squares| == 100 && Claim(claim, Some(b)).Ok?
    requires Present(assign.boardId)
    ensures var over := Claim(claim, Some(b)).value;
      |over.squares| == 101 && Assign(assign, Some(over), shuffledTeams, numbers, numbers2) == Err(IncompleteBoard)
  {
  }
}
