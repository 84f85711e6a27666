/** The team and number assignment handler, `src/pages/api/board/assign-teams.ts`. */
module AssignTeams {
  import opened Wrappers
  import opened BoardModel

  /** The JSON body `{ boardId }`. */
  datatype AssignRequest = AssignRequest(boardId: Option<string>)

  /**
   * The handler. The three shuffles are inputs: `shuffledTeams` is the
   * shuffled `['Chiefs', 'Eagles']`, `numbers` and `numbers2` the two
   * shuffled digit lists; the shuffle helper only promises reorderings.
   * The board must be `choosing` with exactly 100 keys; on success it is
   * locked with the drawn teams.
   */
  function Assign(req: AssignRequest, fetched: Option<Board>,
                  shuffledTeams: seq<Team>, numbers: seq<int>, numbers2: seq<int>): (r: Result<Board, Error>)
    requires IsPermutation(shuffledTeams, [Chiefs, Eagles])
    requires IsPermutation(numbers, Digits()) && IsPermutation(numbers2, Digits())
    ensures !Present(req.boardId) ==> r == Err(MissingFields)
    ensures Present(req.boardId) && fetched.None? ==> r == Err(NotFound)
    ensures r == Err(WrongState) <==> Present(req.boardId) && fetched.Some? && fetched.value.state != Choosing
    ensures r == Err(IncompleteBoard) <==>
      Present(req.boardId) && fetched.Some? && fetched.value.state == Choosing && |fetched.value.squares| != 100
    ensures r.Ok? <==>
      Present(req.boardId) && fetched.Some? && fetched.value.state == Choosing && |fetched.value.squares| == 100
    ensures r.Ok? ==>
      var b, b' := fetched.value, r.value;
      && b'.state == Locked
      && b'.teams.Some? && TeamsValid(b'.teams.value)
      && {b'.teams.value.axis1.team, b'.teams.value.axis2.team} == {Chiefs, Eagles}
      && |shuffledTeams| == 2
      && b'.teams.value.axis1.team == shuffledTeams[0] && b'.teams.value.axis2.team == shuffledTeams[1]
      && b'.teams.value.axis1.numbers == numbers && b'.teams.value.axis2.numbers == numbers2
      && b' == b.(state := Locked, teams := b'.teams)
  {
    if !Present(req.boardId) then Err(MissingFields)
    else if fetched.None? then Err(NotFound)
    else
      var board := fetched.value;
      if board.state != Choosing then Err(WrongState)
      else if |board.squares| != 100 then Err(IncompleteBoard)
      else
        TeamPermutation(shuffledTeams);
        Ok(board.(
          state := Locked,
          teams := Some(TeamAssignment(
            Axis(shuffledTeams[0], numbers),
            Axis(shuffledTeams[1], numbers2)))))
  }

  /** A successful assignment keeps every board invariant. */
  lemma AssignPreservesValid(req: AssignRequest, b: Board,
                             shuffledTeams: seq<Team>, numbers: seq<int>, numbers2: seq<int>)
    requires IsPermutation(shuffledTeams, [Chiefs, Eagles])
    requires IsPermutation(numbers, Digits()) && IsPermutation(numbers2, Digits())
    requires Valid(b)
    ensures var r := Assign(req, Some(b), shuffledTeams, numbers, numbers2);
      r.Ok? ==> Valid(r.value) && r.value.squares == b.squares
  {
  }

  /** Each assigned axis lists every digit exactly once, and a score digit is at some index below 10. */
  lemma AssignedAxesCoverDigits(req: AssignRequest, b: Board,
                                shuffledTeams: seq<Team>, numbers: seq<int>, numbers2: seq<int>, d: int)
    requires IsPermutation(shuffledTeams, [Chiefs, Eagles])
    requires IsPermutation(numbers, Digits()) && IsPermutation(numbers2, Digits())
    requires Assign(req, Some(b), shuffledTeams, numbers, numbers2).Ok?
    requires 0 <= d <= 9
    ensures var t := Assign(req, Some(b), shuffledTeams, numbers, numbers2).value.teams.value;
      && |t.axis1.numbers| == 10 && |t.axis2.numbers| == 10
      && d in t.axis1.numbers && d in t.axis2.numbers
  {
    DigitPermutation(numbers);
    DigitPermutation(numbers2);
  }
}
