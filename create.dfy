/** The record built by the create handler, `src/pages/api/board/create.ts`. */
module Create {
  import opened Wrappers
  import opened BoardModel

  /**
   * The board stored for a new game. `id` is the code produced by the id
   * generator, which is not part of this model.
   */
  function NewBoard(id: string): (b: Board)
    ensures b.id == id && b.state == Setup
    ensures b.display_name == "" && b.max_squares_per_contestant == 0
    ensures b.squares == map[] && forall n :: CountOwned(b.squares, n) == 0
    ensures b.teams.None? && b.winners.None?
    ensures b.displayName.None? && b.maxSquaresPerContestant.None?
    ensures Valid(b)
  {
    Board(id, "", 0, Setup, map[], None, None, None, None)
  }
}
