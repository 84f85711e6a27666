/** The square-claim handler, `src/pages/api/board/square.ts`. */
module Square {
  import opened Wrappers
  import opened BoardModel

  /**
   * The JSON body `{ boardId, position, name, remove }`. The client sends
   * `remove`, but the handler never reads it.
   */
  datatype ClaimRequest = ClaimRequest(boardId: Option<string>, position: Option<string>, name: Option<string>, remove: bool)

  predicate HasFields(req: ClaimRequest) {
    Present(req.boardId) && Present(req.position) && Present(req.name)
  }

  /** `board.squares[position]` is truthy: the key is stored with a non-empty owner. */
  predicate Taken(squares: map<string, string>, position: string) {
    position in squares && squares[position] != ""
  }

  /**
   * The handler: four checks in the source's order (fields, state, the
   * claimant's quota, occupancy), then one new entry in `squares`.
   */
  function Claim(req: ClaimRequest, fetched: Option<Board>): (r: Result<Board, Error>)
    ensures !HasFields(req) ==> r == Err(MissingFields)
    ensures HasFields(req) && fetched.None? ==> r == Err(NotFound)
    ensures HasFields(req) && fetched.Some? && fetched.value.state != Choosing ==> r == Err(WrongState)
    ensures r.Ok? <==>
      && HasFields(req) && fetched.Some? && fetched.value.state == Choosing
      && CountOwned(fetched.value.squares, req.name.value) < fetched.value.max_squares_per_contestant
      && !Taken(fetched.value.squares, req.position.value)
    ensures r.Err? && r.error.LimitReached? <==>
      && HasFields(req) && fetched.Some? && fetched.value.state == Choosing
      && CountOwned(fetched.value.squares, req.name.value) >= fetched.value.max_squares_per_contestant
    ensures r == Err(AlreadyTaken) <==>
      && HasFields(req) && fetched.Some? && fetched.value.state == Choosing
      && CountOwned(fetched.value.squares, req.name.value) < fetched.value.max_squares_per_contestant
      && Taken(fetched.value.squares, req.position.value)
    ensures r.Ok? ==>
      var b, b' := fetched.value, r.value;
      && b'.squares == b.squares[req.position.value := req.name.value]
      && b' == b.(squares := b'.squares)
  {
    if !HasFields(req) then Err(MissingFields)
    else if fetched.None? then Err(NotFound)
    else
      var board, position, name := fetched.value, req.position.value, req.name.value;
      if board.state != Choosing then Err(WrongState)
      else if CountOwned(board.squares, name) >= board.max_squares_per_contestant then
        Err(LimitReached(board.max_squares_per_contestant))
      else if Taken(board.squares, position) then Err(AlreadyTaken)
      else Ok(board.(squares := board.squares[position := name]))
  }

  /**
   * The quota check runs before the occupancy check: a claimant at the
   * limit gets the limit error, even on a square that is already taken.
   */
  lemma LimitCheckedFirst(req: ClaimRequest, b: Board)
    requires HasFields(req) && b.state == Choosing
    requires CountOwned(b.squares, req.name.value) >= b.max_squares_per_contestant
    ensures Claim(req, Some(b)) == Err(LimitReached(b.max_squares_per_contestant))
  {
  }

  /**
   * Claiming a square one already owns is rejected, not a no-op: with the
   * occupancy error, or with the limit error when the quota is full.
   */
  lemma ClaimOwnSquareRejected(req: ClaimRequest, b: Board)
    requires HasFields(req) && b.state == Choosing
    requires req.position.value in b.squares && b.squares[req.position.value] == req.name.value
    ensures Claim(req, Some(b)) == Err(AlreadyTaken) || Claim(req, Some(b)) == Err(LimitReached(b.max_squares_per_contestant))
  {
  }

  /** The `remove` flag changes nothing: there is no release path. */
  lemma RemoveFlagIgnored(req: ClaimRequest, fetched: Option<Board>)
    ensures Claim(req, fetched) == Claim(req.(remove := !req.remove), fetched)
  {
  }

  /** Adding a key owned by `name` raises its count by one and leaves the others' counts alone. */
  lemma {:induction false} CountAfterAdd(squares: map<string, string>, position: string, name: string, other: string)
    requires position !in squares
    ensures CountOwned(squares[position := name], name) == CountOwned(squares, name) + 1
    ensures other != name ==> CountOwned(squares[position := name], other) == CountOwned(squares, other)
  {
    assert Owned(squares[position := name], name) == Owned(squares, name) + {position};
    assert position !in Owned(squares, name);
    if other != name {
      assert Owned(squares[position := name], other) == Owned(squares, other);
    }
  }

  /**
   * A successful claim adds exactly one key, owned by the claimant: the key
   * count and the claimant's count each grow by one, every other
   * contestant's count is unchanged, no key is lost, and the board stays
   * valid, in particular within the per-contestant limit.
   */
  lemma {:induction false} ClaimPreservesValid(req: ClaimRequest, b: Board)
    requires Valid(b)
    requires Claim(req, Some(b)).Ok?
    ensures var b' := Claim(req, Some(b)).value;
      && b.squares.Keys <= b'.squares.Keys
      && |b'.squares| == |b.squares| + 1
      && CountOwned(b'.squares, req.name.value) == CountOwned(b.squares, req.name.value) + 1
      && (forall n :: n != req.name.value ==> CountOwned(b'.squares, n) == CountOwned(b.squares, n))
      && Valid(b')
  {
    var b' := Claim(req, Some(b)).value;
    var position, name := req.position.value, req.name.value;
    assert position !in b.squares;
    assert b'.squares.Keys == b.squares.Keys + {position};
    forall n ensures CountOwned(b'.squares, n) <= b'.max_squares_per_contestant
      && (n != name ==> CountOwned(b'.squares, n) == CountOwned(b.squares, n))
    {
      CountAfterAdd(b.squares, position, name, n);
    }
    CountAfterAdd(b.squares, position, name, name);
  }

  /**
   * A stored square whose owner is the empty string reads as free: a claim
   * on it succeeds and replaces the owner, so the key count stays the same.
   */
  lemma EmptyOwnerClaimedOver(req: ClaimRequest, b: Board)
    requires HasFields(req) && b.state == Choosing
    requires CountOwned(b.squares, req.name.value) < b.max_squares_per_contestant
    requires req.position.value in b.squares && b.squares[req.position.value] == ""
    ensures Claim(req, Some(b)).Ok?
    ensures var b' := Claim(req, Some(b)).value;
      b'.squares[req.position.value] == req.name.value && |b'.squares| == |b.squares|
  {
    assert b.squares[req.position.value := req.name.value].Keys == b.squares.Keys;
  }
}
