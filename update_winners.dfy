/**
 * Winner resolution and the per-board winner merge of the scheduled job
 * `src/scripts/update-winners.ts`.
 */
module UpdateWinners {
  import opened Wrappers
  import opened BoardModel

  /** One parsed score entry: the quarter and the pair (Chiefs score, Eagles score). */
  datatype WinnerEnv = WinnerEnv(quarter: Quarter, scores: (int, int))

  /** A board's winners as sent to the store by the job. */
  datatype Write = Write(id: string, winners: map<Quarter, Cell>)

  /** `scores[i]` for the index 0 or 1. */
  function Score(scores: (int, int), i: int): int {
    if i == 0 then scores.0 else scores.1
  }

  /**
   * `Array.prototype.findIndex` with the test `n === x`: the first index of
   * `x` in `s`, or -1.
   */
  function FindIndex(s: seq<int>, x: int): (r: int)
    ensures -1 <= r < |s|
    ensures r == -1 <==> x !in s
    ensures r >= 0 ==> s[r] == x && forall j :: 0 <= j < r ==> s[j] != x
  {
    if s == [] then -1
    else if s[0] == x then 0
    else
      var k := FindIndex(s[1..], x);
      if k == -1 then -1 else k + 1
  }

  /**
   * `findWinningSquare`: the Chiefs score is `scores.0`, the Eagles score
   * `scores.1`; each is looked up as is (no last-digit reduction) in the
   * number list of the axis carrying that team. The row comes from axis 2,
   * the column from axis 1.
   */
  function FindWinningSquare(board: Board, scores: (int, int)): (r: Option<Cell>)
    ensures board.teams.None? ==> r.None?
    ensures board.teams.Some? ==>
      var t := board.teams.value;
      var score1 := if t.axis1.team == Chiefs then scores.0 else scores.1;
      var score2 := if t.axis1.team == Chiefs then scores.1 else scores.0;
      && (r.None? <==> score2 !in t.axis2.numbers || score1 !in t.axis1.numbers)
      && (r.Some? ==>
            && 0 <= r.value.row < |t.axis2.numbers| && t.axis2.numbers[r.value.row] == score2
            && 0 <= r.value.col < |t.axis1.numbers| && t.axis1.numbers[r.value.col] == score1
            && (forall j :: 0 <= j < r.value.row ==> t.axis2.numbers[j] != score2)
            && (forall j :: 0 <= j < r.value.col ==> t.axis1.numbers[j] != score1))
  {
    if board.teams.None? then None
    else
      var t := board.teams.value;
      var team1Index := if t.axis1.team == Chiefs then 0 else 1;
      var team2Index := 1 - team1Index;
      var score1, score2 := Score(scores, team1Index), Score(scores, team2Index);
      var row := FindIndex(t.axis2.numbers, score2);
      var col := FindIndex(t.axis1.numbers, score1);
      if row == -1 || col == -1 then None else Some(Cell(row, col))
  }

  /**
   * On an assigned board, two scores in 0..9 always resolve to a square of
   * the grid.
   */
  lemma DigitScoresResolve(board: Board, scores: (int, int))
    requires board.teams.Some? && TeamsValid(board.teams.value)
    requires 0 <= scores.0 <= 9 && 0 <= scores.1 <= 9
    ensures FindWinningSquare(board, scores).Some?
    ensures InGrid(FindWinningSquare(board, scores).value)
  {
    var t := board.teams.value;
    var score1 := if t.axis1.team == Chiefs then scores.0 else scores.1;
    var score2 := if t.axis1.team == Chiefs then scores.1 else scores.0;
    DigitPermutationRange(t.axis1.numbers);
    DigitPermutationRange(t.axis2.numbers);
    DigitPermutationCovers(t.axis1.numbers, score1);
    DigitPermutationCovers(t.axis2.numbers, score2);
  }

  /** Whatever the scores, a resolved square on an assigned board lies in the grid. */
  lemma ResolvedInGrid(board: Board, scores: (int, int))
    requires board.teams.Some? && TeamsValid(board.teams.value)
    ensures FindWinningSquare(board, scores).Some? ==> InGrid(FindWinningSquare(board, scores).value)
  {
    DigitPermutationRange(board.teams.value.axis1.numbers);
    DigitPermutationRange(board.teams.value.axis2.numbers);
  }

  /** A raw score outside 0..9, such as 17, never resolves on an assigned board. */
  lemma RawScoreOutsideDigitsUnresolved(board: Board, scores: (int, int))
    requires board.teams.Some? && TeamsValid(board.teams.value)
    requires !(0 <= scores.0 <= 9) || !(0 <= scores.1 <= 9)
    ensures FindWinningSquare(board, scores).None?
  {
    DigitPermutationRange(board.teams.value.axis1.numbers);
    DigitPermutationRange(board.teams.value.axis2.numbers);
  }

  /** In a permutation of 0..9 the first index of the digit at `i` is `i`. */
  lemma FindIndexOfDigitAt(s: seq<int>, i: int)
    requires IsPermutation(s, Digits())
    requires 0 <= i < |s|
    ensures FindIndex(s, s[i]) == i
  {
    var k := FindIndex(s, s[i]);
    if k < i {
      DigitPermutationDistinct(s, k, i);
    }
  }

  /**
   * Axis 1's team scoring the digit at index `col` of axis 1 and axis 2's
   * team scoring the digit at index `row` of axis 2 gives the square
   * `[row, col]`, whichever team holds axis 1 (the score pair is always
   * Chiefs first).
   */
  lemma WinningSquareAt(board: Board, row: int, col: int)
    requires board.teams.Some? && TeamsValid(board.teams.value)
    requires 0 <= row < 10 && 0 <= col < 10
    ensures var t := board.teams.value;
      var p1, p2 := t.axis1.numbers, t.axis2.numbers;
      |p1| == 10 && |p2| == 10 &&
      FindWinningSquare(board, if t.axis1.team == Chiefs then (p1[col], p2[row]) else (p2[row], p1[col]))
        == Some(Cell(row, col))
  {
    var t := board.teams.value;
    DigitPermutationRange(t.axis1.numbers);
    DigitPermutationRange(t.axis2.numbers);
    FindIndexOfDigitAt(t.axis1.numbers, col);
    FindIndexOfDigitAt(t.axis2.numbers, row);
  }

  /** Position of a quarter in the order `q1, q2, q3, q4`. */
  function Rank(q: Quarter): nat {
    match q
    case Q1 => 0
    case Q2 => 1
    case Q3 => 2
    case Q4 => 3
  }

  /** The quarters in the order the job reads them. */
  function AllQuarters(): (qs: seq<Quarter>)
    ensures |qs| == 4 && forall i :: 0 <= i < 4 ==> Rank(qs[i]) == i
  {
    [Q1, Q2, Q3, Q4]
  }

  /** The entries' quarters appear in strictly increasing order, so each at most once. */
  predicate QuartersAscending(ws: seq<WinnerEnv>) {
    forall i, j :: 0 <= i < j < |ws| ==> Rank(ws[i].quarter) < Rank(ws[j].quarter)
  }

  /** The entry one quarter contributes: one when its variable is non-empty and parses, none otherwise. */
  function ParsedQuarter(env: map<Quarter, string>, parse: string -> Option<(int, int)>, quarter: Quarter): seq<WinnerEnv> {
    if quarter in env && env[quarter] != "" && parse(env[quarter]).Some?
    then [WinnerEnv(quarter, parse(env[quarter]).value)]
    else []
  }

  /** The entries the quarters `qs` contribute, in order. */
  function ParsedWinners(env: map<Quarter, string>, parse: string -> Option<(int, int)>, qs: seq<Quarter>): seq<WinnerEnv>
    decreases |qs|
  {
    if qs == [] then []
    else ParsedWinners(env, parse, qs[..|qs| - 1]) + ParsedQuarter(env, parse, qs[|qs| - 1])
  }

  /**
   * `getWinnersFromEnv`: for each quarter in order, a non-empty
   * `WINNER_Qn` value that `parse` turns into two numbers yields one entry.
   * `env` holds the variables that are set; `parse` stands for the
   * `split(',').map(Number)` and `isNaN` tests.
   */
  method WinnersFromEnv(env: map<Quarter, string>, parse: string -> Option<(int, int)>) returns (ws: seq<WinnerEnv>)
    ensures ws == ParsedWinners(env, parse, AllQuarters())
  {
    var quarters := AllQuarters();
    ws := [];
    var k := 0;
    while k < |quarters|
      invariant 0 <= k <= |quarters|
      invariant ws == ParsedWinners(env, parse, quarters[..k])
    {
      var quarter := quarters[k];
      var envValue := if quarter in env then env[quarter] else "";
      if envValue != "" {
        var parsed := parse(envValue);
        if parsed.Some? {
          ws := ws + [WinnerEnv(quarter, parsed.value)];
        }
      }
      assert quarters[..k + 1][..k] == quarters[..k];
      k := k + 1;
    }
    assert quarters[..|quarters|] == quarters;
  }

  /** Unfolding the parsed list of the first `k` quarters by its last quarter. */
  lemma ParsedWinnersStep(env: map<Quarter, string>, parse: string -> Option<(int, int)>, k: nat)
    requires 0 < k <= 4
    ensures ParsedWinners(env, parse, AllQuarters()[..k])
      == ParsedWinners(env, parse, AllQuarters()[..k - 1]) + ParsedQuarter(env, parse, AllQuarters()[k - 1])
  {
    assert AllQuarters()[..k][..k - 1] == AllQuarters()[..k - 1];
  }

  /** The entries of the first `k` quarters ascend and come before the `k`-th quarter. */
  lemma {:induction false} ParsedWinnersOrder(env: map<Quarter, string>, parse: string -> Option<(int, int)>, k: nat)
    requires k <= 4
    ensures var ws := ParsedWinners(env, parse, AllQuarters()[..k]);
      QuartersAscending(ws) && forall i :: 0 <= i < |ws| ==> Rank(ws[i].quarter) < k
  {
    if k > 0 {
      ParsedWinnersOrder(env, parse, k - 1);
      ParsedWinnersStep(env, parse, k);
    }
  }

  /** Each entry of the first `k` quarters was set, non-empty and parsed to its scores. */
  lemma {:induction false} ParsedWinnersEntries(env: map<Quarter, string>, parse: string -> Option<(int, int)>, k: nat)
    requires k <= 4
    ensures var ws := ParsedWinners(env, parse, AllQuarters()[..k]);
      forall i :: 0 <= i < |ws| ==>
        ws[i].quarter in env && env[ws[i].quarter] != "" && parse(env[ws[i].quarter]) == Some(ws[i].scores)
  {
    if k > 0 {
      ParsedWinnersEntries(env, parse, k - 1);
      ParsedWinnersStep(env, parse, k);
    }
  }

  /** Each of the first `k` quarters whose variable is set, non-empty and parses has an entry. */
  lemma {:induction false} ParsedWinnersCover(env: map<Quarter, string>, parse: string -> Option<(int, int)>, k: nat)
    requires k <= 4
    ensures var ws := ParsedWinners(env, parse, AllQuarters()[..k]);
      forall q :: Rank(q) < k && q in env && env[q] != "" && parse(env[q]).Some? ==>
        exists i :: 0 <= i < |ws| && ws[i].quarter == q
  {
    if k > 0 {
      ParsedWinnersCover(env, parse, k - 1);
      ParsedWinnersStep(env, parse, k);
      var before := ParsedWinners(env, parse, AllQuarters()[..k - 1]);
      var ws := ParsedWinners(env, parse, AllQuarters()[..k]);
      var quarter := AllQuarters()[k - 1];
      forall q | Rank(q) < k && q in env && env[q] != "" && parse(env[q]).Some?
        ensures exists i :: 0 <= i < |ws| && ws[i].quarter == q
      {
        if Rank(q) < k - 1 {
          var i :| 0 <= i < |before| && before[i].quarter == q;
          assert ws[i] == before[i];
        } else {
          assert q == quarter;
          assert ws[|ws| - 1].quarter == q;
        }
      }
    }
  }

  /**
   * The parsed list holds each quarter at most once, in the order q1..q4;
   * its entries are exactly the quarters whose variable is set, non-empty
   * and parses, each with its parsed scores.
   */
  lemma ParsedWinnersSpec(env: map<Quarter, string>, parse: string -> Option<(int, int)>)
    ensures var ws := ParsedWinners(env, parse, AllQuarters());
      && QuartersAscending(ws)
      && (forall i :: 0 <= i < |ws| ==>
            ws[i].quarter in env && env[ws[i].quarter] != "" && parse(env[ws[i].quarter]) == Some(ws[i].scores))
      && (forall q :: q in env && env[q] != "" && parse(env[q]).Some? ==>
            exists i :: 0 <= i < |ws| && ws[i].quarter == q)
  {
    assert AllQuarters()[..4] == AllQuarters();
    ParsedWinnersOrder(env, parse, 4);
    ParsedWinnersEntries(env, parse, 4);
    ParsedWinnersCover(env, parse, 4);
  }

  /** The starting copy `{ ...board.winners }`: no winners spread to `{}`. */
  function InitialWinners(board: Board): map<Quarter, Cell> {
    board.winners.GetOr(map[])
  }

  /**
   * The winners after processing `ws` in order: each entry whose score pair
   * resolves overwrites its quarter, the others change nothing.
   */
  function MergedWinners(board: Board, ws: seq<WinnerEnv>): map<Quarter, Cell>
    decreases |ws|
  {
    if ws == [] then InitialWinners(board)
    else
      var merged := MergedWinners(board, ws[..|ws| - 1]);
      var last := ws[|ws| - 1];
      match FindWinningSquare(board, last.scores)
      case Some(square) => merged[last.quarter := square]
      case None => merged
  }

  /**
   * The job writes a board exactly when the merged winners differ from the
   * stored ones; a board stored with no winners always differs, because the
   * spread copy is `{}` where the stored value is absent.
   */
  predicate NeedsWrite(board: Board, merged: map<Quarter, Cell>) {
    board.winners.None? || merged != board.winners.value
  }

  /** The inner loop of `updateBoardWinners` over the parsed entries, for one board. */
  method MergeWinners(board: Board, ws: seq<WinnerEnv>) returns (updatedWinners: map<Quarter, Cell>)
    ensures updatedWinners == MergedWinners(board, ws)
  {
    updatedWinners := InitialWinners(board);
    var i := 0;
    while i < |ws|
      invariant 0 <= i <= |ws|
      invariant updatedWinners == MergedWinners(board, ws[..i])
    {
      var winningSquare := FindWinningSquare(board, ws[i].scores);
      if winningSquare.Some? {
        updatedWinners := updatedWinners[ws[i].quarter := winningSquare.value];
      }
      assert ws[..i + 1][..i] == ws[..i];
      i := i + 1;
    }
    assert ws[..|ws|] == ws;
  }

  /**
   * The writes the job would send: nothing when no entry was parsed;
   * otherwise, for each locked board in the order read, its merged
   * winners when they differ from the stored ones.
   */
  function PlannedWrites(ws: seq<WinnerEnv>, boards: seq<Board>): seq<Write>
    decreases |boards|
  {
    if ws == [] || boards == [] then []
    else
      var rest := PlannedWrites(ws, boards[..|boards| - 1]);
      var board := boards[|boards| - 1];
      var merged := MergedWinners(board, ws);
      if board.state == Locked && NeedsWrite(board, merged) then rest + [Write(board.id, merged)] else rest
  }

  /**
   * `updateBoardWinners`. `stored` is the table; the query keeps the locked
   * boards. Failures of single writes are logged by the source and do not
   * stop the loop, so every planned write is issued.
   */
  method UpdateBoardWinners(ws: seq<WinnerEnv>, stored: seq<Board>) returns (writes: seq<Write>)
    ensures writes == PlannedWrites(ws, stored)
  {
    writes := [];
    if |ws| == 0 {
      return;
    }
    var k := 0;
    while k < |stored|
      invariant 0 <= k <= |stored|
      invariant writes == PlannedWrites(ws, stored[..k])
    {
      var board := stored[k];
      if board.state == Locked {
        var updatedWinners := MergeWinners(board, ws);
        if NeedsWrite(board, updatedWinners) {
          writes := writes + [Write(board.id, updatedWinners)];
        }
      }
      assert stored[..k + 1][..k] == stored[..k];
      k := k + 1;
    }
    assert stored[..|stored|] == stored;
  }

  /** One step of the merge: the last entry overwrites its quarter when it resolves. */
  lemma MergedWinnersLast(board: Board, ws: seq<WinnerEnv>)
    requires ws != []
    ensures var m, last := MergedWinners(board, ws[..|ws| - 1]), ws[|ws| - 1];
      var r := FindWinningSquare(board, last.scores);
      MergedWinners(board, ws) == if r.Some? then m[last.quarter := r.value] else m
  {
  }

  /** The merge never removes a quarter. */
  lemma {:induction false} MergedWinnersKeys(board: Board, ws: seq<WinnerEnv>)
    ensures InitialWinners(board).Keys <= MergedWinners(board, ws).Keys
    decreases |ws|
  {
    if ws != [] {
      MergedWinnersKeys(board, ws[..|ws| - 1]);
      MergedWinnersLast(board, ws);
    }
  }

  /** With each quarter at most once in `ws`, a quarter whose entry resolves holds the resolved square. */
  lemma {:induction false} MergedWinnersResolved(board: Board, ws: seq<WinnerEnv>, i: int)
    requires QuartersAscending(ws)
    requires 0 <= i < |ws| && FindWinningSquare(board, ws[i].scores).Some?
    ensures ws[i].quarter in MergedWinners(board, ws)
    ensures MergedWinners(board, ws)[ws[i].quarter] == FindWinningSquare(board, ws[i].scores).value
    decreases |ws|
  {
    MergedWinnersLast(board, ws);
    if i < |ws| - 1 {
      var front := ws[..|ws| - 1];
      assert front[i] == ws[i];
      MergedWinnersResolved(board, front, i);
      assert Rank(ws[i].quarter) < Rank(ws[|ws| - 1].quarter);
    }
  }

  /** A quarter none of whose entries resolves keeps its old entry, or stays absent. */
  lemma {:induction false} MergedWinnersUnresolved(board: Board, ws: seq<WinnerEnv>, q: Quarter)
    requires forall i :: 0 <= i < |ws| && ws[i].quarter == q ==> FindWinningSquare(board, ws[i].scores).None?
    ensures q in MergedWinners(board, ws) <==> q in InitialWinners(board)
    ensures q in InitialWinners(board) ==> MergedWinners(board, ws)[q] == InitialWinners(board)[q]
    decreases |ws|
  {
    if ws != [] {
      var front := ws[..|ws| - 1];
      forall i | 0 <= i < |front| && front[i].quarter == q ensures FindWinningSquare(board, front[i].scores).None? {
        assert front[i] == ws[i];
      }
      MergedWinnersUnresolved(board, front, q);
      MergedWinnersLast(board, ws);
    }
  }

  /**
   * With each quarter at most once in `ws`: a quarter whose entry resolves
   * holds the resolved square; a quarter without a resolving entry keeps
   * its old entry, or stays absent; no quarter is ever removed.
   */
  lemma MergedWinnersAt(board: Board, ws: seq<WinnerEnv>, q: Quarter)
    requires QuartersAscending(ws)
    ensures InitialWinners(board).Keys <= MergedWinners(board, ws).Keys
    ensures forall i :: 0 <= i < |ws| && ws[i].quarter == q && FindWinningSquare(board, ws[i].scores).Some? ==>
      q in MergedWinners(board, ws) && MergedWinners(board, ws)[q] == FindWinningSquare(board, ws[i].scores).value
    ensures (forall i :: 0 <= i < |ws| && ws[i].quarter == q ==> FindWinningSquare(board, ws[i].scores).None?) ==>
      && (q in MergedWinners(board, ws) <==> q in InitialWinners(board))
      && (q in InitialWinners(board) ==> MergedWinners(board, ws)[q] == InitialWinners(board)[q])
  {
    MergedWinnersKeys(board, ws);
    forall i | 0 <= i < |ws| && ws[i].quarter == q && FindWinningSquare(board, ws[i].scores).Some?
      ensures q in MergedWinners(board, ws) && MergedWinners(board, ws)[q] == FindWinningSquare(board, ws[i].scores).value
    {
      MergedWinnersResolved(board, ws, i);
    }
    if forall i :: 0 <= i < |ws| && ws[i].quarter == q ==> FindWinningSquare(board, ws[i].scores).None? {
      MergedWinnersUnresolved(board, ws, q);
    }
  }

  /** Every square in the merged winners was already stored or was resolved from some entry. */
  lemma {:induction false} MergedWinnersFrom(board: Board, ws: seq<WinnerEnv>, q: Quarter)
    requires q in MergedWinners(board, ws)
    ensures || (q in InitialWinners(board) && MergedWinners(board, ws)[q] == InitialWinners(board)[q])
            || exists i :: 0 <= i < |ws| && FindWinningSquare(board, ws[i].scores) == Some(MergedWinners(board, ws)[q])
    decreases |ws|
  {
    if ws != [] {
      var front := ws[..|ws| - 1];
      var last := ws[|ws| - 1];
      var r := FindWinningSquare(board, last.scores);
      if r.Some? && q == last.quarter {
        assert FindWinningSquare(board, ws[|ws| - 1].scores) == Some(MergedWinners(board, ws)[q]);
      } else {
        MergedWinnersFrom(board, front, q);
        forall i | 0 <= i < |front| ensures front[i] == ws[i] { }
      }
    }
  }

  /** The board the job leaves behind after writing `merged` into it. */
  function WithWinners(board: Board, merged: map<Quarter, Cell>): (b: Board)
    ensures b.winners == Some(merged) && b == board.(winners := b.winners)
  {
    board.(winners := Some(merged))
  }

  /** Writing the merged winners keeps every board invariant: each recorded square lies in the grid. */
  lemma MergePreservesValid(board: Board, ws: seq<WinnerEnv>)
    requires Valid(board)
    ensures Valid(WithWinners(board, MergedWinners(board, ws)))
  {
    var merged := MergedWinners(board, ws);
    var b' := WithWinners(board, merged);
    forall q | q in merged ensures InGrid(merged[q]) {
      MergedWinnersFrom(board, ws, q);
      if exists i :: 0 <= i < |ws| && FindWinningSquare(board, ws[i].scores) == Some(merged[q]) {
        var i :| 0 <= i < |ws| && FindWinningSquare(board, ws[i].scores) == Some(merged[q]);
        ResolvedInGrid(board, ws[i].scores);
      }
    }
    forall n ensures CountOwned(b'.squares, n) <= b'.max_squares_per_contestant {
      assert CountOwned(board.squares, n) <= board.max_squares_per_contestant;
    }
  }

  /**
   * Re-running the merge on a board that already holds its merged winners
   * yields the same winners, so that board is not written again.
   */
  lemma MergeIdempotent(board: Board, ws: seq<WinnerEnv>)
    requires QuartersAscending(ws)
    ensures var b' := WithWinners(board, MergedWinners(board, ws));
      MergedWinners(b', ws) == MergedWinners(board, ws) && !NeedsWrite(b', MergedWinners(b', ws))
  {
    var merged := MergedWinners(board, ws);
    var b' := WithWinners(board, merged);
    forall s ensures FindWinningSquare(b', s) == FindWinningSquare(board, s) { }
    forall q ensures (q in MergedWinners(b', ws) <==> q in merged)
      && (q in merged ==> MergedWinners(b', ws)[q] == merged[q])
    {
      MergedWinnersAt(board, ws, q);
      MergedWinnersAt(b', ws, q);
    }
  }

  /**
   * Each planned write belongs to a locked board of the table and carries
   * that board's merged winners, which differ from the stored ones; every
   * locked board whose merged winners differ is written; and an empty
   * entry list plans no write at all.
   */
  lemma {:induction false} PlannedWritesSpec(ws: seq<WinnerEnv>, boards: seq<Board>)
    ensures ws == [] ==> PlannedWrites(ws, boards) == []
    ensures forall w :: w in PlannedWrites(ws, boards) ==>
      exists b :: b in boards && b.state == Locked && w == Write(b.id, MergedWinners(b, ws)) && NeedsWrite(b, w.winners)
    ensures ws != [] ==> forall b :: b in boards && b.state == Locked && NeedsWrite(b, MergedWinners(b, ws)) ==>
      Write(b.id, MergedWinners(b, ws)) in PlannedWrites(ws, boards)
    decreases |boards|
  {
    if ws != [] && boards != [] {
      var front := boards[..|boards| - 1];
      PlannedWritesSpec(ws, front);
      assert boards == front + [boards[|boards| - 1]];
      var last := boards[|boards| - 1];
      forall w | w in PlannedWrites(ws, boards)
        ensures exists b :: b in boards && b.state == Locked && w == Write(b.id, MergedWinners(b, ws)) && NeedsWrite(b, w.winners)
      {
        if w !in PlannedWrites(ws, front) {
          assert w == Write(last.id, MergedWinners(last, ws));
        } else {
          var b :| b in front && b.state == Locked && w == Write(b.id, MergedWinners(b, ws)) && NeedsWrite(b, w.winners);
          assert b in boards;
        }
      }
    }
  }

  /** One board after the job: written when planned, otherwise as read. */
  function AfterJob(ws: seq<WinnerEnv>, board: Board): Board {
    var merged := MergedWinners(board, ws);
    if ws != [] && board.state == Locked && NeedsWrite(board, merged) then WithWinners(board, merged) else board
  }

  /**
   * Running the job twice with the same entries: the second run plans
   * nothing for any board, and every board that was valid stays valid.
   */
  lemma JobIdempotent(ws: seq<WinnerEnv>, board: Board)
    requires QuartersAscending(ws)
    ensures var b' := AfterJob(ws, board);
      !(ws != [] && b'.state == Locked && NeedsWrite(b', MergedWinners(b', ws)))
    ensures Valid(board) ==> Valid(AfterJob(ws, board))
  {
    if ws != [] && board.state == Locked && NeedsWrite(board, MergedWinners(board, ws)) {
      MergeIdempotent(board, ws);
    }
    if Valid(board) {
      MergePreservesValid(board, ws);
    }
  }

  /** The table after the job has applied its planned writes. */
  function AfterRun(ws: seq<WinnerEnv>, boards: seq<Board>): (r: seq<Board>)
    ensures |r| == |boards| && forall i :: 0 <= i < |boards| ==> r[i] == AfterJob(ws, boards[i])
    decreases |boards|
  {
    if boards == [] then []
    else AfterRun(ws, boards[..|boards| - 1]) + [AfterJob(ws, boards[|boards| - 1])]
  }

  /** A second run over the table the first run left behind writes nothing. */
  lemma {:induction false} SecondRunWritesNothing(ws: seq<WinnerEnv>, boards: seq<Board>)
    requires QuartersAscending(ws)
    ensures PlannedWrites(ws, AfterRun(ws, boards)) == []
    decreases |boards|
  {
    if ws != [] && boards != [] {
      var after := AfterRun(ws, boards);
      var front := boards[..|boards| - 1];
      SecondRunWritesNothing(ws, front);
      assert after[..|after| - 1] == AfterRun(ws, front);
      JobIdempotent(ws, boards[|boards| - 1]);
    }
  }

  /**
   * A board stored without winners is written even when no entry resolves:
   * the copy is the empty map, which differs from the absent value.
   */
  lemma {:induction false} AbsentWinnersWritten(board: Board, ws: seq<WinnerEnv>)
    requires board.winners.None?
    requires forall i :: 0 <= i < |ws| ==> FindWinningSquare(board, ws[i].scores).None?
    ensures MergedWinners(board, ws) == map[] && NeedsWrite(board, MergedWinners(board, ws))
  {
    forall q ensures q !in MergedWinners(board, ws) {
      MergedWinnersUnresolved(board, ws, q);
    }
  }

  /** A board with stored winners is written exactly when some quarter's cell changed or was added. */
  lemma StoredWinnersWrittenIffChanged(board: Board, ws: seq<WinnerEnv>)
    requires board.winners.Some?
    ensures NeedsWrite(board, MergedWinners(board, ws)) <==>
      exists q :: q in MergedWinners(board, ws) &&
        (q !in board.winners.value || MergedWinners(board, ws)[q] != board.winners.value[q])
  {
    var merged, stored := MergedWinners(board, ws), board.winners.value;
    MergedWinnersKeys(board, ws);
    if forall q :: q in merged ==> q in stored && merged[q] == stored[q] {
      assert merged.Keys == stored.Keys;
    }
  }

  /**
   * The table after the run is the table with the planned writes applied:
   * each board is either unchanged, or its write is planned and the board
   * holds the written winners.
   */
  lemma AfterJobMatchesPlan(ws: seq<WinnerEnv>, boards: seq<Board>, b: Board)
    requires b in boards
    ensures || AfterJob(ws, b) == b
            || (Write(b.id, MergedWinners(b, ws)) in PlannedWrites(ws, boards)
                && AfterJob(ws, b) == WithWinners(b, MergedWinners(b, ws)))
  {
    PlannedWritesSpec(ws, boards);
  }
}
