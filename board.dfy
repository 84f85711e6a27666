/**
 * The `Board` record of `src/lib/db.ts` and the facts about it that every
 * handler is expected to keep.
 */
module BoardModel {
  import opened Wrappers

  /** The four values of `Board.state`. */
  datatype State = Setup | Choosing | Teams | Locked

  /** The two team labels an axis can carry. */
  datatype Team = Chiefs | Eagles

  /** One axis of the grid: its team and its number list. */
  datatype Axis = Axis(team: Team, numbers: seq<int>)

  datatype TeamAssignment = TeamAssignment(axis1: Axis, axis2: Axis)

  /** A winning square, stored in the source as the pair `[row, col]`. */
  datatype Cell = Cell(row: int, col: int)

  datatype Quarter = Q1 | Q2 | Q3 | Q4

  /**
   * The stored record. The first seven fields are the keys declared by the
   * `Board` interface. `displayName` and `maxSquaresPerContestant` are the
   * two extra camelCase keys the setup handler adds to the record it writes
   * (absent on a board that never went through setup).
   */
  datatype Board = Board(
    id: string,
    display_name: string,
    max_squares_per_contestant: int,
    state: State,
    squares: map<string, string>,
    teams: Option<TeamAssignment>,
    winners: Option<map<Quarter, Cell>>,
    displayName: Option<string>,
    maxSquaresPerContestant: Option<int>
  )

  /** The rejection reasons of the handlers (HTTP status codes left aside). */
  datatype Error =
    | MissingFields
    | NotFound
    | WrongState
    | LimitReached(max: int)
    | AlreadyTaken
    | IncompleteBoard

  /** JavaScript truthiness of an optional string field of a request body. */
  predicate Present(s: Option<string>) {
    s.Some? && s.value != ""
  }

  /** JavaScript truthiness of an optional number field of a request body. */
  predicate PresentNumber(n: Option<int>) {
    n.Some? && n.value != 0
  }

  /** The positions whose owner is `name`: `Object.entries(squares).filter(owner === name)`. */
  function Owned(squares: map<string, string>, name: string): (ps: set<string>)
    ensures forall p :: p in ps <==> p in squares && squares[p] == name
  {
    set p | p in squares && squares[p] == name
  }

  /** How many squares `name` owns. */
  function CountOwned(squares: map<string, string>, name: string): (n: nat)
    ensures n == 0 <==> forall p :: p in squares ==> squares[p] != name
  {
    |Owned(squares, name)|
  }

  /** The list `[0, 1, ..., 9]` that the assignment shuffles. */
  function Digits(): (ds: seq<int>)
    ensures |ds| == 10 && forall i :: 0 <= i < 10 ==> ds[i] == i
  {
    seq(10, i => i)
  }

  /** `s` is a reordering of `t`. */
  predicate IsPermutation<T(==)>(s: seq<T>, t: seq<T>) {
    multiset(s) == multiset(t)
  }

  /** Each axis holds a permutation of 0..9 and the two team labels differ. */
  predicate TeamsValid(t: TeamAssignment) {
    && t.axis1.team != t.axis2.team
    && IsPermutation(t.axis1.numbers, Digits())
    && IsPermutation(t.axis2.numbers, Digits())
  }

  predicate InGrid(c: Cell) {
    0 <= c.row < 10 && 0 <= c.col < 10
  }

  /** No stored square has an empty (falsy) owner. */
  ghost predicate NoEmptyOwners(squares: map<string, string>) {
    forall p :: p in squares ==> squares[p] != ""
  }

  /** Nobody owns more squares than the per-contestant limit. */
  ghost predicate WithinQuota(b: Board) {
    forall n :: CountOwned(b.squares, n) <= b.max_squares_per_contestant
  }

  /**
   * What the handlers keep true of every board they produce: the reserved
   * `teams` state is never reached, owners are non-empty, the quota holds,
   * a locked board has its teams, assigned teams are valid and every
   * recorded winner lies in the 10x10 grid.
   */
  ghost predicate Valid(b: Board) {
    && b.state != Teams
    && NoEmptyOwners(b.squares)
    && WithinQuota(b)
    && (b.state == Locked ==> b.teams.Some?)
    && (b.teams.Some? ==> TeamsValid(b.teams.value))
    && (b.winners.Some? ==> forall q :: q in b.winners.value ==> InGrid(b.winners.value[q]))
  }

  /** Two equal entries at different indices make that value occur at least twice. */
  lemma {:induction false} TwoIndicesCountTwice<T>(s: seq<T>, i: int, j: int)
    requires 0 <= i < j < |s| && s[i] == s[j]
    ensures multiset(s)[s[i]] >= 2
  {
    assert s == s[..i] + [s[i]] + s[i+1..j] + [s[j]] + s[j+1..];
    assert multiset(s) == multiset(s[..i]) + multiset{s[i]} + multiset(s[i+1..j]) + multiset{s[j]} + multiset(s[j+1..]);
  }

  /** A sequence without repeats holds each value at most once. */
  lemma {:induction false} CountInDistinct<T>(t: seq<T>, x: T)
    requires forall i, j :: 0 <= i < j < |t| ==> t[i] != t[j]
    ensures multiset(t)[x] <= 1
  {
    if t != [] {
      assert t == [t[0]] + t[1..];
      assert multiset(t) == multiset{t[0]} + multiset(t[1..]);
      CountInDistinct(t[1..], x);
      if t[0] == x {
        assert x !in t[1..];
      }
    }
  }

  /** A permutation of 0..9 has ten entries, each a digit. */
  lemma DigitPermutationRange(s: seq<int>)
    requires IsPermutation(s, Digits())
    ensures |s| == 10
    ensures forall i :: 0 <= i < |s| ==> 0 <= s[i] <= 9
  {
    assert |multiset(s)| == |s|;
    forall i | 0 <= i < |s| ensures 0 <= s[i] <= 9 {
      assert s[i] in multiset(s);
      assert s[i] in Digits();
    }
  }

  /** A permutation of 0..9 holds every digit. */
  lemma DigitPermutationCovers(s: seq<int>, d: int)
    requires IsPermutation(s, Digits())
    requires 0 <= d <= 9
    ensures d in s
  {
    assert Digits()[d] == d;
    assert d in multiset(Digits());
    assert d in multiset(s);
  }

  /** A permutation of 0..9 has no repeated entry. */
  lemma DigitPermutationDistinct(s: seq<int>, i: int, j: int)
    requires IsPermutation(s, Digits())
    requires 0 <= i < j < |s|
    ensures s[i] != s[j]
  {
    CountInDistinct(Digits(), s[i]);
    if s[i] == s[j] {
      TwoIndicesCountTwice(s, i, j);
    }
  }

  /**
   * A permutation of 0..9 has ten entries, each a digit, with no repeats,
   * and holds every digit.
   */
  lemma DigitPermutation(s: seq<int>)
    requires IsPermutation(s, Digits())
    ensures |s| == 10
    ensures forall i :: 0 <= i < |s| ==> 0 <= s[i] <= 9
    ensures forall d :: 0 <= d <= 9 ==> d in s
    ensures forall i, j :: 0 <= i < |s| && 0 <= j < |s| && i != j ==> s[i] != s[j]
  {
    DigitPermutationRange(s);
    forall d | 0 <= d <= 9 ensures d in s {
      DigitPermutationCovers(s, d);
    }
    forall i, j | 0 <= i < |s| && 0 <= j < |s| && i != j ensures s[i] != s[j] {
      if i < j { DigitPermutationDistinct(s, i, j); } else { DigitPermutationDistinct(s, j, i); }
    }
  }

  /** A reordering of `[Chiefs, Eagles]` has two different labels, one of each. */
  lemma TeamPermutation(s: seq<Team>)
    requires IsPermutation(s, [Chiefs, Eagles])
    ensures |s| == 2 && s[0] != s[1]
    ensures {s[0], s[1]} == {Chiefs, Eagles}
  {
  }
}
