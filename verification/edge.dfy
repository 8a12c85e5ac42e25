/**
 * The on-board filter, kept apart from the king's candidate computation,
 * which itself never checks the board edge: which of the king's
 * candidates lie on the 8x8 board.
 */
module BoardEdge {
  import opened Geometry
  import opened King

  /** Number of files (and of ranks) on the board. */
  const BoardSize := 8

  /** Whether coordinate x lies on the board. */
  predicate InRange(x: int) {
    0 <= x < BoardSize
  }

  /** Both coordinates within 0..7. */
  predicate OnBoard(p: Position) {
    InRange(p.file) && InRange(p.rank)
  }

  /** How many of x-1, x, x+1 are valid coordinates, for x on the board. */
  function Span(x: int): nat {
    if x == 0 || x == BoardSize - 1 then 2 else 3
  }

  /**
   * The king's candidates from p that lie on the board, found by stepping
   * only along the directions that stay on the board. A king on the board
   * keeps as many as there are squares in its surrounding block clipped to
   * the board, less its own: 3 in a corner, 5 on an edge, 8 elsewhere.
   */
  function OnBoardCandidates(p: Position): (s: set<Position>)
    ensures forall q :: q in s <==> q in KingCandidates(p).0 && OnBoard(q)
    ensures OnBoard(p) ==> |s| == Span(p.file) * Span(p.rank) - 1
  {
    var s := set q | q in KingCandidates(p).0 && OnBoard(q);
    OnBoardStepsMembers(p);
    assert s == Steps(p, OnBoardDirections(p, KingDirections));
    if OnBoard(p) then OnBoardStepsCount(p); s else s
  }

  /** The steps along the directions that stay on the board reach exactly the on-board neighbours. */
  lemma OnBoardStepsMembers(p: Position)
    ensures forall q :: q in Steps(p, OnBoardDirections(p, KingDirections)) <==> Adjacent(p, q) && OnBoard(q)
  {
    var fs := OnBoardDirections(p, KingDirections);
    KingDirectionsEachOnce();
    StepsMembers(p, fs);
    forall q ensures q in Steps(p, fs) <==> Adjacent(p, q) && OnBoard(q) {
      if Adjacent(p, q) {
        assert Move(p, DirectionOf(OffsetBetween(p, q))) == q;
      }
    }
  }

  /** From a square on the board, the on-board steps number the clipped block less the king's own square. */
  lemma OnBoardStepsCount(p: Position)
    requires OnBoard(p)
    ensures |Steps(p, OnBoardDirections(p, KingDirections))| == Span(p.file) * Span(p.rank) - 1
  {
    KingDirectionsEachOnce();
    OnBoardDirectionsLength(p, KingDirections);
    StaysOnSum(p);
  }

  /** The directions of ds, in order, whose step from p stays on the board. */
  function OnBoardDirections(p: Position, ds: seq<Direction>): (fs: seq<Direction>)
    ensures forall d :: d in fs <==> d in ds && OnBoard(Move(p, d))
    ensures Distinct(ds) ==> Distinct(fs)
    ensures |fs| <= |ds|
  {
    if ds == [] then []
    else
      var rest := OnBoardDirections(p, ds[1..]);
      assert forall d :: d in ds <==> d == ds[0] || d in ds[1..];
      assert Distinct(ds) ==> Distinct(ds[1..]) && ds[0] !in ds[1..];
      if OnBoard(Move(p, ds[0])) then [ds[0]] + rest else rest
  }

  /** 1 when the step from p towards d stays on the board, else 0. */
  function StaysOn(p: Position, d: Direction): nat {
    if OnBoard(Move(p, d)) then 1 else 0
  }

  /** How many directions of ds lead from p to a square on the board. */
  function CountOnBoard(p: Position, ds: seq<Direction>): nat {
    if ds == [] then 0 else StaysOn(p, ds[0]) + CountOnBoard(p, ds[1..])
  }

  /** Filtering keeps one direction for each direction whose step stays on the board. */
  lemma {:induction false} OnBoardDirectionsLength(p: Position, ds: seq<Direction>)
    ensures |OnBoardDirections(p, ds)| == CountOnBoard(p, ds)
  {
    if ds != [] {
      OnBoardDirectionsLength(p, ds[1..]);
    }
  }

  /** Counting along the king's list is counting its eight directions one by one. */
  lemma CountKingDirections(p: Position)
    ensures CountOnBoard(p, KingDirections)
         == StaysOn(p, North) + StaysOn(p, NorthEast) + StaysOn(p, East) + StaysOn(p, SouthEast)
          + StaysOn(p, South) + StaysOn(p, SouthWest) + StaysOn(p, West) + StaysOn(p, NorthWest)
  {
    var ds := KingDirections;
    assert ds[7..] == [NorthWest] && ds[7..][1..] == [];
    assert CountOnBoard(p, ds[7..]) == StaysOn(p, NorthWest);
    assert CountOnBoard(p, ds[6..]) == StaysOn(p, West) + CountOnBoard(p, ds[7..]);
    assert CountOnBoard(p, ds[5..]) == StaysOn(p, SouthWest) + CountOnBoard(p, ds[6..]);
    assert CountOnBoard(p, ds[4..]) == StaysOn(p, South) + CountOnBoard(p, ds[5..]);
    assert CountOnBoard(p, ds[3..]) == StaysOn(p, SouthEast) + CountOnBoard(p, ds[4..]);
    assert CountOnBoard(p, ds[2..]) == StaysOn(p, East) + CountOnBoard(p, ds[3..]);
    assert CountOnBoard(p, ds[1..]) == StaysOn(p, NorthEast) + CountOnBoard(p, ds[2..]);
  }

  /** Counting the eight directions gives the clipped block less the king's own square. */
  lemma StaysOnSum(p: Position)
    requires OnBoard(p)
    ensures CountOnBoard(p, KingDirections) == Span(p.file) * Span(p.rank) - 1
  {
    CountKingDirections(p);
    StaysOnPairs(p);
    BlockArithmetic(Span(p.file), Span(p.rank), SideOn(p.file + 1), SideOn(p.file - 1));
  }

  /** The clipped block less its centre, counted as its rank column, its file row and the two side columns. */
  lemma BlockArithmetic(files: int, ranks: int, east: int, west: int)
    requires east + west == files - 1
    ensures (ranks - 1) + (files - 1) + (ranks - 1) * east + (ranks - 1) * west == files * ranks - 1
  {
    assert (ranks - 1) * east + (ranks - 1) * west == (ranks - 1) * (files - 1);
  }

  /** 1 when coordinate x lies on the board, else 0. */
  function SideOn(x: int): nat {
    if InRange(x) then 1 else 0
  }

  /** The eight directions in opposite pairs: the rank pair, the file pair, and a diagonal pair on each side. */
  lemma StaysOnPairs(p: Position)
    requires OnBoard(p)
    ensures StaysOn(p, North) + StaysOn(p, South) == Span(p.rank) - 1
    ensures StaysOn(p, East) + StaysOn(p, West) == SideOn(p.file + 1) + SideOn(p.file - 1) == Span(p.file) - 1
    ensures StaysOn(p, NorthEast) + StaysOn(p, SouthEast) == (Span(p.rank) - 1) * SideOn(p.file + 1)
    ensures StaysOn(p, NorthWest) + StaysOn(p, SouthWest) == (Span(p.rank) - 1) * SideOn(p.file - 1)
  {
  }

  /**
   * A king in a corner, where the file can only change by i and the rank
   * only by j without leaving the board, keeps exactly three candidates:
   * the squares reached by stepping i, j, or both (for a1, with i = j = 1:
   * a2, b1 and b2).
   */
  lemma CornerKeepsThree(p: Position, i: int, j: int)
    requires OnBoard(p)
    requires (i == 1 || i == -1) && (j == 1 || j == -1)
    requires !InRange(p.file - i) && !InRange(p.rank - j)
    ensures Position(p.file, p.rank + j) in OnBoardCandidates(p)
    ensures Position(p.file + i, p.rank) in OnBoardCandidates(p)
    ensures Position(p.file + i, p.rank + j) in OnBoardCandidates(p)
    ensures OnBoardCandidates(p)
         == {Position(p.file, p.rank + j), Position(p.file + i, p.rank), Position(p.file + i, p.rank + j)}
    ensures |OnBoardCandidates(p)| == 3
  {
    var a, b, c := Position(p.file, p.rank + j), Position(p.file + i, p.rank), Position(p.file + i, p.rank + j);
    var s := OnBoardCandidates(p);
    forall q ensures q in s <==> q == a || q == b || q == c {
      CornerNeighbour(p, i, j, q);
    }
    SetOfThree(s, a, b, c);
  }

  /** From a corner, the on-board neighbours are the steps by i, by j, and by both. */
  lemma CornerNeighbour(p: Position, i: int, j: int, q: Position)
    requires OnBoard(p)
    requires (i == 1 || i == -1) && (j == 1 || j == -1)
    requires !InRange(p.file - i) && !InRange(p.rank - j)
    ensures Adjacent(p, q) && OnBoard(q)
        <==> q == Position(p.file, p.rank + j) || q == Position(p.file + i, p.rank) || q == Position(p.file + i, p.rank + j)
  {
  }

  /** A set whose members are exactly a, b and c is the set {a, b, c}; with distinct values it has three members. */
  lemma SetOfThree(s: set<Position>, a: Position, b: Position, c: Position)
    requires forall x :: x in s <==> x == a || x == b || x == c
    ensures s == {a, b, c}
    ensures a != b && a != c && b != c ==> |s| == 3
  {
  }

  /** p lies on the board at least one square away from every edge. */
  predicate IsInterior(p: Position) {
    1 <= p.file <= BoardSize - 2 && 1 <= p.rank <= BoardSize - 2
  }

  /**
   * The filter removes nothing exactly when the king stands away from the
   * edge; from any other square at least one candidate lies off the board.
   */
  lemma NothingClippedIffInterior(p: Position)
    ensures OnBoardCandidates(p) == KingCandidates(p).0 <==> IsInterior(p)
  {
    if !IsInterior(p) {
      var q :=
        if p.file <= 0 then Position(p.file - 1, p.rank)
        else if p.file >= BoardSize - 1 then Position(p.file + 1, p.rank)
        else if p.rank <= 0 then Position(p.file, p.rank - 1)
        else Position(p.file, p.rank + 1);
      assert Adjacent(p, q) && !OnBoard(q);
      assert q in KingCandidates(p).0 && q !in OnBoardCandidates(p);
    }
  }
}
