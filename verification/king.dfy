/**
 * The king's move-candidate computation: from its square the king steps
 * once in each of the eight compass directions, and every square reached
 * is recorded both as a trajectory square and as a capturing square.
 */
module King {
  import opened Geometry

  /** The side a piece belongs to. */
  datatype Suit = White | Black

  /**
   * A king on the board: its square, its side, and the trajectory and
   * capturing sets that calcTrajectory adds to.
   */
  datatype KingPiece = KingPiece(
    pos: Position,
    suit: Suit,
    trajectory: set<Position>,
    capturing: set<Position>)

  predicate Distinct<T(==)>(s: seq<T>) {
    forall i, j :: 0 <= i < j < |s| ==> s[i] != s[j]
  }

  /** The directions calcTrajectory visits, in the order it visits them. */
  const KingDirections: seq<Direction> :=
    [North, NorthEast, East, SouthEast, South, SouthWest, West, NorthWest]

  /** The visiting order lists each of the eight compass directions exactly once. */
  lemma KingDirectionsEachOnce()
    ensures |KingDirections| == 8
    ensures Distinct(KingDirections)
    ensures forall d: Direction :: d in KingDirections
  {
    forall d: Direction ensures d in KingDirections {
      var i := DirectionIndex(d);
      assert i < |KingDirections| && KingDirections[i] == d;
    }
  }

  /** Where d sits in the visiting order. */
  function DirectionIndex(d: Direction): nat {
    match d
    case North => 0
    case NorthEast => 1
    case East => 2
    case SouthEast => 3
    case South => 4
    case SouthWest => 5
    case West => 6
    case NorthWest => 7
  }

  /**
   * The squares reached from p by one step along each direction of ds.
   * Distinct directions give distinct squares, so nothing collapses.
   */
  function Steps(p: Position, ds: seq<Direction>): (s: set<Position>)
    ensures Distinct(ds) ==> |s| == |ds|
    decreases |ds|, 0
  {
    if ds == [] then {}
    else
      var front, last := ds[..|ds| - 1], ds[|ds| - 1];
      assert Distinct(ds) ==> Distinct(front) && last !in front;
      StepsMembers(p, front);
      Steps(p, front) + {Move(p, last)}
  }

  /** A square is among the steps exactly when some direction of ds leads to it. */
  lemma {:induction false} StepsMembers(p: Position, ds: seq<Direction>)
    ensures forall q :: q in Steps(p, ds) <==> exists d :: d in ds && Move(p, d) == q
    decreases |ds|, 1
  {
    if ds != [] {
      var front, last := ds[..|ds| - 1], ds[|ds| - 1];
      assert forall d :: d in ds <==> d in front || d == last;
      StepsMembers(p, front);
    }
  }

  /** One more loop iteration adds exactly the square of the next direction. */
  lemma StepsPrefixNext(p: Position, ds: seq<Direction>, i: nat)
    requires i < |ds|
    ensures Steps(p, ds[..i + 1]) == Steps(p, ds[..i]) + {Move(p, ds[i])}
  {
    assert ds[..i + 1][..i] == ds[..i];
  }

  /** The king's eight steps from p reach exactly the squares adjoining p. */
  lemma KingStepsAreNeighbours(p: Position)
    ensures forall q :: q in Steps(p, KingDirections) <==> Adjacent(p, q)
  {
    KingDirectionsEachOnce();
    StepsMembers(p, KingDirections);
    forall q | Adjacent(p, q)
      ensures q in Steps(p, KingDirections)
    {
      var d := DirectionOf(OffsetBetween(p, q));
      assert d in KingDirections && Move(p, d) == q;
    }
  }

  /**
   * The king's candidates from p, as (trajectory squares, capturing squares):
   * the same eight squares, exactly those adjoining p.
   */
  function KingCandidates(p: Position): (r: (set<Position>, set<Position>))
    ensures r.0 == r.1
    ensures forall q :: q in r.0 <==> Adjacent(p, q)
    ensures |r.0| == 8
    ensures p !in r.0
  {
    KingStepsAreNeighbours(p);
    var s := Steps(p, KingDirections);
    (s, s)
  }

  /**
   * calcTrajectory: adds every candidate square to the king's trajectory set
   * and to its capturing set, and leaves the king's square and side alone.
   */
  function CalcTrajectory(k: KingPiece): (k': KingPiece)
    ensures k'.pos == k.pos && k'.suit == k.suit
    ensures forall q :: q in k'.trajectory <==> q in k.trajectory || Adjacent(k.pos, q)
    ensures forall q :: q in k'.capturing <==> q in k.capturing || Adjacent(k.pos, q)
  {
    var (t, c) := KingCandidates(k.pos);
    k.(trajectory := k.trajectory + t, capturing := k.capturing + c)
  }

  /** The loop of calcTrajectory, one direction at a time, adding each square to both sets. */
  method CalcTrajectoryLoop(k: KingPiece) returns (k': KingPiece)
    ensures k' == CalcTrajectory(k)
  {
    var ds := KingDirections;
    var trajectory, capturing := k.trajectory, k.capturing;
    for i := 0 to |ds|
      invariant trajectory == k.trajectory + Steps(k.pos, ds[..i])
      invariant capturing == k.capturing + Steps(k.pos, ds[..i])
    {
      var t := Move(k.pos, ds[i]);
      StepsPrefixNext(k.pos, ds, i);
      trajectory := trajectory + {t};
      capturing := capturing + {t};
    }
    assert ds[..|ds|] == ds;
    k' := k.(trajectory := trajectory, capturing := capturing);
  }

  /** Starting from empty sets, the king ends with the same eight squares in both. */
  lemma FreshCalcTrajectory(k: KingPiece)
    requires k.trajectory == {} && k.capturing == {}
    ensures CalcTrajectory(k).trajectory == CalcTrajectory(k).capturing
    ensures |CalcTrajectory(k).trajectory| == 8
    ensures k.pos !in CalcTrajectory(k).trajectory
  {
    assert CalcTrajectory(k).trajectory == KingCandidates(k.pos).0;
  }

  /** Running calcTrajectory again from the same square adds nothing new. */
  lemma CalcTrajectoryIdempotent(k: KingPiece)
    ensures CalcTrajectory(CalcTrajectory(k)) == CalcTrajectory(k)
  {
  }

  /** No square two or more away on either axis is ever a candidate. */
  lemma NoDistantCandidate(p: Position, q: Position)
    requires Abs(q.file - p.file) >= 2 || Abs(q.rank - p.rank) >= 2
    ensures q !in KingCandidates(p).0 && q !in KingCandidates(p).1
  {
  }

  /** The candidate pattern depends only on the offset from the king: shifting the king shifts every candidate. */
  lemma CandidatesTranslate(p: Position, q: Position, v: Offset)
    ensures q in KingCandidates(p).0
        <==> Position(q.file + v.df, q.rank + v.dr)
             in KingCandidates(Position(p.file + v.df, p.rank + v.dr)).0
  {
    var p', q' := Position(p.file + v.df, p.rank + v.dr), Position(q.file + v.df, q.rank + v.dr);
    assert OffsetBetween(p', q') == OffsetBetween(p, q);
  }
}
