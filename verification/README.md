# King move candidates (ChessPlusPlus)

A Dafny model of the king's move-candidate computation in ChessPlusPlus,
`King::calcTrajectory`. From the king's square the routine steps once in each
of the eight compass directions: North, NorthEast, East, SouthEast, South,
SouthWest, West and NorthWest. Every square reached is added to the piece's
trajectory set and also to its capturing set. That is the stepping rule of
article 3.8 of the FIDE Laws of Chess: the king moves to an adjoining square.

Modules:

- `Geometry` (`geometry.dfy`) holds squares as unbounded `(file, rank)` integer
  pairs, the eight directions and their fixed delta table, and one-step moves.
- `King` (`king.dfy`) holds the king piece and its square, side and two
  accumulated sets. It has a pure `KingCandidates` and a pure `CalcTrajectory`,
  plus `CalcTrajectoryLoop`, which mirrors the source's loop and is proved
  equal to the function.
- `BoardEdge` (`edge.dfy`) is an optional on-board filter (0..7 on both axes),
  kept separate from the king. The king routine itself applies no such check.

The model follows the code, not the usual description of a stepping piece.
That description drops off-board squares and splits the rest into empty,
enemy and friendly squares. `King.cpp` does none of that: it adds every one
of the eight neighbours to both sets, with no edge check and no occupancy
test. Hence `KingCandidates(p).0 == KingCandidates(p).1`
always, and a king in a corner still has eight candidates. `BoardEdge` shows
what an edge filter would keep: three squares in a corner (a1 gives a2, b1 and
b2), eight away from the edge.

The delta table is an assumption. `Position::move` and the `Direction`
enumeration are not part of this model. Files grow eastwards and ranks grow
northwards. Every property about `King` holds for any orientation that maps
the eight directions onto the eight unit steps one-to-one. Only the concrete
squares named in `CornerKeepsThree` depend on this choice.

## Model

| member | source | states |
|---|---|---|
| Geometry.Delta | src/board/King.cpp:21-28 | each of the eight directions is a unit step: at most one square on each axis, and never the null step |
| Geometry.DirectionOf | src/board/King.cpp:21-28 | the inverse of the direction table: every unit step is the delta of a direction |
| Geometry.DeltaInjective | src/board/King.cpp:21-28 | two directions have the same delta exactly when they are the same direction |
| Geometry.Move | src/board/King.cpp:30 | the moved square adjoins the original, and the direction taken can be read back from the offset |
| Geometry.MoveInjective | src/board/King.cpp:21-30 | from one square, two directions reach the same square exactly when they are the same direction |
| Geometry.AdjacentIffMove | src/board/King.cpp:19-30 | a square adjoins p exactly when some single step from p reaches it |
| King.KingDirectionsEachOnce | src/board/King.cpp:21-28 | the loop visits eight directions, no direction twice, and every compass direction is among them |
| King.Steps | src/board/King.cpp:21-33 | when the directions are distinct, the set of stepped-to squares has exactly one square per direction |
| King.StepsMembers | src/board/King.cpp:21-33 | a square is among the steps exactly when some visited direction leads to it |
| King.StepsPrefixNext | src/board/King.cpp:29-33 | one more loop iteration adds exactly the next direction's square to what the earlier iterations added |
| King.KingStepsAreNeighbours | src/board/King.cpp:19-33 | the eight steps reach exactly the squares adjoining the king: no more, no fewer |
| King.KingCandidates | src/board/King.cpp:15-34 | the trajectory and capturing candidates are the same set, that set is exactly the adjoining squares, it has eight members, and the king's own square is not one of them |
| King.CalcTrajectory | src/board/King.cpp:15-34 | the king's square and side are unchanged, and each set gains exactly the squares adjoining the king |
| King.CalcTrajectoryLoop | src/board/King.cpp:21-33 | the loop over the eight directions, adding each stepped-to square to both sets, gives the same piece as the pure function |
| King.FreshCalcTrajectory | src/board/King.cpp:30-32 | starting from empty sets, the trajectory and capturing sets end up equal, with eight squares and without the king's own square |
| King.CalcTrajectoryIdempotent | src/board/King.cpp:15-34 | recomputing from the same square adds nothing new |
| King.NoDistantCandidate | src/board/King.cpp:21-33 | no square two or more away on either axis is in either set |
| King.CandidatesTranslate | src/board/King.cpp:15-34 | the candidates depend only on the king's square: shifting the king shifts every candidate by the same offset |
| BoardEdge.OnBoardCandidates | src/board/King.cpp:21-32 | the filtered candidates are the king's candidates with both coordinates in 0..7; a king on the board keeps (files in reach) x (ranks in reach) - 1 of them: 3 in a corner, 5 on an edge, 8 elsewhere |
| BoardEdge.OnBoardStepsMembers | src/board/King.cpp:21-32 | stepping only along the directions that stay on the board reaches exactly the on-board squares adjoining the king |
| BoardEdge.OnBoardStepsCount | src/board/King.cpp:21-32 | from a square on the board, those steps reach (files in reach) x (ranks in reach) - 1 distinct squares |
| BoardEdge.OnBoardDirections | src/board/King.cpp:21-30 | filtering keeps exactly the directions whose step stays on the board, with no repeats, and never grows the list |
| BoardEdge.OnBoardDirectionsLength | src/board/King.cpp:21-30 | for any list of directions, filtering keeps one entry per direction whose step stays on the board |
| BoardEdge.CountKingDirections | src/board/King.cpp:21-28 | counting over the king's list is counting its eight directions one by one |
| BoardEdge.StaysOnPairs | src/board/King.cpp:21-30 | from a square on the board, North and South together stay on once per neighbouring rank, East and West once per neighbouring file, and each diagonal pair once per neighbouring rank when the file on its side exists |
| BoardEdge.StaysOnSum | src/board/King.cpp:21-30 | from a square on the board, the eight directions stay on the board (files in reach) x (ranks in reach) - 1 times |
| BoardEdge.CornerKeepsThree | src/board/King.cpp:21-32 | a king in a corner, which can move inwards by i on the file and j on the rank, keeps exactly the three squares one step inwards, each named as a member (for a1: a2, b1, b2) |
| BoardEdge.CornerNeighbour | src/board/King.cpp:21-32 | from a corner, a square is an on-board neighbour exactly when it is the step by i, by j, or by both |
| BoardEdge.NothingClippedIffInterior | src/board/King.cpp:30-32 | the filter removes nothing exactly when the king is at least one square from every edge |

## Left out

- The `std::clog` diagnostic at the start of `calcTrajectory` is logging output and does not affect the result.
- `King::moveAnimation` is an empty animation hook with no return type. Rendering is not part of this model.
- The `King` constructor only forwards to the `Piece` constructor, which is not part of this model. The initial contents of the two sets are therefore taken as given.
- `Piece::addTrajectory` and `Piece::addCapturing` are not part of this model. They are modelled as plain insertion into the piece's two sets, with no occupancy, blocking or side test.
- `Board` storage and occupancy queries are not part of this model. The king routine does not consult them.
- `Position::move` is not part of this model. Coordinates are unbounded integers, so it neither clips nor wraps. The source's `Position_t` may use a fixed-width unsigned coordinate type, which would wrap below zero. That wrap-around is not modelled.
- `src/util/JsonReader.hpp` is a wrapper over an external JSON parser, with stream input and pointer ownership. Configuration loading is not part of this model.
