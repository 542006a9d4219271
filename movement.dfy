/**
 * The enemy formation's movement rules: a three-state machine (right, left,
 * down) driven by the formation's bounding box and the screen edges, and the
 * frame interval between moves, which shrinks as ships are destroyed.
 */
module Movement {
  import opened Common

  datatype Direction = Right | Left | Down

  const SideMargin: int := 20
  const BottomMargin: int := 80
  const DescentDistance: int := 20
  const MinimumSpeed: int := 10
  const XSpeed: int := 8
  const YSpeed: int := 4

  /** Java's `(int)` cast of a double: truncation toward zero. */
  function Trunc(x: real): (r: int)
    ensures x >= 0.0 ==> r >= 0 && r as real <= x < r as real + 1.0
    ensures x < 0.0 ==> r <= 0 && r as real - 1.0 < x <= r as real
  {
    if x >= 0.0 then x.Floor else -((-x).Floor)
  }

  /**
   * Frames between two moves: (int) ((shipCount / cells)^2 * baseSpeed) + 10,
   * where `cells` is the formation's original number of ships.
   */
  function MovementSpeed(shipCount: int, cells: int, baseSpeed: int): int
    requires cells > 0
  {
    Trunc(Squared(shipCount, cells, baseSpeed)) + MinimumSpeed
  }

  /** The scaled square of the fraction of ships left, before truncation. */
  function Squared(shipCount: int, cells: int, baseSpeed: int): real
    requires cells > 0
  {
    var ratio := shipCount as real / cells as real;
    ratio * ratio * baseSpeed as real
  }

  /** With a non-negative base speed the formation never waits fewer than 10 frames. */
  lemma MovementSpeedAtLeastMinimum(shipCount: int, cells: int, baseSpeed: int)
    requires cells > 0 && baseSpeed >= 0
    ensures MovementSpeed(shipCount, cells, baseSpeed) >= MinimumSpeed
  {
    var ratio := shipCount as real / cells as real;
    assert ratio * ratio >= 0.0;
    assert Squared(shipCount, cells, baseSpeed) >= 0.0;
  }

  /** A full formation waits baseSpeed + 10 frames. */
  lemma MovementSpeedFull(cells: int, baseSpeed: int)
    requires cells > 0
    ensures MovementSpeed(cells, cells, baseSpeed) == baseSpeed + MinimumSpeed
  {
    assert cells as real / cells as real == 1.0;
  }

  /** Fewer ships never mean a longer wait: the formation speeds up as it thins out. */
  lemma MovementSpeedMonotone(c1: int, c2: int, cells: int, baseSpeed: int)
    requires cells > 0 && baseSpeed >= 0 && 0 <= c1 <= c2
    ensures MovementSpeed(c1, cells, baseSpeed) <= MovementSpeed(c2, cells, baseSpeed)
  {
    SquaredMonotone(c1, c2, cells, baseSpeed);
    TruncMonotone(Squared(c1, cells, baseSpeed), Squared(c2, cells, baseSpeed));
  }

  lemma SquaredMonotone(c1: int, c2: int, cells: int, baseSpeed: int)
    requires cells > 0 && baseSpeed >= 0 && 0 <= c1 <= c2
    ensures 0.0 <= Squared(c1, cells, baseSpeed) <= Squared(c2, cells, baseSpeed)
  {
    var r1 := c1 as real / cells as real;
    var r2 := c2 as real / cells as real;
    RatioMonotone(c1, c2, cells);
    ScaledSquareMonotone(r1, r2, baseSpeed as real);
  }

  lemma RatioMonotone(c1: int, c2: int, cells: int)
    requires cells > 0 && 0 <= c1 <= c2
    ensures 0.0 <= c1 as real / cells as real <= c2 as real / cells as real
  {
  }

  lemma ScaledSquareMonotone(x: real, y: real, b: real)
    requires 0.0 <= x <= y && 0.0 <= b
    ensures 0.0 <= x * x * b <= y * y * b
  {
    assert x * x <= x * y <= y * y;
  }

  lemma TruncMonotone(x: real, y: real)
    requires 0.0 <= x <= y
    ensures Trunc(x) <= Trunc(y)
  {
  }

  /** Where the formation's bounding box stands relative to the screen edges. */
  datatype Edges = Edges(atBottom: bool, atRightSide: bool, atLeftSide: bool, atHorizontalAltitude: bool)

  /** The four tests `update` makes on the box (x, y, width, height) inside a screenW x screenH screen. */
  function EdgesOf(x: int, y: int, width: int, height: int, screenW: int, screenH: int): (e: Edges)
    ensures e.atHorizontalAltitude <==> exists k :: y == DescentDistance * k
  {
    var e := Edges(y + height > screenH - BottomMargin, x + width >= screenW - SideMargin, x <= SideMargin, y % DescentDistance == 0);
    assert y == DescentDistance * (y / DescentDistance) + y % DescentDistance;
    e
  }

  /**
   * One movement decision: the new current direction and the new previous
   * direction. Down ends at a multiple of the descent distance and turns
   * back against the previous side; a side move that reaches its margin goes
   * down (remembering the side) unless the box is already at the bottom,
   * where it turns around instead.
   */
  function NextDirection(current: Direction, previous: Option<Direction>, e: Edges): (Direction, Option<Direction>)
  {
    match current
    case Down =>
      if e.atHorizontalAltitude then (if previous == Some(Right) then Left else Right, previous)
      else (Down, previous)
    case Left =>
      if e.atLeftSide then (if !e.atBottom then (Down, Some(Left)) else (Right, previous))
      else (Left, previous)
    case Right =>
      if e.atRightSide then (if !e.atBottom then (Down, Some(Right)) else (Left, previous))
      else (Right, previous)
  }

  /** The move of one tick in a direction: 8 sideways or 4 down. */
  function Displacement(d: Direction): (r: (int, int))
    ensures (r.1 == 0 && (r.0 == XSpeed || r.0 == -XSpeed)) || (r.0 == 0 && r.1 == YSpeed)
    ensures r.1 == YSpeed <==> d == Down
    ensures r.0 > 0 <==> d == Right
  {
    match d
    case Right => (XSpeed, 0)
    case Left => (-XSpeed, 0)
    case Down => (0, YSpeed)
  }

  /** The remembered direction is always a side: it is only ever set when leaving Left or Right. */
  lemma PreviousIsASide(current: Direction, previous: Option<Direction>, e: Edges)
    requires previous != Some(Down)
    ensures NextDirection(current, previous, e).1 != Some(Down)
    ensures NextDirection(current, previous, e).1 != previous ==> NextDirection(current, previous, e).1 == Some(current)
  {
  }

  /**
   * Going down from a side and then reaching the next altitude turns the
   * formation the other way: Right, Down, Left and Left, Down, Right.
   */
  lemma DescentReverses(side: Direction, previous: Option<Direction>, e1: Edges, e2: Edges)
    requires side != Down
    requires side == Right ==> e1.atRightSide
    requires side == Left ==> e1.atLeftSide
    requires !e1.atBottom && e2.atHorizontalAltitude
    ensures var (d1, p1) := NextDirection(side, previous, e1);
            d1 == Down && p1 == Some(side) &&
            NextDirection(d1, p1, e2) == (if side == Right then Left else Right, Some(side))
  {
  }

  /** A side move never leaves its side while the box is clear of that side's margin. */
  lemma SideMoveKeepsGoing(side: Direction, previous: Option<Direction>, e: Edges)
    requires (side == Right && !e.atRightSide) || (side == Left && !e.atLeftSide)
    ensures NextDirection(side, previous, e) == (side, previous)
  {
  }

  /**
   * A descent that starts on the altitude grid ends after exactly five moves
   * of 4: y + 4k is a multiple of 20 again only when k is a multiple of 5.
   */
  lemma {:induction false} DescentTakesFiveMoves(y: int, k: nat)
    requires y % DescentDistance == 0
    ensures (y + YSpeed * k) % DescentDistance == 0 <==> k % 5 == 0
  {
    var q := y / DescentDistance;
    assert y == DescentDistance * q;
    assert y + YSpeed * k == DescentDistance * (q + k / 5) + YSpeed * (k % 5);
    assert 0 <= YSpeed * (k % 5) < DescentDistance;
  }
}
