/**
 * The enemy formation as an object: its grid of ships, its roster of
 * shooters, its movement state and its attack-pattern scheduler, updated in
 * place by construction, `destroy`, `update` (with `cleanUp` and the sweep)
 * and `shoot`.
 */
module Formation {
  import opened Common
  import opened Fleet
  import opened Movement
  import opened Patterns
  import opened EnemyBullets

  const SeparationDistance: int := 40
  const InitPosX: int := 20
  const InitPosY: int := 100

  /** A change the level settings apply to one ship at construction: a zero hp destroys it. */
  datatype Change = Change(x: int, y: int, hp: int)

  /**
   * Sprite family of the ship in row i of h: C while i / h < 0.2, B while
   * i / h < 0.2 + 0.4, A below that.
   */
  function KindFor(i: nat, h: nat): (k: Kind)
    requires h > 0
    ensures k == KindC <==> 5 * i < h
    ensures k == KindB <==> h <= 5 * i < 3 * h
    ensures k == KindA <==> 3 * h <= 5 * i
  {
    if 5 * i < h then KindC else if 5 * i < 3 * h then KindB else KindA
  }

  /** The extent of n ships of the given size placed SeparationDistance apart. */
  function Span(n: int, size: int): (r: int)
    ensures n >= 1 && size >= 0 ==> r >= size
  {
    (n - 1) * SeparationDistance + size
  }

  /** The ship the constructor creates in cell (c, i). */
  function NewShip(c: nat, i: nat, h: nat, shipWidth: int, shipHeight: int): EnemyShip
    requires h > 0
  {
    EnemyShip(SeparationDistance * c + InitPosX, SeparationDistance * i + InitPosY, shipWidth, shipHeight, KindFor(i, h), false)
  }

  /** The columns as built: column c lists the cells (c, 0) to (c, h - 1), top to bottom. */
  function InitialGrid(w: nat, h: nat): (g: Grid)
    ensures |g| == w && forall c :: 0 <= c < w ==> |g[c]| == h && g[c] == ColumnCells(c, h)
  {
    seq(w, (c: int) requires 0 <= c => ColumnCells(c, h))
  }

  /** The first n cells of column c, top to bottom. */
  function ColumnCells(c: nat, n: nat): (r: Column)
    ensures |r| == n && forall i :: 0 <= i < n ==> r[i] == ShipId(c, i)
  {
    seq(n, (i: int) requires 0 <= i => ShipId(c, i))
  }

  /** The ships the constructor has made once it has filled columns 0 to c - 1 and the first i cells of column c. */
  function ShipsBuilt(c: nat, i: nat, h: nat, shipWidth: int, shipHeight: int): (m: Ships)
    requires h > 0
    ensures forall id :: id in m <==> id.row < h && (id.column < c || (id.column == c && id.row < i))
  {
    map id | id in CellSet(c + 1, h) && (id.column < c || id.row < i) :: NewShip(id.column, id.row, h, shipWidth, shipHeight)
  }

  /** Whether an identity names a cell of a w x h formation. */
  predicate InFormation(id: ShipId, w: nat, h: nat) {
    id.column < w && id.row < h
  }

  /** The ships as built: one live ship per cell. */
  function InitialShips(w: nat, h: nat, shipWidth: int, shipHeight: int): (m: Ships)
    requires h > 0
    ensures forall id :: id in m <==> InFormation(id, w, h)
  {
    map id | id in CellSet(w, h) :: NewShip(id.column, id.row, h, shipWidth, shipHeight)
  }

  function CellSet(w: nat, h: nat): (r: set<ShipId>)
    ensures forall id :: id in r <==> InFormation(id, w, h)
  {
    set c, i | 0 <= c < w && 0 <= i < h :: ShipId(c, i)
  }

  /** The ship flags after the settings' changes, each hp == 0 change destroying the ship in its cell. */
  function ApplyChanges(cols: Grid, ships: Ships, changes: seq<Change>): (r: Ships)
    requires forall k :: 0 <= k < |changes| ==> 0 <= changes[k].x < |cols| && 0 <= changes[k].y < |cols[changes[k].x]|
    ensures r.Keys == ships.Keys
  {
    if changes == [] then ships
    else
      var front := changes[..|changes| - 1];
      assert forall k :: 0 <= k < |front| ==> front[k] == changes[k];
      var r := ApplyChanges(cols, ships, front);
      var ch := changes[|changes| - 1];
      if ch.hp == 0 then Destroyed(cols, r, cols[ch.x][ch.y]) else r
  }

  /** The ship records once built and settled. */
  function BuiltShips(w: nat, h: nat, shipWidth: int, shipHeight: int, changes: seq<Change>): Ships
    requires h > 0
    requires forall k :: 0 <= k < |changes| ==> 0 <= changes[k].x < w && 0 <= changes[k].y < h
  {
    ApplyChanges(InitialGrid(w, h), InitialShips(w, h, shipWidth, shipHeight), changes)
  }

  /** The columns once built and settled: the destroyed ships taken out. */
  function BuiltColumns(w: nat, h: nat, shipWidth: int, shipHeight: int, changes: seq<Change>): Grid
    requires h > 0
    requires forall k :: 0 <= k < |changes| ==> 0 <= changes[k].x < w && 0 <= changes[k].y < h
  {
    SweepColumns(InitialGrid(w, h), BuiltShips(w, h, shipWidth, shipHeight, changes))
  }

  /** How many of the changes destroy a ship. */
  function Kills(changes: seq<Change>): (n: nat)
    ensures n <= |changes|
  {
    if changes == [] then 0
    else Kills(changes[..|changes| - 1]) + if changes[|changes| - 1].hp == 0 then 1 else 0
  }

  /**
   * What the grid, the ship records, the roster and the count keep: the grid
   * lists known ships once each, the roster is the one the grid determines,
   * and the count never exceeds the live ships listed.
   */
  predicate FleetOk(cols: Grid, ships: Ships, shooters: seq<ShipId>, n: int) {
    GridOk(cols, ships) && shooters == Shooters(cols, ships) && n <= LiveCount(cols, ships)
  }

  /** The scheduler of a new formation: no pattern, counters at rest, no cooldown yet. */
  function InitialSched(now: int): (s: Sched)
    ensures SchedOk(s) && s.pattern == NoPattern && s.cooldownResetAt == None
  {
    Sched(NoPattern, now, None, 0, 0, 0, 0, -1, 0, 0, 0, 0, 0, 0)
  }

  /** Making the ship of cell (c, i) adds exactly that record. */
  lemma ShipsBuiltStep(c: nat, i: nat, h: nat, shipWidth: int, shipHeight: int)
    requires 0 <= i < h
    ensures ShipsBuilt(c, i + 1, h, shipWidth, shipHeight) ==
            ShipsBuilt(c, i, h, shipWidth, shipHeight)[ShipId(c, i) := NewShip(c, i, h, shipWidth, shipHeight)]
  {
  }

  /** A filled column is the start of the next one. */
  lemma ShipsBuiltColumn(c: nat, h: nat, shipWidth: int, shipHeight: int)
    requires h > 0
    ensures ShipsBuilt(c, h, h, shipWidth, shipHeight) == ShipsBuilt(c + 1, 0, h, shipWidth, shipHeight)
  {
  }

  /** Nothing is made before the first cell, and every cell once all columns are filled. */
  lemma ShipsBuiltEnds(w: nat, h: nat, shipWidth: int, shipHeight: int)
    requires h > 0
    ensures ShipsBuilt(0, 0, h, shipWidth, shipHeight) == map[]
    ensures ShipsBuilt(w, 0, h, shipWidth, shipHeight) == InitialShips(w, h, shipWidth, shipHeight)
  {
  }

  // ---------------------------------------------------------------------------
  // Facts about the formation as built.

  lemma InitialGridOk(w: nat, h: nat, shipWidth: int, shipHeight: int)
    requires h > 0
    ensures GridOk(InitialGrid(w, h), InitialShips(w, h, shipWidth, shipHeight))
  {
    var g := InitialGrid(w, h);
    forall c, id: ShipId | 0 <= c < w && id in g[c] ensures id.column == c && id.row < h {
      var i :| 0 <= i < h && g[c][i] == id;
    }
  }

  /** A full column's last live ship is its bottom ship. */
  lemma InitialLastLive(w: nat, h: nat, shipWidth: int, shipHeight: int, c: nat)
    requires h > 0 && c < w
    ensures LastLive(InitialGrid(w, h)[c], InitialShips(w, h, shipWidth, shipHeight)) == Some(ShipId(c, h - 1))
  {
  }

  /** As built, every column has a live bottom ship, so the roster is the bottom row. */
  lemma {:induction false} InitialShooters(w: nat, h: nat, shipWidth: int, shipHeight: int)
    requires h > 0
    ensures Shooters(InitialGrid(w, h), InitialShips(w, h, shipWidth, shipHeight)) == seq(w, (c: int) requires 0 <= c => ShipId(c, h - 1))
    decreases w, 1
  {
    if w > 0 {
      var ships := InitialShips(w, h, shipWidth, shipHeight);
      var g := InitialGrid(w, h);
      assert g[..w - 1] == InitialGrid(w - 1, h);
      InitialShootersFront(w, h, shipWidth, shipHeight);
      InitialLastLive(w, h, shipWidth, shipHeight, w - 1);
    }
  }

  lemma {:induction false} InitialShootersFront(w: nat, h: nat, shipWidth: int, shipHeight: int)
    requires h > 0 && w > 0
    ensures Shooters(InitialGrid(w - 1, h), InitialShips(w, h, shipWidth, shipHeight)) == seq(w - 1, (c: int) requires 0 <= c => ShipId(c, h - 1))
    decreases w, 0
  {
    var small := InitialShips(w - 1, h, shipWidth, shipHeight);
    var big := InitialShips(w, h, shipWidth, shipHeight);
    var g := InitialGrid(w - 1, h);
    forall k | 0 <= k < |g| ensures LastLive(g[k], big) == LastLive(g[k], small) {
      InitialLastLive(w, h, shipWidth, shipHeight, k);
      InitialLastLive(w - 1, h, shipWidth, shipHeight, k);
      assert InitialGrid(w, h)[k] == g[k];
    }
    ShootersCongruent(g, g, big, small);
    InitialShooters(w - 1, h, shipWidth, shipHeight);
  }

  /** A column whose ships are all live counts all of them. */
  lemma {:induction false} CountLiveAll(col: Column, ships: Ships)
    requires forall i :: 0 <= i < |col| ==> Live(col[i], ships)
    ensures CountLive(col, ships) == |col|
  {
    if col != [] {
      CountLiveAll(col[..|col| - 1], ships);
    }
  }

  /** The number of cells of w columns of h cells, counted column by column. */
  function Cells(w: nat, h: nat): nat
  {
    if w == 0 then 0 else Cells(w - 1, h) + h
  }

  /** Counting column by column gives the product. */
  lemma {:induction false} CellsIsProduct(w: nat, h: nat)
    ensures Cells(w, h) == w * h
  {
    if w > 0 {
      CellsIsProduct(w - 1, h);
      assert (w - 1) * h + h == w * h;
    }
  }

  /** Columns of h live ships each count h ships per column. */
  lemma {:induction false} LiveCountFull(cols: Grid, ships: Ships, h: nat)
    requires forall c :: 0 <= c < |cols| ==> |cols[c]| == h && forall i :: 0 <= i < h ==> Live(cols[c][i], ships)
    ensures LiveCount(cols, ships) == Cells(|cols|, h)
  {
    if cols != [] {
      LiveCountFull(cols[..|cols| - 1], ships, h);
      CountLiveAll(cols[|cols| - 1], ships);
    }
  }

  /** The formation as built keeps the fleet invariant with all w * h ships counted (see CellsIsProduct). */
  lemma InitialFleet(w: nat, h: nat, shipWidth: int, shipHeight: int)
    requires h > 0
    ensures FleetOk(InitialGrid(w, h), InitialShips(w, h, shipWidth, shipHeight),
                    seq(w, (c: int) requires 0 <= c => ShipId(c, h - 1)), Cells(w, h))
  {
    InitialGridOk(w, h, shipWidth, shipHeight);
    InitialShooters(w, h, shipWidth, shipHeight);
    LiveCountFull(InitialGrid(w, h), InitialShips(w, h, shipWidth, shipHeight), h);
  }

  /**
   * The roster after `destroy(s)` flagged `s`: when `s` was a shooter, its
   * slot holds its column's new last live ship, or is removed when the column
   * has none; otherwise the roster is unchanged.
   */
  function RosterAfterDestroy(roster: seq<ShipId>, cols: Grid, ships: Ships, s: ShipId): seq<ShipId>
    requires s in roster ==> InGrid(s, cols)
  {
    if s !in roster then roster
    else
      var j := IndexOf(roster, s);
      match LastLive(cols[ColumnOf(cols, s)], ships)
      case Some(t) => roster[j := t]
      case None => roster[..j] + roster[j + 1..]
  }

  /** Slot repair is the roster the grid determines after the flag: `destroy` keeps the roster invariant. */
  lemma RosterAfterDestroyIsShooters(cols: Grid, ships: Ships, s: ShipId)
    requires GridOk(cols, ships)
    ensures s in Shooters(cols, ships) ==> InGrid(s, cols)
    ensures RosterAfterDestroy(Shooters(cols, ships), cols, Destroyed(cols, ships, s), s) == Shooters(cols, Destroyed(cols, ships, s))
  {
    DestroyUpdatesRoster(cols, ships, s);
    var before := Shooters(cols, ships);
    if s in before {
      assert Destroyed(cols, ships, s) == Mark(ships, s);
      var j := IndexOf(before, s);
      assert RosterAfterDestroy(before, cols, Mark(ships, s), s) ==
        match LastLive(cols[ColumnOf(cols, s)], Mark(ships, s))
        case Some(t) => before[j := t]
        case None => before[..j] + before[j + 1..];
    }
  }

  /** List.removeAll: the entries of `col` that `gone` does not hold, in order. */
  function RemoveAll(col: Column, gone: seq<ShipId>): (r: Column)
    ensures forall x :: x in r <==> x in col && x !in gone
  {
    if col == [] then []
    else RemoveAll(col[..|col| - 1], gone) + if col[|col| - 1] in gone then [] else [col[|col| - 1]]
  }

  /** Removing exactly the destroyed entries leaves the live ones: removeAll(destroyed) is the filter. */
  lemma {:induction false} RemoveAllDestroyed(col: Column, gone: seq<ShipId>, ships: Ships)
    requires forall x :: x in col ==> (x in gone <==> !Live(x, ships))
    ensures RemoveAll(col, gone) == FilterLive(col, ships)
  {
    if col != [] {
      RemoveAllDestroyed(col[..|col| - 1], gone, ships);
    }
  }

  /** The ship records once the ships of `done` have been visited by the sweep. */
  function MovedSoFar(ships: Ships, done: set<ShipId>, dx: int, dy: int): (r: Ships)
    ensures r.Keys == ships.Keys
  {
    map id | id in ships :: if Live(id, ships) && id in done then Moved(ships[id], dx, dy) else ships[id]
  }

  /** Visiting one more ship moves it if it is live and leaves the others as they were. */
  lemma MovedSoFarStep(ships: Ships, done: set<ShipId>, x: ShipId, dx: int, dy: int)
    requires x in ships && x !in done
    ensures MovedSoFar(ships, done + {x}, dx, dy) ==
            if Live(x, ships) then MovedSoFar(ships, done, dx, dy)[x := Moved(ships[x], dx, dy)]
            else MovedSoFar(ships, done, dx, dy)
  {
  }

  /** Having visited every listed ship is the sweep's ship update. */
  lemma MovedSoFarAll(cols: Grid, ships: Ships, done: set<ShipId>, dx: int, dy: int)
    requires forall x :: x in done <==> InGrid(x, cols)
    ensures MovedSoFar(ships, done, dx, dy) == SweepShips(cols, ships, dx, dy)
  {
  }

  /** `update`'s first step: the shooting cooldown is created and reset on the first call only. */
  function CreateCooldown(s: Sched, now: int): (r: Sched)
    ensures r.cooldownResetAt.Some?
    ensures s.cooldownResetAt.Some? ==> r == s
  {
    if s.cooldownResetAt.None? then s.(cooldownResetAt := Some(now)) else s
  }

  // ---------------------------------------------------------------------------
  // The formation object.

  class EnemyShipFormation {
    const nShipsWide: nat
    const nShipsHigh: nat
    const baseSpeed: int
    const shipWidth: int
    const shipHeight: int
    const level: int

    /** The columns of ship identities, top to bottom. */
    var columns: Grid
    /** Every ship ever created, by identity; destroyed ones keep their record. */
    var ships: Ships
    /** The ships allowed to shoot: one per column that still has a live ship. */
    var shooters: seq<ShipId>
    /** The number of ships not destroyed, as `destroy` counts it. */
    var shipCount: int

    var movementSpeed: int
    var movementInterval: int
    var currentDirection: Direction
    var previousDirection: Option<Direction>
    var width: int
    var height: int
    var positionX: int
    var positionY: int

    /** The attack-pattern scheduler's counters, the cooldown and the pattern clock. */
    var sched: Sched

    /**
     * What every operation keeps: the grid lists known ships once each, the
     * roster is the one the grid determines, the count never exceeds the
     * live ships listed, and the scheduler's counters are in range.
     */
    predicate Valid()
      reads this`columns, this`ships, this`shooters, this`shipCount, this`sched, this`previousDirection, this`movementInterval
    {
      nShipsWide > 0 && nShipsHigh > 0 &&
      FleetOk(columns, ships, shooters, shipCount) &&
      SchedOk(sched) &&
      previousDirection != Some(Down) &&
      0 <= movementInterval
    }

    /**
     * The constructor: w columns of h ships, ship (c, i) at (20 + 40c, 100 + 40i)
     * with the row's sprite family; the roster is each column's last ship;
     * then each setting change with hp 0 destroys its ship, and the
     * destroyed ships are taken out of the columns.
     */
    constructor (w: nat, h: nat, baseSpeed: int, shipWidth: int, shipHeight: int, level: int, changes: seq<Change>, now: int)
      requires w > 0 && h > 0
      requires forall k :: 0 <= k < |changes| ==> 0 <= changes[k].x < w && 0 <= changes[k].y < h
      ensures Valid()
      ensures nShipsWide == w && nShipsHigh == h && this.baseSpeed == baseSpeed && this.level == level
      ensures this.shipWidth == shipWidth && this.shipHeight == shipHeight
      ensures ships == BuiltShips(w, h, shipWidth, shipHeight, changes)
      ensures columns == BuiltColumns(w, h, shipWidth, shipHeight, changes)
      ensures shipCount == Cells(w, h) - Kills(changes)
      ensures width == Span(w, shipWidth) && height == Span(h, shipHeight)
      ensures positionX == InitPosX && positionY == InitPosY
      ensures currentDirection == Right && previousDirection == None
      ensures movementSpeed == baseSpeed && movementInterval == 0
      ensures sched == InitialSched(now)
    {
      nShipsWide, nShipsHigh, this.baseSpeed, this.level := w, h, baseSpeed, level;
      this.shipWidth, this.shipHeight := shipWidth, shipHeight;
      currentDirection, previousDirection := Right, None;
      movementInterval, movementSpeed := 0, baseSpeed;
      positionX, positionY := InitPosX, InitPosY;
      width := Span(w, shipWidth);
      height := Span(h, shipHeight);
      sched := InitialSched(now);
      columns, ships, shooters, shipCount := [], map[], [], 0;
      new;
      Populate(changes);
    }

    /** The constructor's loops, once the fields are set: build, then settle the settings' changes. */
    method Populate(changes: seq<Change>)
      requires nShipsWide > 0 && nShipsHigh > 0 && shipCount == 0
      requires SchedOk(sched) && previousDirection != Some(Down) && 0 <= movementInterval
      requires forall k :: 0 <= k < |changes| ==> 0 <= changes[k].x < nShipsWide && 0 <= changes[k].y < nShipsHigh
      modifies this`columns, this`ships, this`shooters, this`shipCount
      ensures Valid()
      ensures ships == BuiltShips(nShipsWide, nShipsHigh, shipWidth, shipHeight, changes)
      ensures columns == BuiltColumns(nShipsWide, nShipsHigh, shipWidth, shipHeight, changes)
      ensures shipCount == Cells(nShipsWide, nShipsHigh) - Kills(changes)
    {
      Build();
      Settle(changes);
    }

    /** The grid, the records, the count and the roster as built. */
    method Build()
      requires nShipsWide > 0 && nShipsHigh > 0 && shipCount == 0
      requires SchedOk(sched) && previousDirection != Some(Down) && 0 <= movementInterval
      modifies this`columns, this`ships, this`shooters, this`shipCount
      ensures Valid()
      ensures columns == InitialGrid(nShipsWide, nShipsHigh)
      ensures ships == InitialShips(nShipsWide, nShipsHigh, shipWidth, shipHeight)
      ensures shipCount == Cells(nShipsWide, nShipsHigh)
    {
      BuildGrid();
      BuildRoster();
      InitialFleet(nShipsWide, nShipsHigh, shipWidth, shipHeight);
    }

    /** The settings' changes, then the removal of the ships they destroyed. */
    method Settle(changes: seq<Change>)
      requires Valid()
      requires forall k :: 0 <= k < |changes| ==> 0 <= changes[k].x < |columns| && 0 <= changes[k].y < |columns[changes[k].x]|
      modifies this`columns, this`ships, this`shooters, this`shipCount
      ensures Valid()
      ensures ships == ApplyChanges(old(columns), old(ships), changes)
      ensures columns == SweepColumns(old(columns), ships)
      ensures shipCount == old(shipCount) - Kills(changes)
    {
      ApplySettings(changes);
      Purge();
    }

    /** The constructor's nested loop: every cell gets its ship, and each ship counts. */
    method BuildGrid()
      requires nShipsHigh > 0
      modifies this`columns, this`ships, this`shipCount
      ensures columns == InitialGrid(nShipsWide, nShipsHigh)
      ensures ships == InitialShips(nShipsWide, nShipsHigh, shipWidth, shipHeight)
      ensures shipCount == old(shipCount) + Cells(nShipsWide, nShipsHigh)
    {
      var cols := NewColumns();
      ShipsBuiltEnds(nShipsWide, nShipsHigh, shipWidth, shipHeight);
      var fleet: Ships := map[];
      var count := shipCount;
      var c := 0;
      while c < nShipsWide
        invariant c <= nShipsWide && |cols| == nShipsWide
        invariant forall k :: 0 <= k < c ==> cols[k] == ColumnCells(k, nShipsHigh)
        invariant forall k :: c <= k < nShipsWide ==> cols[k] == []
        invariant fleet == ShipsBuilt(c, 0, nShipsHigh, shipWidth, shipHeight)
        invariant count == shipCount + Cells(c, nShipsHigh)
        modifies {}
      {
        var column;
        column, fleet := FillColumn(c, fleet);
        cols := cols[c := column];
        count := count + nShipsHigh;
        ShipsBuiltColumn(c, nShipsHigh, shipWidth, shipHeight);
        c := c + 1;
      }
      columns, ships, shipCount := cols, fleet, count;
    }

    /** The constructor's first loop: one empty column per column of the formation. */
    method NewColumns() returns (cols: Grid)
      ensures |cols| == nShipsWide && forall k :: 0 <= k < nShipsWide ==> cols[k] == []
    {
      cols := [];
      var c := 0;
      while c < nShipsWide
        invariant c <= nShipsWide && |cols| == c && forall k :: 0 <= k < c ==> cols[k] == []
      {
        cols := cols + [[]];
        c := c + 1;
      }
    }

    /** The inner loop for column c: its h ships, top to bottom, each added to the records. */
    method FillColumn(c: nat, fleet0: Ships) returns (column: Column, fleet: Ships)
      requires nShipsHigh > 0 && fleet0 == ShipsBuilt(c, 0, nShipsHigh, shipWidth, shipHeight)
      ensures column == ColumnCells(c, nShipsHigh)
      ensures fleet == ShipsBuilt(c, nShipsHigh, nShipsHigh, shipWidth, shipHeight)
    {
      column, fleet := [], fleet0;
      var i := 0;
      while i < nShipsHigh
        invariant i <= nShipsHigh && column == ColumnCells(c, i)
        invariant fleet == ShipsBuilt(c, i, nShipsHigh, shipWidth, shipHeight)
      {
        ShipsBuiltStep(c, i, nShipsHigh, shipWidth, shipHeight);
        column := column + [ShipId(c, i)];
        fleet := fleet[ShipId(c, i) := NewShip(c, i, nShipsHigh, shipWidth, shipHeight)];
        i := i + 1;
      }
    }

    /** The constructor's roster: each column's last ship, in column order. */
    method BuildRoster()
      requires nShipsHigh > 0 && columns == InitialGrid(nShipsWide, nShipsHigh)
      modifies this`shooters
      ensures shooters == seq(nShipsWide, (c: int) requires 0 <= c => ShipId(c, nShipsHigh - 1))
    {
      shooters := [];
      var c := 0;
      while c < |columns|
        invariant c <= |columns| && shooters == seq(c, (k: int) requires 0 <= k => ShipId(k, nShipsHigh - 1))
      {
        var column := columns[c];
        shooters := shooters + [column[|column| - 1]];
        c := c + 1;
      }
    }

    /** The constructor's settings loop: each change with hp 0 destroys the ship in its cell. */
    method ApplySettings(changes: seq<Change>)
      requires Valid()
      requires forall k :: 0 <= k < |changes| ==> 0 <= changes[k].x < |columns| && 0 <= changes[k].y < |columns[changes[k].x]|
      modifies this`ships, this`shooters, this`shipCount
      ensures Valid()
      ensures ships == ApplyChanges(columns, old(ships), changes)
      ensures shipCount == old(shipCount) - Kills(changes)
    {
      var k := 0;
      while k < |changes|
        invariant k <= |changes| && Valid()
        invariant ships == ApplyChanges(columns, old(ships), changes[..k])
        invariant shipCount == old(shipCount) - Kills(changes[..k])
      {
        assert changes[..k + 1][..k] == changes[..k];
        var change := changes[k];
        var ship := columns[change.x][change.y];
        if change.hp == 0 {
          Destroy(ship);
        }
        k := k + 1;
      }
      assert changes[..|changes|] == changes;
    }

    /** The constructor's last loop: every column drops its destroyed ships (the sweep with no step). */
    method Purge()
      requires Valid()
      modifies this`columns, this`ships
      ensures Valid()
      ensures columns == SweepColumns(old(columns), old(ships)) && ships == old(ships)
    {
      SweepKeepsFleet(columns, ships, shooters, shipCount, 0, 0);
      SweepStill(columns, ships);
      Sweep(0, 0);
    }

    /** getNextShooter: the column's last live ship in list order, or none. */
    method GetNextShooter(col: Column) returns (next: Option<ShipId>)
      ensures next == LastLive(col, ships)
    {
      next := None;
      var i := 0;
      while i < |col|
        invariant 0 <= i <= |col|
        invariant next == LastLive(col[..i], ships)
      {
        assert col[..i + 1][..i] == col[..i];
        if Live(col[i], ships) {
          next := Some(col[i]);
        }
        i := i + 1;
      }
      assert col[..|col|] == col;
    }

    /** iterator(): the ships the columns list, as a set (the source's HashSet has no order). */
    function Members(): (r: set<ShipId>)
      reads this`columns
      ensures forall x :: x in r <==> InGrid(x, columns)
    {
      set c, x | 0 <= c < |columns| && x in columns[c] :: x
    }

    /** lastShip(): the count says exactly one ship is left. */
    predicate LastShip()
      reads this`shipCount
    {
      shipCount == 1
    }

    /** isEmpty(): the count says no ship is left. */
    predicate IsEmpty()
      reads this`shipCount
    {
      shipCount <= 0
    }

    /** getShipCount() */
    function GetShipCount(): int
      reads this`shipCount
    {
      shipCount
    }

    /**
     * Since the count never exceeds the live ships listed, a formation whose
     * roster has emptied (no column has a live ship) reports itself empty.
     */
    lemma NoShootersIsEmpty()
      requires Valid() && shooters == []
      ensures IsEmpty() && !LastShip()
    {
      NoShootersNoLive(columns, ships);
    }

    /**
     * shoot: nothing when the roster is empty; otherwise one step of the
     * current pattern (NONE and RANDOM_BURST only once the cooldown has
     * finished, resetting it), and every ship the step fires spawns its
     * bullets, in firing order.
     */
    method Shoot(now: int, cooldownFinished: bool, rand: real) returns (bullets: seq<Bullet>)
      requires Valid() && 0.0 <= rand < 1.0
      requires shooters != [] ==> sched.cooldownResetAt.Some?
      modifies this`sched
      ensures Valid()
      ensures var step := ShootStep(old(sched), Env(shooters, columns, ships, now, cooldownFinished, rand));
              sched == step.0 && bullets == BulletsFor(step.1, ships)
    {
      var e := Env(shooters, columns, ships, now, cooldownFinished, rand);
      ShootStepKeepsSchedOk(sched, e);
      var step := ShootStep(sched, e);
      sched := step.0;
      bullets := SpawnAll(step.1, ships);
    }

    /**
     * destroy: flag the ship in every column that lists it; if it was a
     * shooter, put its column's new last live ship in its roster slot, or
     * drop the slot when the column has none; count one ship fewer.
     */
    method Destroy(s: ShipId)
      requires Valid()
      modifies this`ships, this`shooters, this`shipCount
      ensures Valid()
      ensures ships == Destroyed(columns, old(ships), s)
      ensures shipCount == old(shipCount) - 1
      ensures s in old(shooters) ==> InGrid(s, columns)
      ensures shooters == RosterAfterDestroy(old(shooters), columns, ships, s)
    {
      ghost var before := ships;
      DestroyKeepsFleet(columns, ships, shooters, shipCount, s);
      MarkColumns(s);
      RepairRoster(s, before);
      shipCount := shipCount - 1;
    }

    /** The roster part of `destroy`, once the ship is flagged. */
    method RepairRoster(s: ShipId, ghost before: Ships)
      requires GridOk(columns, before) && shooters == Shooters(columns, before)
      requires ships == Destroyed(columns, before, s)
      modifies this`shooters
      ensures shooters == Shooters(columns, ships)
      ensures s in old(shooters) ==> InGrid(s, columns)
      ensures shooters == RosterAfterDestroy(old(shooters), columns, ships, s)
    {
      RosterAfterDestroyIsShooters(columns, before, s);
      if s in shooters {
        var j := IndexOf(shooters, s);
        var c := FindColumn(s);
        var next := GetNextShooter(columns[c]);
        if next.Some? {
          shooters := shooters[j := next.value];
        } else {
          shooters := shooters[..j] + shooters[j + 1..];
        }
      }
    }

    /** The marking loop of `destroy`: every listed occurrence of the ship is flagged destroyed. */
    method MarkColumns(s: ShipId)
      modifies this`ships
      ensures ships == Destroyed(columns, old(ships), s)
    {
      var c := 0;
      while c < |columns|
        invariant 0 <= c <= |columns|
        invariant ships == if InGrid(s, columns[..c]) then Mark(old(ships), s) else old(ships)
      {
        var col := columns[c];
        var i := 0;
        while i < |col|
          invariant 0 <= i <= |col|
          invariant ships == if InGrid(s, columns[..c]) || s in col[..i] then Mark(old(ships), s) else old(ships)
        {
          PrefixStep(col, i);
          if col[i] == s {
            MarkTwice(old(ships), s);
            ships := Mark(ships, s);
          }
          i := i + 1;
        }
        assert col[..|col|] == col;
        InGridExtend(s, columns, c);
        c := c + 1;
      }
      assert columns[..|columns|] == columns;
    }

    /** The column scan of `destroy`: the first column that lists a shooter. */
    method FindColumn(s: ShipId) returns (c: nat)
      requires InGrid(s, columns)
      ensures c == ColumnOf(columns, s)
    {
      c := 0;
      while s !in columns[c]
        invariant c < |columns|
        invariant forall k :: 0 <= k < c ==> s !in columns[k]
        decreases |columns| - c
      {
        c := c + 1;
        if c == |columns| {
          var k :| 0 <= k < |columns| && s in columns[k];
          assert false;
        }
      }
      ColumnOfFirst(columns, s, c);
    }

    /**
     * The sweep of a movement tick: each column drops its destroyed ships
     * (collected, then removeAll), and every other ship moves by (dx, dy).
     */
    method Sweep(dx: int, dy: int)
      requires GridOk(columns, ships)
      modifies this`columns, this`ships
      ensures columns == SweepColumns(old(columns), old(ships))
      ensures ships == SweepShips(old(columns), old(ships), dx, dy)
    {
      ghost var cols0, ships0 := columns, ships;
      ghost var done: set<ShipId> := {};
      var c := 0;
      while c < |columns|
        invariant |columns| == |cols0| && 0 <= c <= |columns|
        invariant forall k :: 0 <= k < c ==> columns[k] == FilterLive(cols0[k], ships0)
        invariant forall k :: c <= k < |columns| ==> columns[k] == cols0[k]
        invariant forall x :: x in done <==> InGrid(x, cols0[..c])
        invariant ships == MovedSoFar(ships0, done, dx, dy)
        decreases |cols0| - c
      {
        var kept;
        kept, done := SweepColumn(cols0, ships0, c, dx, dy, done);
        columns := columns[c := kept];
        forall x ensures InGrid(x, cols0[..c + 1]) <==> InGrid(x, cols0[..c]) || x in cols0[c] {
          InGridExtend(x, cols0, c);
        }
        c := c + 1;
      }
      assert cols0[..|cols0|] == cols0;
      MovedSoFarAll(cols0, ships0, done, dx, dy);
    }

    /** One column of the sweep: the entries kept, with every live one moved. */
    method SweepColumn(ghost cols0: Grid, ghost ships0: Ships, c: nat, dx: int, dy: int, ghost done0: set<ShipId>)
      returns (kept: Column, ghost done: set<ShipId>)
      requires GridOk(cols0, ships0) && c < |cols0| && c < |columns| && columns[c] == cols0[c]
      requires forall x :: x in done0 <==> InGrid(x, cols0[..c])
      requires ships == MovedSoFar(ships0, done0, dx, dy)
      modifies this`ships
      ensures kept == FilterLive(cols0[c], ships0)
      ensures forall x :: x in done <==> InGrid(x, cols0[..c]) || x in cols0[c]
      ensures ships == MovedSoFar(ships0, done, dx, dy)
    {
      var col := columns[c];
      var destroyed: seq<ShipId> := [];
      done := done0;
      var i := 0;
      while i < |col|
        invariant 0 <= i <= |col|
        invariant forall x :: x in destroyed <==> x in col[..i] && !Live(x, ships0)
        invariant forall x :: x in done <==> InGrid(x, cols0[..c]) || x in col[..i]
        invariant ships == MovedSoFar(ships0, done, dx, dy)
      {
        var x := col[i];
        assert x !in done by { SweepFresh(cols0, ships0, c, i); }
        MovedSoFarStep(ships0, done, x, dx, dy);
        if !Live(x, ships) {
          destroyed := destroyed + [x];
        } else {
          ships := ships[x := Moved(ships[x], dx, dy)];
        }
        done := done + {x};
        PrefixStep(col, i);
        i := i + 1;
      }
      assert col[..|col|] == col;
      RemoveAllDestroyed(col, destroyed, ships0);
      kept := RemoveAll(col, destroyed);
    }

    /**
     * update: create the cooldown on the first call, clean up, recompute the
     * speed and count a frame; when the count reaches the speed, turn as the
     * edges demand, move the box one step, sweep the grid (dropping the
     * destroyed ships, moving the others the same step) and, from NONE after
     * the delay, start the level's pattern.
     */
    method Update(now: int, screenW: int, screenH: int)
      requires Valid()
      modifies this`sched, this`columns, this`ships, this`width, this`height, this`positionX, this`positionY
      modifies this`movementSpeed, this`movementInterval, this`currentDirection, this`previousDirection
      ensures Valid()
      ensures movementSpeed == MovementSpeed(shipCount, nShipsHigh * nShipsWide, baseSpeed)
      ensures baseSpeed >= 0 ==> movementInterval < movementSpeed
      ensures height == MaxColumnHeight(old(columns), old(ships), old(positionY), shipHeight)
      ensures width == RightMost(DropFirstEmpty(old(columns)), old(ships)) - LeftMost(DropFirstEmpty(old(columns)), old(ships)) + shipWidth
      ensures old(movementInterval) + 1 < movementSpeed ==>
                movementInterval == old(movementInterval) + 1 &&
                columns == DropFirstEmpty(old(columns)) && ships == old(ships) &&
                positionX == LeftMost(columns, ships) && positionY == MinTopY(old(columns), ships) &&
                currentDirection == old(currentDirection) && previousDirection == old(previousDirection) &&
                sched == CreateCooldown(old(sched), now)
      ensures old(movementInterval) + 1 >= movementSpeed ==>
                var cols1 := DropFirstEmpty(old(columns));
                var x1 := LeftMost(cols1, old(ships));
                var y1 := MinTopY(old(columns), old(ships));
                var turn := NextDirection(old(currentDirection), old(previousDirection), EdgesOf(x1, y1, width, height, screenW, screenH));
                var d := Displacement(turn.0);
                movementInterval == 0 &&
                currentDirection == turn.0 && previousDirection == turn.1 &&
                positionX == x1 + d.0 && positionY == y1 + d.1 &&
                columns == SweepColumns(cols1, old(ships)) && ships == SweepShips(cols1, old(ships), d.0, d.1) &&
                sched == StartPattern(CreateCooldown(old(sched), now), level, now)
    {
      Tidy(now);
      Advance(now, screenW, screenH);
    }

    /** The second half of `update`: count a frame and, when the count reaches the speed, move. */
    method Advance(now: int, screenW: int, screenH: int)
      requires Valid() && sched.cooldownResetAt.Some?
      modifies this`sched, this`columns, this`ships, this`positionX, this`positionY
      modifies this`movementSpeed, this`movementInterval, this`currentDirection, this`previousDirection
      ensures Valid()
      ensures movementSpeed == MovementSpeed(shipCount, nShipsHigh * nShipsWide, baseSpeed)
      ensures baseSpeed >= 0 ==> movementInterval < movementSpeed
      ensures old(movementInterval) + 1 < movementSpeed ==>
                movementInterval == old(movementInterval) + 1 &&
                columns == old(columns) && ships == old(ships) && positionX == old(positionX) && positionY == old(positionY) &&
                currentDirection == old(currentDirection) && previousDirection == old(previousDirection) && sched == old(sched)
      ensures old(movementInterval) + 1 >= movementSpeed ==>
                var turn := NextDirection(old(currentDirection), old(previousDirection), EdgesOf(old(positionX), old(positionY), width, height, screenW, screenH));
                var d := Displacement(turn.0);
                movementInterval == 0 &&
                currentDirection == turn.0 && previousDirection == turn.1 &&
                positionX == old(positionX) + d.0 && positionY == old(positionY) + d.1 &&
                columns == SweepColumns(old(columns), old(ships)) && ships == SweepShips(old(columns), old(ships), d.0, d.1) &&
                sched == StartPattern(old(sched), level, now)
    {
      var moving := Pace();
      if moving {
        Move(now, screenW, screenH);
      }
    }

    /** The frame count of `update`: the speed from the ships left, and a move when the count reaches it. */
    method Pace() returns (moving: bool)
      requires nShipsWide > 0 && nShipsHigh > 0
      modifies this`movementSpeed, this`movementInterval
      ensures movementSpeed == MovementSpeed(shipCount, nShipsHigh * nShipsWide, baseSpeed)
      ensures moving <==> old(movementInterval) + 1 >= movementSpeed
      ensures movementInterval == if moving then 0 else old(movementInterval) + 1
      ensures baseSpeed >= 0 && old(movementInterval) >= 0 ==> 0 <= movementInterval < movementSpeed
    {
      movementSpeed := MovementSpeed(shipCount, nShipsHigh * nShipsWide, baseSpeed);
      if baseSpeed >= 0 {
        MovementSpeedAtLeastMinimum(shipCount, nShipsHigh * nShipsWide, baseSpeed);
      }
      movementInterval := movementInterval + 1;
      moving := movementInterval >= movementSpeed;
      if moving {
        movementInterval := 0;
      }
    }

    /** The first half of `update`: the cooldown, then `cleanUp`. */
    method Tidy(now: int)
      requires Valid()
      modifies this`sched, this`columns, this`width, this`height, this`positionX, this`positionY
      ensures Valid()
      ensures sched == CreateCooldown(old(sched), now)
      ensures columns == DropFirstEmpty(old(columns))
      ensures height == MaxColumnHeight(old(columns), old(ships), old(positionY), shipHeight)
      ensures positionY == MinTopY(old(columns), old(ships))
      ensures positionX == LeftMost(DropFirstEmpty(old(columns)), old(ships))
      ensures width == RightMost(DropFirstEmpty(old(columns)), old(ships)) - LeftMost(DropFirstEmpty(old(columns)), old(ships)) + shipWidth
    {
      sched := CreateCooldown(sched, now);
      DropFirstEmptyKeepsFleet(columns, ships, shooters, shipCount);
      CleanUp();
    }

    /** The moving half of `update`: turn, step, sweep and maybe start a pattern. */
    method Move(now: int, screenW: int, screenH: int)
      requires Valid() && sched.cooldownResetAt.Some?
      modifies this`sched, this`columns, this`ships, this`positionX, this`positionY, this`currentDirection, this`previousDirection
      ensures Valid()
      ensures var turn := NextDirection(old(currentDirection), old(previousDirection), EdgesOf(old(positionX), old(positionY), width, height, screenW, screenH));
              var d := Displacement(turn.0);
              currentDirection == turn.0 && previousDirection == turn.1 &&
              positionX == old(positionX) + d.0 && positionY == old(positionY) + d.1 &&
              columns == SweepColumns(old(columns), old(ships)) && ships == SweepShips(old(columns), old(ships), d.0, d.1) &&
              sched == StartPattern(old(sched), level, now)
    {
      var dx, dy := Turn(screenW, screenH);
      SweepTick(dx, dy, now);
    }

    /** The direction decision and the step of the box. */
    method Turn(screenW: int, screenH: int) returns (dx: int, dy: int)
      requires previousDirection != Some(Down)
      modifies this`positionX, this`positionY, this`currentDirection, this`previousDirection
      ensures previousDirection != Some(Down)
      ensures var turn := NextDirection(old(currentDirection), old(previousDirection), EdgesOf(old(positionX), old(positionY), width, height, screenW, screenH));
              (dx, dy) == Displacement(turn.0) &&
              currentDirection == turn.0 && previousDirection == turn.1 &&
              positionX == old(positionX) + dx && positionY == old(positionY) + dy
    {
      var edges := EdgesOf(positionX, positionY, width, height, screenW, screenH);
      PreviousIsASide(currentDirection, previousDirection, edges);
      var turn := NextDirection(currentDirection, previousDirection, edges);
      currentDirection, previousDirection := turn.0, turn.1;
      dx, dy := Displacement(currentDirection).0, Displacement(currentDirection).1;
      positionX := positionX + dx;
      positionY := positionY + dy;
    }

    /** The sweep of a moving tick and the pattern start that follows it. */
    method SweepTick(dx: int, dy: int, now: int)
      requires Valid() && sched.cooldownResetAt.Some?
      modifies this`sched, this`columns, this`ships
      ensures Valid()
      ensures columns == SweepColumns(old(columns), old(ships)) && ships == SweepShips(old(columns), old(ships), dx, dy)
      ensures sched == StartPattern(old(sched), level, now)
    {
      SweepKeepsFleet(columns, ships, shooters, shipCount, dx, dy);
      Sweep(dx, dy);
      StartPatternSpec(sched, level, now);
      sched := StartPattern(sched, level, now);
    }

    /**
     * cleanUp: measure the non-empty columns, drop the (first) empty one,
     * then take the box's left edge, right edge, top and height.
     */
    method CleanUp()
      requires Listed(columns, ships)
      modifies this`columns, this`width, this`height, this`positionX, this`positionY
      ensures columns == DropFirstEmpty(old(columns))
      ensures height == MaxColumnHeight(old(columns), ships, old(positionY), shipHeight)
      ensures positionY == MinTopY(old(columns), ships)
      ensures positionX == LeftMost(columns, ships)
      ensures width == RightMost(columns, ships) - LeftMost(columns, ships) + shipWidth
    {
      var maxColumn, minPositionY, emptyColumns := MeasureColumns();
      while emptyColumns != {}
        invariant emptyColumns == {} ==> columns == DropFirstEmpty(old(columns))
        invariant emptyColumns != {} ==> columns == old(columns) && emptyColumns == {IndexOf(columns, [])} && [] in columns
        decreases |emptyColumns|
      {
        var index :| index in emptyColumns;
        columns := columns[..index] + columns[index + 1..];
        emptyColumns := emptyColumns - {index};
      }
      DropFirstEmptyListed(old(columns), ships);
      var leftMostPoint, rightMostPoint := Edges();
      width := rightMostPoint - leftMostPoint + shipWidth;
      height := maxColumn;
      positionX := leftMostPoint;
      positionY := minPositionY;
    }

    /** cleanUp's first loop: tallest column, highest top ship, and the indexOf of each empty column. */
    method MeasureColumns() returns (maxColumn: int, minPositionY: int, emptyColumns: set<int>)
      requires Listed(columns, ships)
      ensures maxColumn == MaxColumnHeight(columns, ships, positionY, shipHeight)
      ensures minPositionY == MinTopY(columns, ships)
      ensures emptyColumns == if [] in columns then {IndexOf(columns, [])} else {}
    {
      maxColumn, minPositionY, emptyColumns := 0, IntMax, {};
      var cols, fleet := columns, ships;
      var k := 0;
      while k < |cols|
        invariant 0 <= k <= |cols|
        invariant Listed(cols[..k], fleet)
        invariant maxColumn == MaxColumnHeight(cols[..k], fleet, positionY, shipHeight)
        invariant minPositionY == MinTopY(cols[..k], fleet)
        invariant emptyColumns == if [] in cols[..k] then {IndexOf(cols, [])} else {}
      {
        var column := cols[k];
        MeasureStep(cols, fleet, positionY, shipHeight, k);
        if column != [] {
          maxColumn := Max(maxColumn, ColumnHeight(column, fleet, positionY, shipHeight));
          minPositionY := Min(minPositionY, TopY(column, fleet));
        } else {
          emptyColumns := emptyColumns + {IndexOf(cols, column)};
        }
        k := k + 1;
      }
      assert cols[..|cols|] == cols;
    }

    /** cleanUp's last loop: the first non-zero and the last top-ship x of the non-empty columns. */
    method Edges() returns (leftMostPoint: int, rightMostPoint: int)
      requires Listed(columns, ships)
      ensures leftMostPoint == LeftMost(columns, ships)
      ensures rightMostPoint == RightMost(columns, ships)
    {
      leftMostPoint, rightMostPoint := 0, 0;
      var cols, fleet := columns, ships;
      var k := 0;
      while k < |cols|
        invariant 0 <= k <= |cols|
        invariant Listed(cols[..k], fleet)
        invariant leftMostPoint == LeftMost(cols[..k], fleet)
        invariant rightMostPoint == RightMost(cols[..k], fleet)
      {
        var column := cols[k];
        EdgesStep(cols, fleet, k);
        if column != [] {
          if leftMostPoint == 0 {
            leftMostPoint := TopX(column, fleet);
          }
          rightMostPoint := TopX(column, fleet);
        }
        k := k + 1;
      }
      assert cols[..|cols|] == cols;
    }
  }

  /** `destroy` keeps the grid well formed, the roster the grid's and the count within the live ships. */
  lemma DestroyKeepsFleet(cols: Grid, ships: Ships, shooters: seq<ShipId>, n: int, s: ShipId)
    requires FleetOk(cols, ships, shooters, n)
    ensures s in shooters ==> InGrid(s, cols)
    ensures var m := Destroyed(cols, ships, s);
            FleetOk(cols, m, RosterAfterDestroy(shooters, cols, m, s), n - 1)
  {
    RosterAfterDestroyIsShooters(cols, ships, s);
    DestroyedKeepsGridOk(cols, ships, s);
    LiveCountDestroyed(cols, ships, s);
  }

  /** Dropping an empty column keeps the grid well formed, the roster and the live count. */
  lemma DropFirstEmptyKeepsFleet(cols: Grid, ships: Ships, shooters: seq<ShipId>, n: int)
    requires FleetOk(cols, ships, shooters, n)
    ensures FleetOk(DropFirstEmpty(cols), ships, shooters, n)
  {
    DropFirstEmptyGridOk(cols, ships);
    DropFirstEmptyShooters(cols, ships);
    DropFirstEmptyLiveCount(cols, ships);
  }

  /** A sweep with no step changes no ship record. */
  lemma SweepStill(cols: Grid, ships: Ships)
    ensures SweepShips(cols, ships, 0, 0) == ships
  {
  }

  /** The sweep keeps the grid well formed, the roster and the live count. */
  lemma SweepKeepsFleet(cols: Grid, ships: Ships, shooters: seq<ShipId>, n: int, dx: int, dy: int)
    requires FleetOk(cols, ships, shooters, n)
    ensures FleetOk(SweepColumns(cols, ships), SweepShips(cols, ships, dx, dy), shooters, n)
  {
    SweepCleansGrid(cols, ships, dx, dy);
    SweepKeepsShooters(cols, ships, dx, dy);
    LiveCountSweep(cols, ships, dx, dy);
  }

  /** Flagging a ship twice is flagging it once. */
  lemma MarkTwice(ships: Ships, s: ShipId)
    ensures Mark(Mark(ships, s), s) == Mark(ships, s)
  {
  }

  lemma InGridExtend(s: ShipId, cols: Grid, c: nat)
    requires c < |cols|
    ensures InGrid(s, cols[..c + 1]) <==> InGrid(s, cols[..c]) || s in cols[c]
  {
    if s in cols[c] {
      assert s in cols[..c + 1][c];
    }
    if InGrid(s, cols[..c + 1]) && !InGrid(s, cols[..c]) {
      var k :| 0 <= k < c + 1 && s in cols[..c + 1][k];
      if k < c {
        assert s in cols[..c][k];
      }
    }
    if InGrid(s, cols[..c]) {
      var k :| 0 <= k < c && s in cols[..c][k];
      assert s in cols[..c + 1][k];
    }
  }

  /** The first column listing a ship is the one ColumnOf names. */
  lemma ColumnOfFirst(cols: Grid, s: ShipId, c: nat)
    requires c < |cols| && s in cols[c] && forall k :: 0 <= k < c ==> s !in cols[k]
    ensures InGrid(s, cols) && ColumnOf(cols, s) == c
  {
    assert InGrid(s, cols);
    var d := ColumnOf(cols, s);
    assert !(d < c) && !(c < d);
  }

  /** Flags do not change which ships are known, so the grid stays well formed. */
  lemma DestroyedKeepsGridOk(cols: Grid, ships: Ships, s: ShipId)
    requires GridOk(cols, ships)
    ensures GridOk(cols, Destroyed(cols, ships, s))
  {
  }

  /** A ship the sweep reaches has not been reached before: the grid lists every ship once. */
  lemma SweepFresh(cols: Grid, ships: Ships, c: nat, i: nat)
    requires GridOk(cols, ships) && c < |cols| && i < |cols[c]|
    ensures !InGrid(cols[c][i], cols[..c]) && cols[c][i] !in cols[c][..i]
  {
    var x := cols[c][i];
    assert forall k :: 0 <= k < c ==> cols[..c][k] == cols[k] && x !in cols[k];
    assert forall j :: 0 <= j < i ==> cols[c][..i][j] == cols[c][j] != x;
  }

  lemma PrefixStep<T>(s: seq<T>, i: nat)
    requires i < |s|
    ensures s[..i + 1] == s[..i] + [s[i]]
  {
  }

  lemma ListedPrefix(cols: Grid, ships: Ships, k: nat)
    requires Listed(cols, ships) && k <= |cols|
    ensures Listed(cols[..k], ships)
  {
    assert forall c :: 0 <= c < k ==> cols[..k][c] == cols[c];
  }

  lemma DropFirstEmptyListed(cols: Grid, ships: Ships)
    requires Listed(cols, ships)
    ensures Listed(DropFirstEmpty(cols), ships)
  {
    var j := IndexOf(cols, []);
    if j >= 0 {
      var r := cols[..j] + cols[j + 1..];
      assert forall c :: 0 <= c < |r| ==> r[c] == cols[if c < j then c else c + 1];
    }
  }

  /** One more column in cleanUp's first loop. */
  lemma MeasureStep(cols: Grid, ships: Ships, posY: int, shipH: int, k: nat)
    requires Listed(cols, ships) && k < |cols|
    ensures Listed(cols[..k], ships) && Listed(cols[..k + 1], ships)
    ensures var m := MaxColumnHeight(cols[..k], ships, posY, shipH);
            MaxColumnHeight(cols[..k + 1], ships, posY, shipH) ==
              if cols[k] == [] then m else Max(m, ColumnHeight(cols[k], ships, posY, shipH))
    ensures var m := MinTopY(cols[..k], ships);
            MinTopY(cols[..k + 1], ships) == if cols[k] == [] then m else Min(m, TopY(cols[k], ships))
    ensures [] in cols[..k + 1] <==> [] in cols[..k] || cols[k] == []
    ensures cols[k] == [] && [] !in cols[..k] ==> IndexOf(cols, []) == k
  {
    ListedPrefix(cols, ships, k);
    ListedPrefix(cols, ships, k + 1);
    assert cols[..k + 1][..k] == cols[..k];
    assert cols[..k + 1] == cols[..k] + [cols[k]];
  }

  /** One more column in cleanUp's last loop. */
  lemma EdgesStep(cols: Grid, ships: Ships, k: nat)
    requires Listed(cols, ships) && k < |cols|
    ensures Listed(cols[..k], ships) && Listed(cols[..k + 1], ships)
    ensures var l := LeftMost(cols[..k], ships);
            LeftMost(cols[..k + 1], ships) == if cols[k] != [] && l == 0 then TopX(cols[k], ships) else l
    ensures RightMost(cols[..k + 1], ships) == if cols[k] != [] then TopX(cols[k], ships) else RightMost(cols[..k], ships)
  {
    ListedPrefix(cols, ships, k);
    ListedPrefix(cols, ships, k + 1);
    assert cols[..k + 1][..k] == cols[..k];
  }
}
