/**
 * The enemy formation's ship grid and shooter roster, as values.
 *
 * A formation is a sequence of columns; each column lists ship identities from
 * the top of the screen to the bottom. The ships themselves live in a map from
 * identity to record, so that destroying or moving a ship is an update of that
 * map. The roster of shooters is a function of the grid: the bottom-most live
 * ship of every column that still has one, in column order.
 *
 * Recursive definitions peel the LAST element, so that a loop running front to
 * back keeps `acc == F(s[..k])` as its invariant.
 */
module Fleet {
  import opened Common

  /** Sprite family of an enemy ship: decides the shape of its bullets. */
  datatype Kind = KindA | KindB | KindC

  /** A ship is identified by the grid cell it was created in. */
  datatype ShipId = ShipId(column: nat, row: nat)

  datatype EnemyShip = EnemyShip(x: int, y: int, width: int, height: int, kind: Kind, destroyed: bool)

  type Ships = map<ShipId, EnemyShip>
  type Column = seq<ShipId>
  type Grid = seq<Column>

  predicate Live(id: ShipId, ships: Ships) {
    id in ships && !ships[id].destroyed
  }

  /** EnemyShip.destroy(): the ship is flagged destroyed, nothing else changes. */
  function Mark(ships: Ships, s: ShipId): (r: Ships)
    ensures r.Keys == ships.Keys
    ensures !Live(s, r)
    ensures forall id :: id != s ==> (Live(id, r) <==> Live(id, ships))
  {
    if s in ships then ships[s := ships[s].(destroyed := true)] else ships
  }

  /**
   * The ship flags after `destroy(s)`: only a ship that some column lists is
   * flagged; a ship the grid does not list is left as it is.
   */
  function Destroyed(cols: Grid, ships: Ships, s: ShipId): (r: Ships)
    ensures r.Keys == ships.Keys
    ensures InGrid(s, cols) ==> !Live(s, r)
    ensures forall id :: id != s || !InGrid(s, cols) ==> (Live(id, r) <==> Live(id, ships))
  {
    if InGrid(s, cols) then Mark(ships, s) else ships
  }

  /** Entity.move(dx, dy) on an enemy ship. */
  function Moved(ship: EnemyShip, dx: int, dy: int): EnemyShip {
    ship.(x := ship.x + dx, y := ship.y + dy)
  }

  predicate NoDup<T(==)>(s: seq<T>) {
    forall i, j :: 0 <= i < j < |s| ==> s[i] != s[j]
  }

  predicate InGrid(id: ShipId, cols: Grid) {
    exists c :: 0 <= c < |cols| && id in cols[c]
  }

  /** Every listed ship is known, and no ship is listed twice anywhere. */
  predicate GridOk(cols: Grid, ships: Ships) {
    (forall c :: 0 <= c < |cols| ==> NoDup(cols[c])) &&
    (forall c, id :: 0 <= c < |cols| && id in cols[c] ==> id in ships) &&
    (forall c1, c2, id :: 0 <= c1 < |cols| && 0 <= c2 < |cols| && id in cols[c1] && id in cols[c2] ==> c1 == c2)
  }

  function OptSeq<T>(o: Option<T>): seq<T> {
    match o
    case Some(v) => [v]
    case None => []
  }

  /** First position of `x` in `s`, or -1: Java's List.indexOf. */
  function IndexOf<T(==)>(s: seq<T>, x: T): (r: int)
    ensures -1 <= r < |s|
    ensures r == -1 <==> x !in s
    ensures r >= 0 ==> s[r] == x && x !in s[..r]
  {
    if s == [] then -1
    else if s[0] == x then 0
    else
      var k := IndexOf(s[1..], x);
      assert s[1..][..k + 1] == s[1..k + 2] by { if k >= 0 { assert s[1..][..k] == s[1..k + 1]; } }
      if k < 0 then -1 else k + 1
  }

  /**
   * The last live ship of a column in list order, the one getNextShooter
   * returns; None when every ship of the column is destroyed.
   */
  function LastLive(col: Column, ships: Ships): (r: Option<ShipId>)
    ensures r.None? <==> forall i :: 0 <= i < |col| ==> !Live(col[i], ships)
    ensures r.Some? ==> r.value in col && Live(r.value, ships)
  {
    if col == [] then None
    else if Live(col[|col| - 1], ships) then Some(col[|col| - 1])
    else
      var r := LastLive(col[..|col| - 1], ships);
      assert forall i :: 0 <= i < |col| - 1 ==> col[..|col| - 1][i] == col[i];
      r
  }

  /** The ship LastLive finds is live, and no ship listed after it is: it returns the position. */
  lemma {:induction false} LastLiveIsLast(col: Column, ships: Ships) returns (i: nat)
    requires LastLive(col, ships).Some?
    ensures i < |col| && col[i] == LastLive(col, ships).value
    ensures forall j :: i < j < |col| ==> !Live(col[j], ships)
  {
    var n := |col|;
    if Live(col[n - 1], ships) {
      i := n - 1;
    } else {
      var front := col[..n - 1];
      i := LastLiveIsLast(front, ships);
      assert forall j :: i < j < n - 1 ==> col[j] == front[j];
    }
  }

  /** A column has no last live ship exactly when it counts no live ship. */
  lemma {:induction false} LastLiveNoneCount(col: Column, ships: Ships)
    ensures LastLive(col, ships) == None <==> CountLive(col, ships) == 0
  {
    if col != [] && !Live(col[|col| - 1], ships) {
      LastLiveNoneCount(col[..|col| - 1], ships);
    }
  }

  /** The roster of shooters that the grid determines. */
  function Shooters(cols: Grid, ships: Ships): (r: seq<ShipId>)
    ensures |r| <= |cols|
    ensures forall x :: x in r ==> Live(x, ships)
  {
    if cols == [] then []
    else
      var front := Shooters(cols[..|cols| - 1], ships);
      front + OptSeq(LastLive(cols[|cols| - 1], ships))
  }

  /** The live ships of a column, in order: the column after removeAll(destroyed). */
  function FilterLive(col: Column, ships: Ships): (r: Column)
    ensures |r| <= |col|
    ensures forall x :: x in r <==> x in col && Live(x, ships)
    ensures NoDup(col) ==> NoDup(r)
  {
    if col == [] then []
    else
      var front := FilterLive(col[..|col| - 1], ships);
      var last := col[|col| - 1];
      assert col == col[..|col| - 1] + [last];
      if Live(last, ships) then front + [last] else front
  }

  /** Filtering distributes over concatenation. */
  lemma {:induction false} FilterLiveAppend(a: Column, b: Column, ships: Ships)
    ensures FilterLive(a + b, ships) == FilterLive(a, ships) + FilterLive(b, ships)
    decreases |b|
  {
    if b == [] {
      assert a + b == a;
    } else {
      var b' := b[..|b| - 1];
      assert (a + b)[..|a + b| - 1] == a + b';
      FilterLiveAppend(a, b', ships);
    }
  }

  /** Number of live ships in a column. */
  function CountLive(col: Column, ships: Ships): nat {
    if col == [] then 0
    else CountLive(col[..|col| - 1], ships) + (if Live(col[|col| - 1], ships) then 1 else 0)
  }

  /** Number of live ships reachable from the columns. */
  function LiveCount(cols: Grid, ships: Ships): nat {
    if cols == [] then 0
    else LiveCount(cols[..|cols| - 1], ships) + CountLive(cols[|cols| - 1], ships)
  }

  /** The roster is empty exactly when no live ship is listed in any column. */
  lemma {:induction false} NoShootersNoLive(cols: Grid, ships: Ships)
    ensures Shooters(cols, ships) == [] <==> LiveCount(cols, ships) == 0
  {
    if cols != [] {
      NoShootersNoLive(cols[..|cols| - 1], ships);
      LastLiveNoneCount(cols[|cols| - 1], ships);
    }
  }

  /** Index of the first column that lists `id`: the scan in `destroy`. */
  function ColumnOf(cols: Grid, id: ShipId): (c: nat)
    requires InGrid(id, cols)
    ensures c < |cols| && id in cols[c]
    ensures forall k :: 0 <= k < c ==> id !in cols[k]
  {
    if id in cols[0] then 0
    else
      assert InGrid(id, cols[1..]) by {
        var k :| 0 <= k < |cols| && id in cols[k];
        assert k != 0 && cols[1..][k - 1] == cols[k];
      }
      var c := ColumnOf(cols[1..], id);
      assert forall k :: 1 <= k < c + 1 ==> cols[k] == cols[1..][k - 1];
      c + 1
  }

  // ---------------------------------------------------------------------------
  // Lemmas about the roster.

  lemma {:induction false} ShootersAppend(a: Grid, b: Grid, ships: Ships)
    ensures Shooters(a + b, ships) == Shooters(a, ships) + Shooters(b, ships)
    decreases |b|
  {
    if b == [] {
      assert a + b == a;
    } else {
      var b' := b[..|b| - 1];
      assert (a + b)[..|a + b| - 1] == a + b';
      assert (a + b)[|a + b| - 1] == b[|b| - 1];
      ShootersAppend(a, b', ships);
    }
  }

  /** The roster splits at any column into the part before, that column's slot and the part after. */
  lemma ShootersSplit(cols: Grid, c: nat, ships: Ships)
    requires c < |cols|
    ensures Shooters(cols, ships) ==
            Shooters(cols[..c], ships) + OptSeq(LastLive(cols[c], ships)) + Shooters(cols[c + 1..], ships)
  {
    assert cols == cols[..c] + [cols[c]] + cols[c + 1..];
    ShootersAppend(cols[..c] + [cols[c]], cols[c + 1..], ships);
    ShootersAppend(cols[..c], [cols[c]], ships);
    assert [cols[c]][..0] == [];
  }

  /** Two grids whose columns have the same last live ships, column by column, give the same roster. */
  lemma {:induction false} ShootersCongruent(a: Grid, b: Grid, s1: Ships, s2: Ships)
    requires |a| == |b|
    requires forall k :: 0 <= k < |a| ==> LastLive(a[k], s1) == LastLive(b[k], s2)
    ensures Shooters(a, s1) == Shooters(b, s2)
  {
    if a != [] {
      var fa, fb := a[..|a| - 1], b[..|b| - 1];
      forall k | 0 <= k < |fa|
        ensures LastLive(fa[k], s1) == LastLive(fb[k], s2)
      {
        assert fa[k] == a[k] && fb[k] == b[k];
      }
      ShootersCongruent(fa, fb, s1, s2);
      assert LastLive(a[|a| - 1], s1) == LastLive(b[|b| - 1], s2);
    }
  }

  /** Destroying a ship that is not a column's last live ship leaves that column's shooter alone. */
  lemma {:induction false} MarkKeepsLastLive(col: Column, ships: Ships, s: ShipId)
    requires LastLive(col, ships) != Some(s)
    ensures LastLive(col, Mark(ships, s)) == LastLive(col, ships)
  {
    if col != [] && !Live(col[|col| - 1], ships) {
      MarkKeepsLastLive(col[..|col| - 1], ships, s);
    }
  }

  lemma {:induction false} ShooterColumn(cols: Grid, ships: Ships, x: ShipId) returns (k: nat)
    requires x in Shooters(cols, ships)
    ensures k < |cols| && LastLive(cols[k], ships) == Some(x)
  {
    var front := cols[..|cols| - 1];
    if x in Shooters(front, ships) {
      k := ShooterColumn(front, ships, x);
      assert front[k] == cols[k];
    } else {
      k := |cols| - 1;
    }
  }

  /** A ship is a shooter exactly when it is the last live ship of the column that lists it. */
  lemma ShooterIffLastLive(cols: Grid, ships: Ships, x: ShipId)
    requires GridOk(cols, ships)
    ensures x in Shooters(cols, ships) <==> InGrid(x, cols) && LastLive(cols[ColumnOf(cols, x)], ships) == Some(x)
  {
    if x in Shooters(cols, ships) {
      var k := ShooterColumn(cols, ships, x);
      assert x in cols[k];
    } else if InGrid(x, cols) && LastLive(cols[ColumnOf(cols, x)], ships) == Some(x) {
      ShootersSplit(cols, ColumnOf(cols, x), ships);
    }
  }

  /** Destroying `s` changes no column's shooter except, possibly, that of column `c`. */
  lemma MarkKeepsOtherColumns(cols: Grid, ships: Ships, s: ShipId, c: int)
    requires GridOk(cols, ships)
    requires InGrid(s, cols) ==> c == ColumnOf(cols, s)
    ensures forall k :: 0 <= k < |cols| && k != c ==>
              LastLive(cols[k], Mark(ships, s)) == LastLive(cols[k], ships)
  {
    forall k | 0 <= k < |cols| && k != c
      ensures LastLive(cols[k], Mark(ships, s)) == LastLive(cols[k], ships)
    {
      if LastLive(cols[k], ships) == Some(s) {
        assert false;
      }
      MarkKeepsLastLive(cols[k], ships, s);
    }
  }

  lemma DestroyNonShooter(cols: Grid, ships: Ships, s: ShipId)
    requires GridOk(cols, ships)
    requires s !in Shooters(cols, ships)
    ensures Shooters(cols, Mark(ships, s)) == Shooters(cols, ships)
  {
    ShooterIffLastLive(cols, ships, s);
    var c := if InGrid(s, cols) then ColumnOf(cols, s) else -1;
    MarkKeepsOtherColumns(cols, ships, s, c);
    if c >= 0 {
      MarkKeepsLastLive(cols[c], ships, s);
    }
    ShootersCongruent(cols, cols, Mark(ships, s), ships);
  }

  /** The roster slots before a shooter's column do not hold that shooter. */
  lemma ShooterNotEarlier(cols: Grid, ships: Ships, s: ShipId, c: nat)
    requires GridOk(cols, ships)
    requires c < |cols| && s in cols[c]
    ensures s !in Shooters(cols[..c], ships)
  {
    if s in Shooters(cols[..c], ships) {
      var k := ShooterColumn(cols[..c], ships, s);
    }
  }

  /**
   * A list that has `x` right after a prefix without it, and the same list
   * with that one slot replaced by the content of `o` (or dropped for None):
   * the slot is the one List.indexOf finds.
   */
  lemma SlotUpdate<T>(before: seq<T>, after: seq<T>, p: seq<T>, x: T, q: seq<T>, o: Option<T>)
    requires before == p + [x] + q && after == p + OptSeq(o) + q
    requires x !in p
    ensures x in before
    ensures var j := IndexOf(before, x);
            match o
            case Some(t) => after == before[j := t]
            case None => after == before[..j] + before[j + 1..]
  {
    assert before[|p|] == x && before[..|p|] == p;
    assert before[|p| + 1..] == q;
  }

  /** Before the destroy: the shooter sits in its column's slot. */
  lemma ShooterSlot(cols: Grid, ships: Ships, s: ShipId, c: nat)
    requires c < |cols| && LastLive(cols[c], ships) == Some(s)
    ensures Shooters(cols, ships) == Shooters(cols[..c], ships) + [s] + Shooters(cols[c + 1..], ships)
  {
    ShootersSplit(cols, c, ships);
  }

  /** After the destroy: when no other column's shooter changed, only the slot of column `c` can differ. */
  lemma MarkedRoster(cols: Grid, ships: Ships, s: ShipId, c: nat)
    requires c < |cols|
    requires forall k :: 0 <= k < |cols| && k != c ==> LastLive(cols[k], Mark(ships, s)) == LastLive(cols[k], ships)
    ensures Shooters(cols, Mark(ships, s)) ==
              Shooters(cols[..c], ships) + OptSeq(LastLive(cols[c], Mark(ships, s))) + Shooters(cols[c + 1..], ships)
  {
    var m := Mark(ships, s);
    var pre, post := cols[..c], cols[c + 1..];
    assert forall k :: 0 <= k < |pre| ==> pre[k] == cols[k];
    assert forall k :: 0 <= k < |post| ==> post[k] == cols[c + 1 + k];
    ShootersCongruent(pre, pre, m, ships);
    ShootersCongruent(post, post, m, ships);
    ShootersSplit(cols, c, m);
  }

  /** The shooter case of `destroy`, with the new content of the shooter's slot named `o`. */
  lemma DestroyShooter(cols: Grid, ships: Ships, s: ShipId, c: nat, o: Option<ShipId>)
    requires c < |cols| && LastLive(cols[c], ships) == Some(s)
    requires s !in Shooters(cols[..c], ships)
    requires forall k :: 0 <= k < |cols| && k != c ==> LastLive(cols[k], Mark(ships, s)) == LastLive(cols[k], ships)
    requires o == LastLive(cols[c], Mark(ships, s))
    ensures s in Shooters(cols, ships)
    ensures var before := Shooters(cols, ships);
            var after := Shooters(cols, Mark(ships, s));
            var j := IndexOf(before, s);
            match o
            case Some(t) => after == before[j := t]
            case None => after == before[..j] + before[j + 1..]
  {
    ShooterSlot(cols, ships, s, c);
    MarkedRoster(cols, ships, s, c);
    SlotUpdate(Shooters(cols, ships), Shooters(cols, Mark(ships, s)),
               Shooters(cols[..c], ships), s, Shooters(cols[c + 1..], ships), o);
  }

  /**
   * What `destroy` does to the roster: if the destroyed ship was a shooter, its
   * slot now holds its column's new last live ship, or the slot is gone when the
   * column has none left; every other slot is unchanged. If it was not a
   * shooter, the roster is unchanged.
   */
  lemma DestroyUpdatesRoster(cols: Grid, ships: Ships, s: ShipId)
    requires GridOk(cols, ships)
    ensures var before := Shooters(cols, ships);
            var after := Shooters(cols, Destroyed(cols, ships, s));
            if s in before then
              InGrid(s, cols) &&
              var j := IndexOf(before, s);
              match LastLive(cols[ColumnOf(cols, s)], Mark(ships, s))
              case Some(t) => after == before[j := t]
              case None => after == before[..j] + before[j + 1..]
            else after == before
  {
    ShooterIffLastLive(cols, ships, s);
    if !InGrid(s, cols) {
    } else if s !in Shooters(cols, ships) {
      DestroyNonShooter(cols, ships, s);
    } else {
      ShooterIffLastLive(cols, ships, s);
      var c := ColumnOf(cols, s);
      MarkKeepsOtherColumns(cols, ships, s, c);
      ShooterNotEarlier(cols, ships, s, c);
      DestroyShooter(cols, ships, s, c, LastLive(cols[c], Mark(ships, s)));
    }
  }

  // ---------------------------------------------------------------------------
  // The sweep: destroyed ships leave their columns, live ones move.

  /** Two ship maps with the same ships destroyed and alive. */
  ghost predicate SameLiveness(s1: Ships, s2: Ships) {
    forall id :: Live(id, s1) <==> Live(id, s2)
  }

  /** Every column after removeAll(destroyed). */
  function SweepColumns(cols: Grid, ships: Ships): (r: Grid)
    ensures |r| == |cols|
    ensures forall c :: 0 <= c < |cols| ==> r[c] == FilterLive(cols[c], ships)
  {
    seq(|cols|, c requires 0 <= c < |cols| => FilterLive(cols[c], ships))
  }

  /** The ship records after the sweep: every live listed ship is moved by (dx, dy). */
  function SweepShips(cols: Grid, ships: Ships, dx: int, dy: int): (r: Ships)
    ensures r.Keys == ships.Keys
    ensures SameLiveness(r, ships)
  {
    map id | id in ships :: if Live(id, ships) && InGrid(id, cols) then Moved(ships[id], dx, dy) else ships[id]
  }

  lemma {:induction false} LastLiveCongruent(col: Column, s1: Ships, s2: Ships)
    requires SameLiveness(s1, s2)
    ensures LastLive(col, s1) == LastLive(col, s2)
  {
    if col != [] {
      LastLiveCongruent(col[..|col| - 1], s1, s2);
    }
  }

  /** Removing the destroyed ships of a column does not change its last live ship. */
  lemma {:induction false} LastLiveFilter(col: Column, ships: Ships)
    ensures LastLive(FilterLive(col, ships), ships) == LastLive(col, ships)
  {
    if col != [] {
      var front := col[..|col| - 1];
      var last := col[|col| - 1];
      LastLiveFilter(front, ships);
      if Live(last, ships) {
        var f := FilterLive(front, ships) + [last];
        assert f[..|f| - 1] == FilterLive(front, ships);
      }
    }
  }

  /** The sweep keeps the roster: every column keeps its last live ship. */
  lemma SweepKeepsShooters(cols: Grid, ships: Ships, dx: int, dy: int)
    ensures Shooters(SweepColumns(cols, ships), SweepShips(cols, ships, dx, dy)) == Shooters(cols, ships)
  {
    var r, m := SweepColumns(cols, ships), SweepShips(cols, ships, dx, dy);
    forall k | 0 <= k < |r| ensures LastLive(r[k], m) == LastLive(cols[k], ships) {
      LastLiveCongruent(r[k], m, ships);
      LastLiveFilter(cols[k], ships);
    }
    ShootersCongruent(r, cols, m, ships);
  }

  /** After the sweep every listed ship is alive, and the grid stays well formed. */
  lemma SweepCleansGrid(cols: Grid, ships: Ships, dx: int, dy: int)
    requires GridOk(cols, ships)
    ensures var r := SweepColumns(cols, ships);
            var m := SweepShips(cols, ships, dx, dy);
            GridOk(r, m) &&
            (forall c, id :: 0 <= c < |r| && id in r[c] ==> Live(id, m)) &&
            (forall c, id :: 0 <= c < |r| && id in r[c] ==> id in cols[c])
  {
  }

  /** A ship the sweep keeps has moved by exactly (dx, dy); a destroyed one is unchanged. */
  lemma SweepMoves(cols: Grid, ships: Ships, dx: int, dy: int, c: nat, id: ShipId)
    requires c < |cols| && id in cols[c] && id in ships
    ensures var m := SweepShips(cols, ships, dx, dy);
            if Live(id, ships) then id in SweepColumns(cols, ships)[c] && m[id] == Moved(ships[id], dx, dy)
            else id !in SweepColumns(cols, ships)[c] && m[id] == ships[id]
  {
  }

  /** Number of live ships in a column, under two maps with the same liveness and after the filter. */
  lemma {:induction false} CountLiveFilter(col: Column, ships: Ships, m: Ships)
    requires SameLiveness(ships, m)
    ensures CountLive(FilterLive(col, ships), m) == CountLive(col, ships)
  {
    if col != [] {
      var front := col[..|col| - 1];
      var last := col[|col| - 1];
      CountLiveFilter(front, ships, m);
      if Live(last, ships) {
        var f := FilterLive(front, ships) + [last];
        assert f[..|f| - 1] == FilterLive(front, ships);
      }
    }
  }

  lemma {:induction false} LiveCountSweep(cols: Grid, ships: Ships, dx: int, dy: int)
    ensures LiveCount(SweepColumns(cols, ships), SweepShips(cols, ships, dx, dy)) == LiveCount(cols, ships)
  {
    if cols != [] {
      var front := cols[..|cols| - 1];
      var m := SweepShips(cols, ships, dx, dy);
      var r := SweepColumns(cols, ships);
      LiveCountSameLiveness(SweepColumns(front, ships), m, SweepShips(front, ships, dx, dy));
      LiveCountSweep(front, ships, dx, dy);
      assert r[..|r| - 1] == SweepColumns(front, ships);
      CountLiveFilter(cols[|cols| - 1], ships, m);
    }
  }

  lemma {:induction false} CountLiveSameLiveness(col: Column, s1: Ships, s2: Ships)
    requires SameLiveness(s1, s2)
    ensures CountLive(col, s1) == CountLive(col, s2)
  {
    if col != [] {
      CountLiveSameLiveness(col[..|col| - 1], s1, s2);
    }
  }

  lemma {:induction false} LiveCountSameLiveness(cols: Grid, s1: Ships, s2: Ships)
    requires SameLiveness(s1, s2)
    ensures LiveCount(cols, s1) == LiveCount(cols, s2)
  {
    if cols != [] {
      LiveCountSameLiveness(cols[..|cols| - 1], s1, s2);
      CountLiveSameLiveness(cols[|cols| - 1], s1, s2);
    }
  }

  // ---------------------------------------------------------------------------
  // How many ships are alive.

  /** Destroying a ship lowers a column's count by one exactly when the column lists it and it was alive. */
  lemma {:induction false} CountLiveMark(col: Column, ships: Ships, s: ShipId)
    requires NoDup(col)
    ensures CountLive(col, Mark(ships, s)) == CountLive(col, ships) - (if s in col && Live(s, ships) then 1 else 0)
  {
    if col != [] {
      var front := col[..|col| - 1];
      assert NoDup(front);
      assert col == front + [col[|col| - 1]];
      CountLiveMark(front, ships, s);
    }
  }

  /** `destroy` lowers the number of live listed ships by one exactly when it hits a live listed ship. */
  lemma LiveCountDestroyed(cols: Grid, ships: Ships, s: ShipId)
    requires GridOk(cols, ships)
    ensures LiveCount(cols, Destroyed(cols, ships, s)) == LiveCount(cols, ships) - (if InGrid(s, cols) && Live(s, ships) then 1 else 0)
  {
    if InGrid(s, cols) {
      LiveCountMark(cols, ships, s);
    }
  }

  lemma {:induction false} LiveCountMark(cols: Grid, ships: Ships, s: ShipId)
    requires GridOk(cols, ships)
    ensures LiveCount(cols, Mark(ships, s)) == LiveCount(cols, ships) - (if InGrid(s, cols) && Live(s, ships) then 1 else 0)
  {
    if cols != [] {
      var front := cols[..|cols| - 1];
      var last := cols[|cols| - 1];
      assert GridOk(front, ships) by {
        assert forall c :: 0 <= c < |front| ==> front[c] == cols[c];
      }
      LiveCountMark(front, ships, s);
      CountLiveMark(last, ships, s);
      if s in last {
        assert !InGrid(s, front);
      } else if InGrid(s, cols) {
        assert InGrid(s, front);
      } else {
        assert !InGrid(s, front);
      }
    }
  }

  lemma {:induction false} LiveCountAppend(a: Grid, b: Grid, ships: Ships)
    ensures LiveCount(a + b, ships) == LiveCount(a, ships) + LiveCount(b, ships)
    decreases |b|
  {
    if b == [] {
      assert a + b == a;
    } else {
      var b' := b[..|b| - 1];
      assert (a + b)[..|a + b| - 1] == a + b';
      LiveCountAppend(a, b', ships);
    }
  }

  // ---------------------------------------------------------------------------
  // cleanUp: the empty column it drops and the bounding box it recomputes.

  /** Every listed ship has a record. */
  predicate Listed(cols: Grid, ships: Ships) {
    forall c, id :: 0 <= c < |cols| && id in cols[c] ==> id in ships
  }

  /** Height of a column measured from the formation's top `posY`: its bottom ship's y - posY + shipH. */
  function ColumnHeight(col: Column, ships: Ships, posY: int, shipH: int): int
    requires col != [] && col[|col| - 1] in ships
  {
    ships[col[|col| - 1]].y - posY + shipH
  }

  function TopX(col: Column, ships: Ships): int
    requires col != [] && col[0] in ships
  {
    ships[col[0]].x
  }

  function TopY(col: Column, ships: Ships): int
    requires col != [] && col[0] in ships
  {
    ships[col[0]].y
  }

  /** cleanUp's maxColumn: the greatest height of a non-empty column, starting from 0. */
  function MaxColumnHeight(cols: Grid, ships: Ships, posY: int, shipH: int): int
    requires Listed(cols, ships)
  {
    if cols == [] then 0
    else
      var front := cols[..|cols| - 1];
      assert forall c :: 0 <= c < |front| ==> front[c] == cols[c];
      var m := MaxColumnHeight(front, ships, posY, shipH);
      var last := cols[|cols| - 1];
      if last == [] then m else Max(m, ColumnHeight(last, ships, posY, shipH))
  }

  /** maxColumn is 0 or the height of some non-empty column, and no column is taller. */
  lemma {:induction false} MaxColumnHeightIsMax(cols: Grid, ships: Ships, posY: int, shipH: int)
    requires Listed(cols, ships)
    ensures var r := MaxColumnHeight(cols, ships, posY, shipH);
            r >= 0 &&
            (forall c :: 0 <= c < |cols| && cols[c] != [] ==> ColumnHeight(cols[c], ships, posY, shipH) <= r) &&
            (r == 0 || exists c :: 0 <= c < |cols| && cols[c] != [] && r == ColumnHeight(cols[c], ships, posY, shipH))
  {
    if cols != [] {
      var front := cols[..|cols| - 1];
      assert forall c :: 0 <= c < |front| ==> front[c] == cols[c];
      MaxColumnHeightIsMax(front, ships, posY, shipH);
      var m := MaxColumnHeight(front, ships, posY, shipH);
      if m != 0 {
        var c :| 0 <= c < |front| && front[c] != [] && m == ColumnHeight(front[c], ships, posY, shipH);
        assert cols[c] == front[c];
      }
    }
  }

  function MinTopY(cols: Grid, ships: Ships): int
    requires Listed(cols, ships)
  {
    if cols == [] then IntMax
    else
      var front := cols[..|cols| - 1];
      assert forall c :: 0 <= c < |front| ==> front[c] == cols[c];
      var m := MinTopY(front, ships);
      var last := cols[|cols| - 1];
      if last == [] then m else Min(m, TopY(last, ships))
  }

  /** minPositionY is IntMax or the top y of some non-empty column, and no column starts higher. */
  lemma {:induction false} MinTopYIsMin(cols: Grid, ships: Ships)
    requires Listed(cols, ships)
    ensures var r := MinTopY(cols, ships);
            r <= IntMax &&
            (forall c :: 0 <= c < |cols| && cols[c] != [] ==> r <= TopY(cols[c], ships)) &&
            (r == IntMax || exists c :: 0 <= c < |cols| && cols[c] != [] && r == TopY(cols[c], ships))
  {
    if cols != [] {
      var front := cols[..|cols| - 1];
      assert forall c :: 0 <= c < |front| ==> front[c] == cols[c];
      MinTopYIsMin(front, ships);
      var m := MinTopY(front, ships);
      if m != IntMax {
        var c :| 0 <= c < |front| && front[c] != [] && m == TopY(front[c], ships);
        assert cols[c] == front[c];
      }
    }
  }

  /**
   * cleanUp's leftMostPoint: the top-ship x of the first non-empty column whose
   * top ship is not at x = 0; 0 when there is none. (A point at 0 counts as
   * "not yet found".)
   */
  function LeftMost(cols: Grid, ships: Ships): (r: int)
    requires Listed(cols, ships)
  {
    if cols == [] then 0
    else
      var front := cols[..|cols| - 1];
      assert forall c :: 0 <= c < |front| ==> front[c] == cols[c];
      var l := LeftMost(front, ships);
      var last := cols[|cols| - 1];
      if last != [] && l == 0 then TopX(last, ships) else l
  }

  /** cleanUp's rightMostPoint: the top-ship x of the last non-empty column; 0 when there is none. */
  function RightMost(cols: Grid, ships: Ships): (r: int)
    requires Listed(cols, ships)
  {
    if cols == [] then 0
    else
      var front := cols[..|cols| - 1];
      assert forall c :: 0 <= c < |front| ==> front[c] == cols[c];
      var last := cols[|cols| - 1];
      if last != [] then TopX(last, ships) else RightMost(front, ships)
  }

  /**
   * LeftMost is the x of the first non-empty column whose top ship is off
   * x = 0, or 0 when there is none.
   */
  lemma {:induction false} LeftMostIsFirst(cols: Grid, ships: Ships)
    requires Listed(cols, ships)
    ensures var r := LeftMost(cols, ships);
            (r == 0 ==> forall c :: 0 <= c < |cols| && cols[c] != [] ==> TopX(cols[c], ships) == 0) &&
            (r != 0 ==> exists c :: 0 <= c < |cols| && cols[c] != [] && r == TopX(cols[c], ships) &&
                                    forall k :: 0 <= k < c && cols[k] != [] ==> TopX(cols[k], ships) == 0)
  {
    if cols != [] {
      var front := cols[..|cols| - 1];
      assert forall c :: 0 <= c < |front| ==> front[c] == cols[c];
      LeftMostIsFirst(front, ships);
      var l := LeftMost(front, ships);
      if l != 0 {
        var c :| 0 <= c < |front| && front[c] != [] && l == TopX(front[c], ships) &&
                 forall k :: 0 <= k < c && front[k] != [] ==> TopX(front[k], ships) == 0;
        assert cols[c] != [] && l == TopX(cols[c], ships);
      }
    }
  }

  /** RightMost is the x of the last non-empty column. */
  lemma {:induction false} RightMostIsLast(cols: Grid, ships: Ships, c: nat)
    requires Listed(cols, ships)
    requires c < |cols| && cols[c] != []
    requires forall k :: c < k < |cols| ==> cols[k] == []
    ensures RightMost(cols, ships) == TopX(cols[c], ships)
  {
    var front := cols[..|cols| - 1];
    assert forall k :: 0 <= k < |front| ==> front[k] == cols[k];
    if c < |front| {
      assert cols[|cols| - 1] == [];
      RightMostIsLast(front, ships, c);
    }
  }

  /** RightMost is 0 when every column is empty. */
  lemma {:induction false} RightMostNone(cols: Grid, ships: Ships)
    requires Listed(cols, ships)
    requires forall k :: 0 <= k < |cols| ==> cols[k] == []
    ensures RightMost(cols, ships) == 0
  {
    if cols != [] {
      var front := cols[..|cols| - 1];
      assert forall k :: 0 <= k < |front| ==> front[k] == cols[k];
      RightMostNone(front, ships);
    }
  }

  /** When the first non-empty column's top ship is off x = 0, the left edge is that ship's x. */
  lemma LeftMostFirst(cols: Grid, ships: Ships, c: nat)
    requires Listed(cols, ships)
    requires c < |cols| && cols[c] != [] && TopX(cols[c], ships) != 0
    requires forall k :: 0 <= k < c ==> cols[k] == []
    ensures LeftMost(cols, ships) == TopX(cols[c], ships)
  {
    LeftMostIsFirst(cols, ships);
    var r := LeftMost(cols, ships);
    if r != 0 {
      var c' :| 0 <= c' < |cols| && cols[c'] != [] && r == TopX(cols[c'], ships) &&
                forall k :: 0 <= k < c' && cols[k] != [] ==> TopX(cols[k], ships) == 0;
      assert c' == c;
    }
  }

  /**
   * The columns after cleanUp's removal: `emptyColumns` collects
   * `indexOf(column)` for each empty column, and since all empty lists are
   * equal that is always the index of the FIRST empty column, so one column
   * at most is dropped per call.
   */
  function DropFirstEmpty(cols: Grid): (r: Grid)
    ensures [] in cols ==> |r| == |cols| - 1
    ensures [] !in cols ==> r == cols
    ensures forall c :: c in r ==> c in cols
  {
    var j := IndexOf(cols, []);
    if j < 0 then cols else cols[..j] + cols[j + 1..]
  }

  /** Two empty columns cannot both go in one call: an empty column is left over. */
  lemma DropFirstEmptyLeavesOthers(cols: Grid, i: nat, j: nat)
    requires i < j < |cols| && cols[i] == [] && cols[j] == []
    ensures [] in DropFirstEmpty(cols)
  {
    var f := IndexOf(cols, []);
    var r := DropFirstEmpty(cols);
    if f < j {
      assert r[j - 1] == cols[j];
    }
  }

  /** Dropping an empty column leaves the roster as it was. */
  lemma DropFirstEmptyShooters(cols: Grid, ships: Ships)
    ensures Shooters(DropFirstEmpty(cols), ships) == Shooters(cols, ships)
  {
    var j := IndexOf(cols, []);
    if j >= 0 {
      var a, b := cols[..j], cols[j + 1..];
      var sa, sb := Shooters(a, ships), Shooters(b, ships);
      assert LastLive(cols[j], ships) == None;
      assert Shooters(cols, ships) == sa + [] + sb by { ShootersSplit(cols, j, ships); }
      assert Shooters(a + b, ships) == sa + sb by { ShootersAppend(a, b, ships); }
      assert sa + [] + sb == sa + sb;
    }
  }

  /** Dropping an empty column leaves the live count as it was. */
  lemma DropFirstEmptyLiveCount(cols: Grid, ships: Ships)
    ensures LiveCount(DropFirstEmpty(cols), ships) == LiveCount(cols, ships)
  {
    var j := IndexOf(cols, []);
    if j >= 0 {
      var a, b, e := cols[..j], cols[j + 1..], [cols[j]];
      assert cols == a + e + b;
      assert LiveCount(e, ships) == 0 by { assert e[..0] == []; }
      LiveCountAppend(a + e, b, ships);
      LiveCountAppend(a, e, ships);
      LiveCountAppend(a, b, ships);
    }
  }

  lemma DropFirstEmptyGridOk(cols: Grid, ships: Ships)
    requires GridOk(cols, ships)
    ensures GridOk(DropFirstEmpty(cols), ships)
  {
    var j := IndexOf(cols, []);
    if j >= 0 {
      var r := cols[..j] + cols[j + 1..];
      assert forall c :: 0 <= c < |r| ==> r[c] == cols[if c < j then c else c + 1];
    }
  }
}
