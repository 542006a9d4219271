/** Values shared by the whole game model: optional values, teams and bullets. */
module Common {

  datatype Option<T> = None | Some(value: T)

  /** Allegiance of an entity; entities start out neutral. */
  datatype Team = Player | Enemy | Neutral

  /**
   * A projectile as handed out by the bullet pool: position of its upper-left
   * corner, velocity per frame (positive speedY is downwards), size and team.
   */
  datatype Bullet = Bullet(x: int, y: int, speedX: int, speedY: int, width: int, height: int, team: Team)

  /** Java's Math.max and Math.min on int. */
  function Max(a: int, b: int): int { if a >= b then a else b }
  function Min(a: int, b: int): int { if a <= b then a else b }

  /** Java's Integer.MAX_VALUE. */
  const IntMax: int := 0x7fff_ffff

  /**
   * `(int) (r * n)` for a draw `r` of Math.random(): an index that is uniform
   * over [0, n) when `r` is uniform over [0, 1).
   */
  function RandomIndex(r: real, n: nat): (i: nat)
    requires 0.0 <= r < 1.0 && n > 0
    ensures i < n
  {
    var f := (r * n as real).Floor;
    assert 0.0 <= r * n as real < n as real by {
      assert r * n as real <= 1.0 * n as real;
      assert r * n as real != n as real;
    }
    f
  }
}
