/**
 * The bullets an enemy ship spawns when the formation makes it fire: their
 * shape depends on the ship's sprite family.
 */
module EnemyBullets {
  import opened Common
  import opened Fleet

  const BulletSpeed: int := 4
  const BulletWidth: int := 6
  const BulletHeight: int := 10
  const DoubleShotOffset: int := 6

  /** Java's `a / 2` on int: the quotient truncated toward zero. */
  function Half(a: int): (r: int)
    ensures a >= 0 ==> 0 <= 2 * r <= a && a - 2 * r < 2
    ensures a < 0 ==> a <= 2 * r <= 0 && 2 * r - a < 2
  {
    if a >= 0 then a / 2 else -((-a) / 2)
  }

  /** The horizontal centre a ship fires from. */
  function Centre(ship: EnemyShip): int {
    ship.x + Half(ship.width)
  }

  /** A downward enemy bullet of the standard size. */
  function EnemyBullet(x: int, y: int, speed: int): Bullet {
    Bullet(x, y, 0, speed, BulletWidth, BulletHeight, Enemy)
  }

  /** spawnBulletFromShooter: one bullet at the centre, or two at centre -6 and +6 for a C ship. */
  function SpawnBullets(ship: EnemyShip): (r: seq<Bullet>)
    ensures |r| == (if ship.kind == KindC then 2 else 1)
    ensures forall b :: b in r ==>
              b.team == Enemy && b.speedX == 0 && b.width == BulletWidth && b.height == BulletHeight &&
              b.y == ship.y + ship.height &&
              b.speedY == (if ship.kind == KindB then 2 * BulletSpeed else BulletSpeed)
    ensures ship.kind == KindC ==> r[0].x == Centre(ship) - DoubleShotOffset && r[1].x == Centre(ship) + DoubleShotOffset
    ensures ship.kind != KindC ==> r[0].x == Centre(ship)
  {
    var speed := BulletSpeed * (if ship.kind == KindB then 2 else 1);
    var y := ship.y + ship.height;
    if ship.kind == KindC then
      [EnemyBullet(Centre(ship) - DoubleShotOffset, y, speed), EnemyBullet(Centre(ship) + DoubleShotOffset, y, speed)]
    else
      [EnemyBullet(Centre(ship), y, speed)]
  }

  /** The ships among `fired` whose sprite family is C. */
  function CountC(fired: seq<ShipId>, ships: Ships): nat
    requires forall x :: x in fired ==> x in ships
  {
    if fired == [] then 0
    else CountC(fired[..|fired| - 1], ships) + if ships[fired[|fired| - 1]].kind == KindC then 1 else 0
  }

  /** The bullets the ships of `fired` spawn, one ship after another. */
  function BulletsFor(fired: seq<ShipId>, ships: Ships): (r: seq<Bullet>)
    requires forall x :: x in fired ==> x in ships
    ensures |r| == |fired| + CountC(fired, ships)
    ensures forall b :: b in r ==> b.team == Enemy && b.speedX == 0 && b.width == BulletWidth && b.height == BulletHeight
  {
    if fired == [] then []
    else BulletsFor(fired[..|fired| - 1], ships) + SpawnBullets(ships[fired[|fired| - 1]])
  }

  /** The bullets added to the caller's set: spawnBulletFromShooter for each fired ship in turn. */
  method SpawnAll(fired: seq<ShipId>, ships: Ships) returns (bullets: seq<Bullet>)
    requires forall x :: x in fired ==> x in ships
    ensures bullets == BulletsFor(fired, ships)
  {
    bullets := [];
    var k := 0;
    while k < |fired|
      invariant 0 <= k <= |fired|
      invariant bullets == BulletsFor(fired[..k], ships)
    {
      assert fired[..k + 1][..k] == fired[..k];
      bullets := bullets + SpawnBullets(ships[fired[k]]);
      k := k + 1;
    }
    assert fired[..|fired|] == fired;
  }

  /** Firing two lists one after the other spawns the bullets of each, in order. */
  lemma {:induction false} BulletsForAppend(a: seq<ShipId>, b: seq<ShipId>, ships: Ships)
    requires forall x :: x in a + b ==> x in ships
    ensures BulletsFor(a + b, ships) == BulletsFor(a, ships) + BulletsFor(b, ships)
    decreases |b|
  {
    if b == [] {
      assert a + b == a;
    } else {
      var b' := b[..|b| - 1];
      assert (a + b)[..|a + b| - 1] == a + b';
      BulletsForAppend(a, b', ships);
    }
  }

  /** A roster without C ships fires exactly one bullet per shot. */
  lemma {:induction false} OneBulletPerShot(fired: seq<ShipId>, ships: Ships)
    requires forall x :: x in fired ==> x in ships && ships[x].kind != KindC
    ensures |BulletsFor(fired, ships)| == |fired|
  {
    if fired != [] {
      OneBulletPerShot(fired[..|fired| - 1], ships);
    }
  }

  /** Between one and two bullets per shot. */
  lemma {:induction false} CountCBounds(fired: seq<ShipId>, ships: Ships)
    requires forall x :: x in fired ==> x in ships
    ensures CountC(fired, ships) <= |fired|
    ensures |fired| <= |BulletsFor(fired, ships)| <= 2 * |fired|
  {
    if fired != [] {
      CountCBounds(fired[..|fired| - 1], ships);
    }
  }
}
