/**
 * The player's ship of the second source tree: a position moved by its move
 * speed, a sprite that swaps to its destroyed variant while the destruction
 * cooldown runs, and a shot whose bullets depend on the ship type and on the
 * triple-shot and bullet-speed item effects. The cooldowns' clock is an
 * input: callers say whether a cooldown has finished.
 */
module PlayerShipModel {
  import opened Common
  import opened ShipTypes
  import LegacyShipUpgrades

  /** The older, all-integer stats record that the older library holds. */
  type ShipStats = LegacyShipUpgrades.ShipStats

  /** Half the distance between the two bullets of a DoubleShot ship. */
  const DoubleShotOffset: int := 6
  /** How long the ship stays destroyed, in milliseconds. */
  const DestructionCooldown: int := 1000
  const ShipWidth: int := 26
  const ShipHeight: int := 16

  /**
   * The item effects the game state reports: the triple-shot spread and the
   * bullet-speed multiplier, each present only while its effect is active.
   */
  datatype Effects = Effects(tripleShot: Option<int>, bulletSpeedUp: Option<int>)

  /** getBulletSpeedMultiplier: the BULLETSPEEDUP value when there is one, else 1. */
  function SpeedMultiplier(gameState: Option<Effects>): (m: int)
    ensures gameState.None? || gameState.value.bulletSpeedUp.None? ==> m == 1
    ensures gameState.Some? && gameState.value.bulletSpeedUp.Some? ==> m == gameState.value.bulletSpeedUp.value
  {
    match gameState
    case None => 1
    case Some(e) => if e.bulletSpeedUp.Some? then e.bulletSpeedUp.value else 1
  }

  /** hasTripleShotEffect plus the spread it reads: present only with a game state and the effect. */
  function TripleShotOffset(gameState: Option<Effects>): (r: Option<int>)
    ensures r.Some? <==> gameState.Some? && gameState.value.tripleShot.Some?
  {
    if gameState.Some? then gameState.value.tripleShot else None
  }

  /**
   * The x offsets, from the ship's centre, of the bullets one shot adds, in
   * the order they are added: triple shot first, then the ship type.
   */
  function ShotOffsets(t: SpriteType, triple: Option<int>): (r: seq<int>)
    ensures |r| == if triple.Some? then 3 else if t == DoubleShot then 2 else 1
    ensures triple.Some? ==> r == [0, -triple.value, triple.value]
    ensures triple.None? && t == DoubleShot ==> r == [-DoubleShotOffset, DoubleShotOffset]
  {
    match triple
    case Some(d) => [0, -d, d]
    case None => if t == DoubleShot then [-DoubleShotOffset, DoubleShotOffset] else [0]
  }

  /** addBullet's speed: the stats' bullet speed times the multiplier. */
  function ShotSpeed(stats: ShipStats, gameState: Option<Effects>): int {
    stats.bulletSpeed * SpeedMultiplier(gameState)
  }

  /** addBullet: a pooled bullet heading straight at the shot speed. */
  function ShotBullet(stats: ShipStats, gameState: Option<Effects>, x: int, y: int, team: Team): Bullet {
    Bullet(x, y, 0, ShotSpeed(stats, gameState), stats.bulletWidth, stats.bulletHeight, team)
  }

  /** shootTripleShot: a bullet at the centre, then one `offset` to either side. */
  function TripleShot(stats: ShipStats, gameState: Option<Effects>, cx: int, top: int, team: Team, offset: int): seq<Bullet> {
    [ShotBullet(stats, gameState, cx, top, team),
     ShotBullet(stats, gameState, cx - offset, top, team),
     ShotBullet(stats, gameState, cx + offset, top, team)]
  }

  /** shootBasedOnType: two bullets 6 either side of the centre for DoubleShot, one at the centre otherwise. */
  function TypeShot(stats: ShipStats, gameState: Option<Effects>, t: SpriteType, cx: int, top: int, team: Team): seq<Bullet> {
    if t == DoubleShot then
      [ShotBullet(stats, gameState, cx - DoubleShotOffset, top, team),
       ShotBullet(stats, gameState, cx + DoubleShotOffset, top, team)]
    else
      [ShotBullet(stats, gameState, cx, top, team)]
  }

  /**
   * The bullets one shot adds, with the muzzle at the ship's horizontal
   * centre and a bullet height above its top edge.
   */
  function Volley(stats: ShipStats, t: SpriteType, x: int, y: int, team: Team, gameState: Option<Effects>): seq<Bullet> {
    match TripleShotOffset(gameState)
    case Some(d) => TripleShot(stats, gameState, x + ShipWidth / 2, y - stats.bulletHeight, team, d)
    case None => TypeShot(stats, gameState, t, x + ShipWidth / 2, y - stats.bulletHeight, team)
  }

  /**
   * Every bullet of a volley starts a bullet height above the ship, at the
   * centre plus its offset, heading straight at the shot speed, with the
   * stats' bullet size and the ship's team.
   */
  lemma VolleyShape(stats: ShipStats, t: SpriteType, x: int, y: int, team: Team, gameState: Option<Effects>)
    ensures var r := Volley(stats, t, x, y, team, gameState);
      var offsets := ShotOffsets(t, TripleShotOffset(gameState));
      |r| == |offsets| &&
      forall i :: 0 <= i < |r| ==>
        r[i] == ShotBullet(stats, gameState, x + ShipWidth / 2 + offsets[i], y - stats.bulletHeight, team)
  {
    var r := Volley(stats, t, x, y, team, gameState);
    var offsets := ShotOffsets(t, TripleShotOffset(gameState));
    forall i | 0 <= i < |r|
      ensures r[i] == ShotBullet(stats, gameState, x + ShipWidth / 2 + offsets[i], y - stats.bulletHeight, team)
    {
      if TripleShotOffset(gameState).Some? {
        assert r == TripleShot(stats, gameState, x + ShipWidth / 2, y - stats.bulletHeight, team, TripleShotOffset(gameState).value);
      } else {
        assert r == TypeShot(stats, gameState, t, x + ShipWidth / 2, y - stats.bulletHeight, team);
      }
    }
  }

  /** A bullet reflected in the vertical line x = cx. */
  function Mirrored(b: Bullet, cx: int): Bullet {
    b.(x := 2 * cx - b.x)
  }

  /** A volley is symmetric about the ship's centre: each bullet's mirror image is in it too. */
  lemma VolleySymmetric(stats: ShipStats, t: SpriteType, x: int, y: int, team: Team, gameState: Option<Effects>, i: int)
    requires 0 <= i < |Volley(stats, t, x, y, team, gameState)|
    ensures Mirrored(Volley(stats, t, x, y, team, gameState)[i], x + ShipWidth / 2) in Volley(stats, t, x, y, team, gameState)
  {
    var r := Volley(stats, t, x, y, team, gameState);
    var cx := x + ShipWidth / 2;
    var j := if |r| == 1 then 0 else if |r| == 2 then 1 - i else if i == 0 then 0 else 3 - i;
    assert Mirrored(r[i], cx) == r[j];
  }

  /** The live ships' sprites. */
  predicate IsLive(t: SpriteType) {
    t == Normal || t == BigShot || t == DoubleShot || t == MoveFast
  }

  predicate IsDestroyedSprite(t: SpriteType) {
    t == ShipDestroyedNormal || t == ShipDestroyedBigShot || t == ShipDestroyedDoubleShot || t == ShipDestroyedMoveFast
  }

  /**
   * update's sprite choice: while the ship is destroyed a live sprite turns
   * into its destroyed variant, otherwise a destroyed variant turns back;
   * every other sprite stays.
   */
  function SpriteAfterUpdate(destroyed: bool, t: SpriteType): (r: SpriteType)
    ensures destroyed ==> !IsLive(r) && (IsLive(t) || r == t)
    ensures !destroyed ==> !IsDestroyedSprite(r) && (IsDestroyedSprite(t) || r == t)
  {
    if destroyed then
      match t
      case Normal => ShipDestroyedNormal
      case BigShot => ShipDestroyedBigShot
      case DoubleShot => ShipDestroyedDoubleShot
      case MoveFast => ShipDestroyedMoveFast
      case _ => t
    else
      match t
      case ShipDestroyedNormal => Normal
      case ShipDestroyedBigShot => BigShot
      case ShipDestroyedDoubleShot => DoubleShot
      case ShipDestroyedMoveFast => MoveFast
      case _ => t
  }

  /** Being destroyed and then recovering gives back the sprite the ship had, unless it was already a wreck. */
  lemma DestroyThenRecover(t: SpriteType)
    requires !IsDestroyedSprite(t)
    ensures SpriteAfterUpdate(false, SpriteAfterUpdate(true, t)) == t
  {
  }

  /** Recovering and then being destroyed gives back the wreck the ship showed, unless it was already live. */
  lemma RecoverThenDestroy(t: SpriteType)
    requires !IsLive(t)
    ensures SpriteAfterUpdate(true, SpriteAfterUpdate(false, t)) == t
  {
  }

  /** Updating twice in the same state is updating once. */
  lemma SpriteAfterUpdateIdempotent(destroyed: bool, t: SpriteType)
    ensures SpriteAfterUpdate(destroyed, SpriteAfterUpdate(destroyed, t)) == SpriteAfterUpdate(destroyed, t)
  {
  }

  class PlayerShip {
    var positionX: int
    var positionY: int
    var spriteType: SpriteType
    /** The entity's team, neutral until the game assigns one. */
    var team: Team
    /** The stats record the library holds for this ship's type (never changed by the ship). */
    const stats: ShipStats
    /** The effects of the game state the ship was built with, if any. */
    const gameState: Option<Effects>
    /** The lengths of the two cooldowns, in milliseconds. */
    const shootingCooldown: int
    const destructionCooldown: int
    /** When each cooldown was last reset, on the game clock. */
    var shootingResetAt: Option<int>
    var destructionResetAt: Option<int>
    /** The Y the ship was built at. */
    const startY: int
    var hits: int

    /**
     * A type the library does not hold falls back to Normal, for both the
     * stats and the sprite. A library without Normal would make the
     * cooldown's creation throw; the precondition excludes that.
     */
    constructor (positionX: int, positionY: int, t: SpriteType, library: map<SpriteType, ShipStats>,
                 gameState: Option<Effects>)
      requires Normal in library
      ensures t in library ==> stats == library[t] && spriteType == t
      ensures t !in library ==> stats == library[Normal] && spriteType == Normal
      ensures this.positionX == positionX && this.positionY == positionY && startY == positionY
      ensures this.gameState == gameState && team == Neutral && hits == 0
      ensures shootingCooldown == stats.shootingInterval && destructionCooldown == DestructionCooldown
      ensures shootingResetAt == None && destructionResetAt == None
    {
      this.positionX := positionX;
      this.positionY := positionY;
      team := Neutral;
      var s := if t in library then library[t] else library[Normal];
      stats := s;
      spriteType := if t in library then t else Normal;
      this.gameState := gameState;
      shootingCooldown := s.shootingInterval;
      destructionCooldown := DestructionCooldown;
      shootingResetAt := None;
      destructionResetAt := None;
      startY := positionY;
      hits := 0;
    }

    method MoveRight()
      modifies this`positionX
      ensures positionX == old(positionX) + stats.moveSpeed
    {
      positionX := positionX + stats.moveSpeed;
    }

    method MoveLeft()
      modifies this`positionX
      ensures positionX == old(positionX) - stats.moveSpeed
    {
      positionX := positionX - stats.moveSpeed;
    }

    method MoveUp()
      modifies this`positionY
      ensures positionY == old(positionY) - stats.moveSpeed
    {
      positionY := positionY - stats.moveSpeed;
    }

    method MoveDown()
      modifies this`positionY
      ensures positionY == old(positionY) + stats.moveSpeed
    {
      positionY := positionY + stats.moveSpeed;
    }

    /** A step right and a step left (or up and down) bring the ship back where it was. */
    method MoveAndBack()
      modifies this`positionX, this`positionY
      ensures positionX == old(positionX) && positionY == old(positionY)
    {
      MoveRight();
      MoveLeft();
      MoveUp();
      MoveDown();
    }

    /**
     * shoot: nothing while the shooting cooldown runs; otherwise the
     * cooldown is reset and the volley for the ship's type and the active
     * effects is added to the caller's bullets.
     */
    method Shoot(now: int, cooldownFinished: bool) returns (fired: bool, added: seq<Bullet>)
      modifies this`shootingResetAt
      ensures fired == cooldownFinished
      ensures !fired ==> added == [] && shootingResetAt == old(shootingResetAt)
      ensures fired ==>
        shootingResetAt == Some(now) && added == Volley(stats, spriteType, positionX, positionY, team, gameState)
    {
      if !cooldownFinished {
        return false, [];
      }
      shootingResetAt := Some(now);
      var bulletX := positionX + ShipWidth / 2;
      var bulletY := positionY - stats.bulletHeight;
      if gameState.Some? && gameState.value.tripleShot.Some? {
        added := TripleShot(stats, gameState, bulletX, bulletY, team, gameState.value.tripleShot.value);
        return true, added;
      }
      added := TypeShot(stats, gameState, spriteType, bulletX, bulletY, team);
      fired := true;
    }

    /** update: the sprite follows the destruction cooldown. */
    method Update(destructionFinished: bool)
      modifies this`spriteType
      ensures spriteType == SpriteAfterUpdate(!destructionFinished, old(spriteType))
    {
      if !destructionFinished {
        match spriteType
        case Normal => spriteType := ShipDestroyedNormal;
        case BigShot => spriteType := ShipDestroyedBigShot;
        case DoubleShot => spriteType := ShipDestroyedDoubleShot;
        case MoveFast => spriteType := ShipDestroyedMoveFast;
        case _ =>
      } else {
        match spriteType
        case ShipDestroyedNormal => spriteType := Normal;
        case ShipDestroyedBigShot => spriteType := BigShot;
        case ShipDestroyedDoubleShot => spriteType := DoubleShot;
        case ShipDestroyedMoveFast => spriteType := MoveFast;
        case _ =>
      }
    }

    /** destroy: the destruction cooldown starts now. */
    method Destroy(now: int)
      modifies this`destructionResetAt
      ensures destructionResetAt == Some(now)
    {
      destructionResetAt := Some(now);
    }

    /** setTeam: a missing team means neutral. */
    method SetTeam(t: Option<Team>)
      modifies this`team
      ensures team == if t.Some? then t.value else Neutral
    {
      team := if t.Some? then t.value else Neutral;
    }

    method AddHit()
      modifies this`hits
      ensures hits == old(hits) + 1
    {
      hits := hits + 1;
    }

    method ResetPosition(x: int, y: int)
      modifies this`positionX, this`positionY
      ensures positionX == x && positionY == y
    {
      positionX := x;
      positionY := y;
    }
  }
}
