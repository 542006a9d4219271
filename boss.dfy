/**
 * The boss: a single enemy whose behaviour on each frame depends only on its
 * current hit points. Above 60 it patrols left and right and fires one
 * straight bullet; above 30 it follows a figure-eight and fires a five-way
 * fan; below that it adds a column of five straight bullets to the fan.
 */
module BossEnemy {
  import opened Common

  const BossWidth: int := 12 * 6
  const BossHeight: int := 8 * 6
  const InitialHp: int := 100

  /** The patrol band of phase 1 and its step. */
  const PatrolMin: int := 20
  const PatrolMax: int := 350
  const PatrolSpeed: int := 2

  /** Centre of the figure-eight of phases 2 and 3, and the per-frame advance of its parameter. */
  const FigureCentreX: int := 240
  const FigureCentreY: int := 80
  const MovePhaseStep: real := 0.03

  /** Vertical distance between the bullets of phase 3's straight column. */
  const VerticalSpacing: int := 15

  datatype Phase = Phase1 | Phase2 | Phase3

  datatype BossSprite = EnemyShipSpecial | Explosion

  /** The phase `update` runs: chosen afresh from the hit points on every frame. */
  function PhaseOf(hp: int): (p: Phase)
    ensures p == Phase1 <==> hp > 60
    ensures p == Phase2 <==> 30 < hp <= 60
    ensures p == Phase3 <==> hp <= 30
  {
    if hp > 60 then Phase1 else if hp > 30 then Phase2 else Phase3
  }

  function Rank(p: Phase): nat {
    match p
    case Phase1 => 1
    case Phase2 => 2
    case Phase3 => 3
  }

  /** Damage never sends the boss back to an earlier phase. */
  lemma PhaseNeverReturns(hp: int, damage: int)
    requires damage >= 0
    ensures Rank(PhaseOf(hp)) <= Rank(PhaseOf(hp - damage))
  {
  }

  /**
   * One phase-1 move: add the speed, and when that leaves the band put the
   * boss on the band's edge and reverse the speed. The new x is always inside
   * the band and the speed keeps its magnitude.
   */
  function Patrol(x: int, speed: int): (r: (int, int))
    ensures PatrolMin <= r.0 <= PatrolMax
    ensures r.1 == speed || r.1 == -speed
    ensures r.1 == speed <==> PatrolMin <= x + speed <= PatrolMax || speed == 0
  {
    var nx := x + speed;
    if nx < PatrolMin then (PatrolMin, -speed)
    else if nx > PatrolMax then (PatrolMax, -speed)
    else (nx, speed)
  }

  /** A bounce from inside the band always sends the boss back inwards. */
  lemma PatrolTurnsInward(x: int, speed: int)
    requires PatrolMin <= x <= PatrolMax
    ensures var r := Patrol(x, speed);
            r.1 != speed ==> (r.0 == PatrolMin && r.1 > 0) || (r.0 == PatrolMax && r.1 < 0)
  {
  }

  /** A patrol that does not bounce moves the boss by exactly its speed. */
  lemma PatrolSteady(x: int, speed: int)
    requires Patrol(x, speed).1 == speed && speed != 0
    ensures Patrol(x, speed).0 == x + speed
  {
  }

  /** shootStraight's bullet: straight down at 6, 4 x 10. */
  function StraightBullet(cx: int, cy: int): Bullet {
    Bullet(cx, cy, 0, 6, 4, 10, Enemy)
  }

  /** The horizontal speeds of the five-way fan, left to right. */
  const FanSpeeds: seq<int> := [-3, -1, 0, 1, 3]

  /** The five-way fan: from one point, down at 5, 4 x 8, one bullet per fan speed. */
  function Fan(cx: int, cy: int): (r: seq<Bullet>)
    ensures |r| == 5
    ensures forall i :: 0 <= i < 5 ==> r[i] == Bullet(cx, cy, FanSpeeds[i], 5, 4, 8, Enemy)
  {
    seq(5, (i: int) requires 0 <= i < 5 => Bullet(cx, cy, FanSpeeds[i], 5, 4, 8, Enemy))
  }

  /** The fan is symmetric: each bullet has a mirror image with the opposite horizontal speed. */
  lemma FanSymmetric(cx: int, cy: int)
    ensures forall i :: 0 <= i < 5 ==> Fan(cx, cy)[i].speedX == -Fan(cx, cy)[4 - i].speedX
  {
  }

  /** Phase 3's column: five straight bullets 15 apart, the first at the fan's origin. */
  function StraightColumn(cx: int, cy: int): (r: seq<Bullet>)
    ensures |r| == 5
    ensures forall i :: 0 <= i < 5 ==> r[i] == StraightBullet(cx, cy + i * VerticalSpacing)
  {
    seq(5, (i: int) requires 0 <= i < 5 => StraightBullet(cx, cy + i * VerticalSpacing))
  }

  /** Phase 3's volley: the fan, then the column. */
  function Volley(cx: int, cy: int): seq<Bullet> {
    Fan(cx, cy) + StraightColumn(cx, cy)
  }

  /**
   * A volley is ten enemy bullets fired downwards from the same x; exactly
   * the fan's middle bullet and the column's five go straight down.
   */
  lemma VolleyShape(cx: int, cy: int)
    ensures |Volley(cx, cy)| == 10
    ensures forall i :: 0 <= i < 10 ==>
              var b := Volley(cx, cy)[i];
              b.team == Enemy && b.x == cx && b.speedY > 0 && b.y >= cy && (b.speedX == 0 <==> i == 2 || i >= 5)
  {
    var v := Volley(cx, cy);
    forall i | 5 <= i < 10 ensures v[i] == StraightColumn(cx, cy)[i - 5] {
    }
  }

  /** The fan as the source's loop over its speed array adds it. */
  method FireFan(cx: int, cy: int) returns (bullets: seq<Bullet>)
    ensures bullets == Fan(cx, cy)
  {
    bullets := [];
    var k := 0;
    while k < |FanSpeeds|
      invariant 0 <= k <= 5
      invariant bullets == Fan(cx, cy)[..k]
    {
      bullets := bullets + [Bullet(cx, cy, FanSpeeds[k], 5, 4, 8, Enemy)];
      k := k + 1;
    }
  }

  /** Phase 3's second loop: the column of straight bullets. */
  method FireColumn(cx: int, cy: int) returns (bullets: seq<Bullet>)
    ensures bullets == StraightColumn(cx, cy)
  {
    bullets := [];
    var i := 0;
    while i < 5
      invariant 0 <= i <= 5
      invariant bullets == StraightColumn(cx, cy)[..i]
    {
      bullets := bullets + [StraightBullet(cx, cy + i * VerticalSpacing)];
      i := i + 1;
    }
  }

  class Boss {
    var positionX: int
    var positionY: int
    /** Hit points and damage taken, from the boss's EnemyShipStats. */
    var hp: int
    var totalDamage: int
    var destroyed: bool
    var sprite: BossSprite
    var phase1Speed: int
    /** The figure-eight's parameter. */
    var movePhase: real
    /** When the shooting cooldown was last reset; None while it has never been. */
    var shotAt: Option<int>

    /**
     * What every operation keeps: hit points and damage taken add up to the
     * starting hit points, a boss at or below 0 is destroyed, the explosion
     * sprite shows exactly when it is, and the patrol speed is 2 either way.
     */
    predicate Valid()
      reads this`hp, this`totalDamage, this`destroyed, this`sprite, this`phase1Speed
    {
      hp + totalDamage == InitialHp && (hp <= 0 ==> destroyed) &&
      (destroyed <==> sprite == Explosion) &&
      (phase1Speed == PatrolSpeed || phase1Speed == -PatrolSpeed)
    }

    /** Where the boss fires from: the centre of its bottom edge. */
    function Muzzle(): (int, int)
      reads this`positionX, this`positionY
    {
      (positionX + BossWidth / 2, positionY + BossHeight)
    }

    constructor (positionX: int, positionY: int)
      ensures Valid()
      ensures this.positionX == positionX && this.positionY == positionY
      ensures hp == InitialHp && totalDamage == 0 && !destroyed && sprite == EnemyShipSpecial
      ensures phase1Speed == PatrolSpeed && movePhase == 0.0 && shotAt == None
    {
      this.positionX, this.positionY := positionX, positionY;
      hp, totalDamage, destroyed, sprite := InitialHp, 0, false, EnemyShipSpecial;
      phase1Speed, movePhase, shotAt := PatrolSpeed, 0.0, None;
    }

    /**
     * update: the phase of the current hit points. Phase 1 patrols and fires
     * one straight bullet; phases 2 and 3 follow the figure-eight (the
     * truncated sine offsets of the new parameter are `offsetX` and
     * `offsetY`) and fire the fan, or the whole volley. Nothing is fired,
     * and the cooldown is not reset, unless it has finished.
     */
    method Update(now: int, cooldownFinished: bool, offsetX: int, offsetY: int) returns (bullets: seq<Bullet>)
      requires Valid()
      modifies this`positionX, this`positionY, this`phase1Speed, this`movePhase, this`shotAt
      ensures Valid()
      ensures shotAt == if cooldownFinished then Some(now) else old(shotAt)
      ensures PhaseOf(hp) == Phase1 ==>
                (positionX, phase1Speed) == Patrol(old(positionX), old(phase1Speed)) &&
                positionY == old(positionY) && movePhase == old(movePhase)
      ensures PhaseOf(hp) != Phase1 ==>
                movePhase == old(movePhase) + MovePhaseStep && phase1Speed == old(phase1Speed) &&
                positionX == FigureCentreX + offsetX - BossWidth / 2 && positionY == FigureCentreY + offsetY
      ensures !cooldownFinished ==> bullets == []
      ensures cooldownFinished ==>
                var (cx, cy) := Muzzle();
                bullets == match PhaseOf(hp)
                           case Phase1 => [StraightBullet(cx, cy)]
                           case Phase2 => Fan(cx, cy)
                           case Phase3 => Volley(cx, cy)
    {
      if hp > 60 {
        PatternPhase1();
        bullets := ShootStraight(now, cooldownFinished);
      } else if hp > 30 {
        MovePattern(offsetX, offsetY);
        bullets := ShootSpread(now, cooldownFinished);
      } else {
        MovePattern(offsetX, offsetY);
        bullets := ShootVolley(now, cooldownFinished);
      }
    }

    /** Phase 1's move: the patrol step, clamped to the band. */
    method PatternPhase1()
      requires phase1Speed == PatrolSpeed || phase1Speed == -PatrolSpeed
      modifies this`positionX, this`phase1Speed
      ensures (positionX, phase1Speed) == Patrol(old(positionX), old(phase1Speed))
      ensures phase1Speed == PatrolSpeed || phase1Speed == -PatrolSpeed
    {
      positionX := positionX + phase1Speed;
      if positionX < PatrolMin {
        positionX := PatrolMin;
        phase1Speed := -phase1Speed;
      } else if positionX > PatrolMax {
        positionX := PatrolMax;
        phase1Speed := -phase1Speed;
      }
    }

    /** movePattern: advance the parameter and stand on the figure-eight at the given offsets. */
    method MovePattern(offsetX: int, offsetY: int)
      modifies this`positionX, this`positionY, this`movePhase
      ensures movePhase == old(movePhase) + MovePhaseStep
      ensures positionX == FigureCentreX + offsetX - BossWidth / 2 && positionY == FigureCentreY + offsetY
    {
      movePhase := movePhase + MovePhaseStep;
      positionX := FigureCentreX + offsetX - BossWidth / 2;
      positionY := FigureCentreY + offsetY;
    }

    /** shootStraight: once the cooldown has finished, reset it and fire one bullet from the muzzle. */
    method ShootStraight(now: int, cooldownFinished: bool) returns (bullets: seq<Bullet>)
      modifies this`shotAt
      ensures shotAt == if cooldownFinished then Some(now) else old(shotAt)
      ensures bullets == if cooldownFinished then [StraightBullet(Muzzle().0, Muzzle().1)] else []
    {
      if !cooldownFinished {
        return [];
      }
      shotAt := Some(now);
      var (cx, cy) := Muzzle();
      bullets := [StraightBullet(cx, cy)];
    }

    /** shootSpread: once the cooldown has finished, reset it and fire the fan. */
    method ShootSpread(now: int, cooldownFinished: bool) returns (bullets: seq<Bullet>)
      modifies this`shotAt
      ensures shotAt == if cooldownFinished then Some(now) else old(shotAt)
      ensures bullets == if cooldownFinished then Fan(Muzzle().0, Muzzle().1) else []
    {
      if !cooldownFinished {
        return [];
      }
      shotAt := Some(now);
      var (cx, cy) := Muzzle();
      bullets := FireFan(cx, cy);
    }

    /** Phase 3's shot: once the cooldown has finished, reset it and fire the fan and the column. */
    method ShootVolley(now: int, cooldownFinished: bool) returns (bullets: seq<Bullet>)
      modifies this`shotAt
      ensures shotAt == if cooldownFinished then Some(now) else old(shotAt)
      ensures bullets == if cooldownFinished then Volley(Muzzle().0, Muzzle().1) else []
    {
      if !cooldownFinished {
        return [];
      }
      shotAt := Some(now);
      var (cx, cy) := Muzzle();
      var fan := FireFan(cx, cy);
      var column := FireColumn(cx, cy);
      bullets := fan + column;
    }

    /** hit: lose `damage` hit points and count it as damage taken; at 0 or below, be destroyed. */
    method Hit(damage: int)
      requires Valid()
      modifies this`hp, this`totalDamage, this`destroyed, this`sprite
      ensures Valid()
      ensures hp == old(hp) - damage && totalDamage == old(totalDamage) + damage
      ensures destroyed <==> old(destroyed) || hp <= 0
    {
      hp := hp - damage;
      totalDamage := totalDamage + damage;
      if hp <= 0 {
        Destroy();
      }
    }

    /** destroy: the flag is set and the explosion shows; nothing ever clears them. */
    method Destroy()
      modifies this`destroyed, this`sprite
      ensures destroyed && sprite == Explosion
    {
      destroyed := true;
      sprite := Explosion;
    }
  }
}
