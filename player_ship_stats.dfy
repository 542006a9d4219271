/**
 * The player ship's mutable stats record: fixed ship and bullet size and
 * maximum hit points, current hit points, attack, speeds, the shooting
 * interval and an experience counter. Every update is a plain set or a plain
 * addition; the float fields are exact reals.
 */
module PlayerStats {

  class PlayerShipStats {
    const shipWidth: int
    const shipHeight: int
    const maxHp: int
    const bulletWidth: int
    const bulletHeight: int
    var curHp: int
    var atk: real
    var exp: int
    var moveSpeed: real
    var bulletSpeed: real
    var shootingInterval: int

    /** A new ship starts at full hit points and no experience. */
    constructor (shipWidth: int, shipHeight: int, hp: int, atk: real, moveSpeed: real, bulletSpeed: real,
                 shootingInterval: int, bulletWidth: int, bulletHeight: int)
      ensures this.shipWidth == shipWidth && this.shipHeight == shipHeight
      ensures maxHp == hp && curHp == hp && exp == 0
      ensures this.atk == atk && this.moveSpeed == moveSpeed && this.bulletSpeed == bulletSpeed
      ensures this.shootingInterval == shootingInterval
      ensures this.bulletWidth == bulletWidth && this.bulletHeight == bulletHeight
    {
      this.shipWidth := shipWidth;
      this.shipHeight := shipHeight;
      maxHp := hp;
      curHp := hp;
      this.atk := atk;
      this.moveSpeed := moveSpeed;
      this.bulletSpeed := bulletSpeed;
      this.shootingInterval := shootingInterval;
      this.bulletWidth := bulletWidth;
      this.bulletHeight := bulletHeight;
      exp := 0;
    }

    /** Only the current hit points change; the maximum stays as built. */
    method SetCurHp(hp: int)
      modifies this`curHp
      ensures curHp == hp
    {
      curHp := hp;
    }

    method SetAtk(atk: real)
      modifies this`atk
      ensures this.atk == atk
    {
      this.atk := atk;
    }

    method AddSpeed(delta: real)
      modifies this`moveSpeed
      ensures moveSpeed == old(moveSpeed) + delta
    {
      moveSpeed := moveSpeed + delta;
    }

    method AddBulletSpeed(delta: real)
      modifies this`bulletSpeed
      ensures bulletSpeed == old(bulletSpeed) + delta
    {
      bulletSpeed := bulletSpeed + delta;
    }

    method AddShootingInterval(delta: int)
      modifies this`shootingInterval
      ensures shootingInterval == old(shootingInterval) + delta
    {
      shootingInterval := shootingInterval + delta;
    }

    method AddExp(delta: int)
      modifies this`exp
      ensures exp == old(exp) + delta
    {
      exp := exp + delta;
    }

    /** Spending a level's worth of experience: exactly 100 is taken off, whatever the balance. */
    method ResetExp()
      modifies this`exp
      ensures exp == old(exp) - ExpPerLevel
    {
      exp := exp - ExpPerLevel;
    }
  }

  /** What resetExp takes off the experience counter. */
  const ExpPerLevel: int := 100

  /** resetExp undoes a gain of exactly one level's worth of experience. */
  method GainLevelThenSpend(stats: PlayerShipStats)
    modifies stats`exp
    ensures stats.exp == old(stats.exp)
  {
    stats.AddExp(ExpPerLevel);
    stats.ResetExp();
  }

  /** The stats record's exp scenario: 30, then 80 more, then a level spent leaves 10. */
  method ExpScenario() returns (after30: int, after110: int, afterReset: int)
    ensures after30 == 30 && after110 == 110 && afterReset == 10
  {
    var stats := new PlayerShipStats(10, 20, 50, 5.0, 3.0, 7.0, 200, 2, 3);
    stats.AddExp(30);
    after30 := stats.exp;
    stats.AddExp(80);
    after110 := stats.exp;
    stats.ResetExp();
    afterReset := stats.exp;
  }

  /** Every setter and adder touches one field: hit points 40, attack 12, speeds 5 and 10, interval 150, maximum still 50. */
  method SettersScenario() returns (curHp: int, maxHp: int, atk: real, moveSpeed: real, bulletSpeed: real, interval: int)
    ensures curHp == 40 && maxHp == 50 && atk == 12.0 && moveSpeed == 5.0 && bulletSpeed == 10.0 && interval == 150
  {
    var stats := new PlayerShipStats(10, 20, 50, 5.0, 3.0, 7.0, 200, 2, 3);
    stats.SetCurHp(40);
    stats.SetAtk(12.0);
    stats.AddSpeed(2.0);
    stats.AddBulletSpeed(3.0);
    stats.AddShootingInterval(-50);
    curHp, maxHp, atk := stats.curHp, stats.maxHp, stats.atk;
    moveSpeed, bulletSpeed, interval := stats.moveSpeed, stats.bulletSpeed, stats.shootingInterval;
  }
}
