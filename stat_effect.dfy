/**
 * A stat augment: one of four stats and an integer delta, applied to the
 * player's stats record in place. Attack and move speed grow by the delta,
 * bullet speed shrinks by it, and the shooting interval shrinks by it but
 * never ends below 50 ms.
 */
module StatEffects {
  import opened Common
  import opened PlayerStats

  datatype StatType = AttackStat | SpeedStat | BulletSpeedStat | IntervalStat

  datatype StatEffect = StatEffect(kind: StatType, delta: int)

  /** The shortest shooting interval an interval augment leaves. */
  const MinInterval: int := 50

  /**
   * The INTERVAL branch: the amount added is -(interval - 50) when the
   * predicted interval would be 50 or less, and -delta otherwise; the result
   * is the predicted interval floored at 50.
   */
  function IntervalAfter(interval: int, delta: int): (r: int)
    ensures r == Max(MinInterval, interval - delta)
  {
    var predicted := interval - delta;
    var amount := if predicted <= MinInterval then -(interval - MinInterval) else -delta;
    interval + amount
  }

  /** A positive delta shortens any interval above the floor (and never lengthens one at it or above it). */
  lemma IntervalShrinks(interval: int, delta: int)
    requires delta > 0
    ensures interval > MinInterval ==> IntervalAfter(interval, delta) < interval
    ensures interval >= MinInterval ==> MinInterval <= IntervalAfter(interval, delta) <= interval
  {
  }

  /** Two positive interval augments in a row are one augment of their sum. */
  lemma IntervalAfterComposes(interval: int, d1: int, d2: int)
    requires d2 >= 0
    ensures IntervalAfter(IntervalAfter(interval, d1), d2) == IntervalAfter(interval, d1 + d2)
  {
  }

  /** apply: only the stat the effect names changes. */
  method Apply(e: StatEffect, stats: PlayerShipStats)
    modifies stats
    ensures stats.atk == if e.kind == AttackStat then old(stats.atk) + e.delta as real else old(stats.atk)
    ensures stats.moveSpeed == if e.kind == SpeedStat then old(stats.moveSpeed) + e.delta as real else old(stats.moveSpeed)
    ensures stats.bulletSpeed ==
      if e.kind == BulletSpeedStat then old(stats.bulletSpeed) - e.delta as real else old(stats.bulletSpeed)
    ensures stats.shootingInterval ==
      if e.kind == IntervalStat then IntervalAfter(old(stats.shootingInterval), e.delta) else old(stats.shootingInterval)
    ensures stats.curHp == old(stats.curHp) && stats.exp == old(stats.exp)
  {
    match e.kind
    case AttackStat =>
      stats.SetAtk(stats.atk + e.delta as real);
    case SpeedStat =>
      stats.AddSpeed(e.delta as real);
    case BulletSpeedStat =>
      stats.AddBulletSpeed(-e.delta as real);
    case IntervalStat =>
      var predicted := stats.shootingInterval - e.delta;
      var amount := if predicted <= MinInterval then -(stats.shootingInterval - MinInterval) else -e.delta;
      stats.AddShootingInterval(amount);
  }

  /** An interval of 0 hit by a 9999 augment ends at 50, not below. */
  method FloorScenario() returns (interval: int)
    ensures interval == MinInterval
  {
    var stats := new PlayerShipStats(26, 16, 5, 1.0, 2.0, -6.0, 750, 6, 10);
    stats.AddShootingInterval(-stats.shootingInterval);
    Apply(StatEffect(IntervalStat, 9999), stats);
    interval := stats.shootingInterval;
  }
}
