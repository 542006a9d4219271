/**
 * The ship upgrade manager: per-ship upgrade levels, the coin balance, and
 * the ship library recomputed from each ship's base stats whenever its
 * levels change. Attack grows by 0.3 and move speed by 0.5 per level, the
 * shooting interval shrinks by 25 ms per level down to 200 ms, and the
 * maximum hit points grow by 1 per level.
 */
module ShipUpgrades {
  import opened Common
  import opened ShipTypes
  import opened Economy

  /** The shooting interval no fire-rate level can go below. */
  const MinShootingInterval: int := 200

  /**
   * applyUpgradesToLibrary's recomputation of one ship from its base stats
   * and levels; size, bullet speed and bullet size are copied from the base.
   */
  function Upgraded(base: ShipStats, l: Levels): (r: ShipStats)
    requires Complete(l)
    ensures r.shootingInterval >= MinShootingInterval
    ensures l[FireRate] >= MinLevel ==> r.shootingInterval <= Max(MinShootingInterval, base.shootingInterval)
    ensures r.maxHp - base.maxHp == l[MaxHp] - MinLevel
    ensures r.shipWidth == base.shipWidth && r.shipHeight == base.shipHeight && r.bulletSpeed == base.bulletSpeed
    ensures r.bulletWidth == base.bulletWidth && r.bulletHeight == base.bulletHeight
  {
    base.(maxHp := base.maxHp + (l[MaxHp] - 1),
          atk := base.atk + 0.3 * (l[Attack] - 1) as real,
          moveSpeed := base.moveSpeed + 0.5 * (l[MoveSpeed] - 1) as real,
          shootingInterval := Max(MinShootingInterval, base.shootingInterval - 25 * (l[FireRate] - 1)))
  }

  /** At level 1 everywhere a ship keeps its base stats (when its interval is not already below the floor). */
  lemma UpgradedAtLevelOne(base: ShipStats, l: Levels)
    requires Complete(l) && forall u :: u in l ==> l[u] == MinLevel
    requires base.shootingInterval >= MinShootingInterval
    ensures Upgraded(base, l) == base
  {
  }

  /** A higher fire-rate level never lengthens the shooting interval; the other levels do not touch it. */
  lemma UpgradedIntervalMonotone(base: ShipStats, l1: Levels, l2: Levels)
    requires Complete(l1) && Complete(l2)
    requires l1[FireRate] <= l2[FireRate]
    ensures Upgraded(base, l2).shootingInterval <= Upgraded(base, l1).shootingInterval
  {
  }

  /** One attack level is worth 0.3 attack: a base attack of 3 becomes 3.3, not the 4 of the older manager. */
  lemma AttackStep(base: ShipStats, l: Levels)
    requires Complete(l)
    ensures Upgraded(base, l[Attack := l[Attack] + 1]).atk == Upgraded(base, l).atk + 0.3
  {
  }

  /**
   * applyUpgradesToLibrary(type): the library entry of a ship with base
   * stats and levels is recomputed; otherwise the library is left alone.
   */
  function ApplyUpgrades(library: map<SpriteType, ShipStats>, baseStats: map<SpriteType, ShipStats>,
                         levels: map<SpriteType, Levels>, t: SpriteType): (r: map<SpriteType, ShipStats>)
    requires t in baseStats && t in levels ==> Complete(levels[t])
    ensures forall s :: s != t ==> (s in r <==> s in library) && (s in library ==> r[s] == library[s])
    ensures t in baseStats && t in levels ==> t in r && r[t] == Upgraded(baseStats[t], levels[t])
    ensures !(t in baseStats && t in levels) ==> r == library
  {
    if t !in baseStats || t !in levels then library
    else library[t := Upgraded(baseStats[t], levels[t])]
  }

  /**
   * The manager's invariant on plain values: every library ship has all
   * four levels, and its library entry is its base stats upgraded by them.
   */
  predicate Consistent(baseStats: map<SpriteType, ShipStats>, levels: map<SpriteType, Levels>,
                       library: map<SpriteType, ShipStats>)
  {
    (forall t :: t in library <==> t in baseStats) &&
    forall t :: t in baseStats ==>
      t in levels && Complete(levels[t]) && library[t] == Upgraded(baseStats[t], levels[t])
  }

  /** Replacing one ship's levels by levels with the same attributes and reapplying keeps the invariant. */
  lemma ApplyKeepsConsistent(baseStats: map<SpriteType, ShipStats>, levels: map<SpriteType, Levels>,
                             library: map<SpriteType, ShipStats>, t: SpriteType, l: Levels)
    requires Consistent(baseStats, levels, library)
    requires t in levels && (t in baseStats ==> Complete(l))
    ensures Consistent(baseStats, levels[t := l], ApplyUpgrades(library, baseStats, levels[t := l], t))
  {
  }

  /** applyUpgradesToLibrary() over every library ship, in any order. */
  method UpgradeLibrary(library: map<SpriteType, ShipStats>, baseStats: map<SpriteType, ShipStats>,
                        levels: map<SpriteType, Levels>) returns (r: map<SpriteType, ShipStats>)
    requires library.Keys == baseStats.Keys
    requires forall t :: t in baseStats ==> t in levels && Complete(levels[t])
    ensures Consistent(baseStats, levels, r)
  {
    r := library;
    var todo := library.Keys;
    ghost var done: set<SpriteType> := {};
    while todo != {}
      invariant forall s :: s in baseStats <==> s in todo || s in done
      invariant forall s :: s in todo ==> s !in done
      invariant forall s :: s in r <==> s in baseStats
      invariant forall s :: s in done ==> r[s] == Upgraded(baseStats[s], levels[s])
      decreases |todo|
    {
      var t :| t in todo;
      r := r[t := Upgraded(baseStats[t], levels[t])];
      todo := todo - {t};
      done := done + {t};
    }
  }

  /** What the save files held, when they could be read: the level table and the coin balance. */
  datatype SavedUpgrades = SavedUpgrades(levels: map<SpriteType, Levels>, coins: int)

  class ShipUpgradeManager {
    /** The library's stats as first seen: upgrades are always applied to these. */
    const baseStats: map<SpriteType, ShipStats>
    var upgradeLevels: map<SpriteType, Levels>
    var coins: int
    /** The ship library that ships are built from, as this manager keeps it. */
    var library: map<SpriteType, ShipStats>

    /** The invariant of Consistent, on this manager's fields. */
    predicate Valid()
      reads this`upgradeLevels, this`library
    {
      Consistent(baseStats, upgradeLevels, library)
    }

    /**
     * Snapshot the library as base stats, take the levels and coins from the
     * save files (each read may fail), fill in the default levels and apply
     * them to the library.
     */
    constructor (shipList: map<SpriteType, ShipStats>, saved: Option<SavedUpgrades>, savedCoins: Option<int>)
      ensures Valid()
      ensures baseStats == shipList && library.Keys == shipList.Keys
      ensures upgradeLevels == WithDefaults(if saved.Some? then saved.value.levels else map[], shipList.Keys)
      ensures coins == if savedCoins.Some? then savedCoins.value else if saved.Some? then saved.value.coins else 0
    {
      baseStats := shipList;
      library := shipList;
      upgradeLevels := if saved.Some? then saved.value.levels else map[];
      coins := if saved.Some? then saved.value.coins else 0;
      if savedCoins.Some? {
        coins := savedCoins.value;
      }
      new;
      EnsureDefaultLevels();
      ApplyAllUpgrades();
    }

    /** ensureDefaultLevels: every library ship gets all four attributes, missing ones at level 1. */
    method EnsureDefaultLevels()
      modifies this`upgradeLevels
      ensures upgradeLevels == WithDefaults(old(upgradeLevels), baseStats.Keys)
    {
      upgradeLevels := AddDefaults(upgradeLevels, baseStats.Keys);
    }

    /** applyUpgradesToLibrary(): recompute the library entry of every library ship. */
    method ApplyAllUpgrades()
      requires library.Keys == baseStats.Keys
      requires forall t :: t in baseStats ==> t in upgradeLevels && Complete(upgradeLevels[t])
      modifies this`library
      ensures Valid()
    {
      library := UpgradeLibrary(library, baseStats, upgradeLevels);
    }

    /** setCoins: the balance is set, clamped at 0. */
    method SetCoins(amount: int)
      modifies this`coins
      ensures coins == Max(0, amount)
    {
      coins := Max(0, amount);
    }

    /** addCoins: the balance moves by `delta`, clamped at 0. */
    method AddCoins(delta: int)
      modifies this`coins
      ensures coins == Max(0, old(coins) + delta)
    {
      coins := Max(0, coins + delta);
    }

    /**
     * upgradeStat: refused, changing nothing, for a ship without levels, at
     * the maximum level or when the coins do not cover getUpgradeCost;
     * otherwise the price is paid, that one level rises and the ship's
     * library entry is recomputed. An entry without the attribute makes
     * the unboxing of its level throw; the precondition excludes that.
     */
    method UpgradeStat(t: SpriteType, u: UpgradeType) returns (ok: bool)
      requires Valid()
      requires t in upgradeLevels ==> u in upgradeLevels[t]
      modifies this`coins, this`upgradeLevels, this`library
      ensures Valid()
      ensures ok <==> t in old(upgradeLevels) && Upgrade(Current, Purse(old(upgradeLevels)[t], old(coins)), u).Some?
      ensures ok ==>
        var p := Upgrade(Current, Purse(old(upgradeLevels)[t], old(coins)), u).value;
        upgradeLevels == old(upgradeLevels)[t := p.levels] && coins == p.coins &&
        library == ApplyUpgrades(old(library), baseStats, upgradeLevels, t)
      ensures !ok ==> upgradeLevels == old(upgradeLevels) && coins == old(coins) && library == old(library)
    {
      if t !in upgradeLevels {
        return false;
      }
      var levels := upgradeLevels[t];
      var currentLevel := levels[u];
      if currentLevel >= MaxLevel {
        return false;
      }
      var cost := UpgradeCost(Current, LevelOf(upgradeLevels, t, u));
      if coins < cost {
        return false;
      }
      UpgradeSucceeds(Current, Purse(levels, coins), u);
      levels := levels[u := currentLevel + 1];
      ApplyKeepsConsistent(baseStats, upgradeLevels, library, t, levels);
      var newLevels := upgradeLevels[t := levels];
      coins := coins - cost;
      upgradeLevels := newLevels;
      library := ApplyUpgrades(library, baseStats, newLevels, t);
      assert Consistent(baseStats, upgradeLevels, library);
      ok := true;
    }

    /**
     * resetShip: every stored level of the ship back to 1, the refund
     * credited and returned, the library entry recomputed; 0 and no change
     * for a ship without levels.
     */
    method ResetShip(t: SpriteType) returns (refund: int)
      requires Valid()
      modifies this`coins, this`upgradeLevels, this`library
      ensures Valid()
      ensures t !in old(upgradeLevels) ==>
        refund == 0 && upgradeLevels == old(upgradeLevels) && coins == old(coins) && library == old(library)
      ensures t in old(upgradeLevels) ==>
        var p := Reset(Current, Purse(old(upgradeLevels)[t], old(coins)));
        refund == Refund(Current, old(upgradeLevels)[t]) &&
        upgradeLevels == old(upgradeLevels)[t := p.levels] && coins == p.coins &&
        library == ApplyUpgrades(old(library), baseStats, upgradeLevels, t)
    {
      if t !in upgradeLevels {
        return 0;
      }
      var levels;
      levels, refund := ResetEntries(Current, upgradeLevels[t]);
      ApplyKeepsConsistent(baseStats, upgradeLevels, library, t, levels);
      var newLevels := upgradeLevels[t := levels];
      coins := coins + refund;
      upgradeLevels := newLevels;
      library := ApplyUpgrades(library, baseStats, newLevels, t);
    }

    /** getRefundAmount: what resetShip would refund now, 0 for a ship without levels. */
    method GetRefundAmount(t: SpriteType) returns (refund: int)
      ensures refund == if t in upgradeLevels then Refund(Current, upgradeLevels[t]) else 0
      ensures refund >= 0
    {
      if t !in upgradeLevels {
        return 0;
      }
      refund := RefundAmount(Current, upgradeLevels[t]);
    }
  }
}
