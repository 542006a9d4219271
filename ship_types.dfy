/**
 * The player-ship vocabulary shared by the upgrade economy and the player
 * ship: sprite types (the four ship types, their destroyed variants, and
 * every other sprite lumped together), the four upgradable attributes, and
 * the per-ship map from attribute to level.
 */
module ShipTypes {

  datatype SpriteType =
    | Normal | BigShot | DoubleShot | MoveFast
    | ShipDestroyedNormal | ShipDestroyedBigShot | ShipDestroyedDoubleShot | ShipDestroyedMoveFast
    | OtherSprite

  /**
   * The values a PlayerShipStats is built from: ship and bullet size, hit
   * points, attack, speeds and the shooting interval in milliseconds. The
   * float fields are exact reals here.
   */
  datatype ShipStats = ShipStats(
    shipWidth: int, shipHeight: int, maxHp: int,
    atk: real, moveSpeed: real, bulletSpeed: real,
    shootingInterval: int, bulletWidth: int, bulletHeight: int)

  /** The stock ship library, one entry per playable ship type. */
  const ShipLibrary: map<SpriteType, ShipStats> := map[
    Normal := ShipStats(26, 16, 5, 1.0, 2.0, -6.0, 750, 6, 10),
    BigShot := ShipStats(26, 16, 3, 1.0, 1.0, -6.0, 750, 9, 15),
    DoubleShot := ShipStats(26, 16, 5, 1.0, 1.0, -6.0, 750, 6, 10),
    MoveFast := ShipStats(26, 16, 3, 1.0, 3.0, -6.0, 900, 6, 10)]

  /** ShipUpgradeType, in declaration (ordinal) order. */
  datatype UpgradeType = Attack | MoveSpeed | FireRate | MaxHp

  /** ShipUpgradeType.values(): the order an EnumMap visits its entries in. */
  const UpgradeTypes: seq<UpgradeType> := [Attack, MoveSpeed, FireRate, MaxHp]

  const AllUpgrades: set<UpgradeType> := {Attack, MoveSpeed, FireRate, MaxHp}

  /** The set lists every attribute. */
  lemma AllUpgradesComplete(u: UpgradeType)
    ensures u in AllUpgrades
  {
    match u
    case Attack =>
    case MoveSpeed =>
    case FireRate =>
    case MaxHp =>
  }

  const MinLevel: int := 1
  const MaxLevel: int := 10

  /** One ship's upgrade levels (an EnumMap from attribute to level). */
  type Levels = map<UpgradeType, int>

  /** Every attribute has a level (so the keys are exactly AllUpgrades). */
  predicate Complete(l: Levels) {
    Attack in l && MoveSpeed in l && FireRate in l && MaxHp in l
  }

  /** Every attribute at the starting level. */
  const AllOnes: Levels := map u | u in AllUpgrades :: MinLevel

  /** Every attribute's level lies in 1..10 (or the ship has no entry at all). */
  predicate LevelsInRange(l: Levels) {
    forall u :: u in l ==> MinLevel <= l[u] <= MaxLevel
  }

  /** getLevel: the stored level, or 1 when the ship or the attribute has no entry. */
  function LevelOf(levels: map<SpriteType, Levels>, t: SpriteType, u: UpgradeType): int {
    if t in levels && u in levels[t] then levels[t][u] else MinLevel
  }

  /** putIfAbsent of every attribute at level 1: the missing ones are added, the others kept. */
  function FillLevels(l: Levels): (r: Levels)
    ensures r.Keys == AllUpgrades
    ensures forall u :: u in l ==> u in r && r[u] == l[u]
    ensures forall u :: u in AllUpgrades && u !in l ==> r[u] == MinLevel
  {
    forall u | u in l ensures u in AllUpgrades { AllUpgradesComplete(u); }
    map u | u in AllUpgrades :: if u in l then l[u] else MinLevel
  }

  /** computeIfAbsent's view of a ship's entry: the stored levels, or a fresh empty map. */
  function Entry(levels: map<SpriteType, Levels>, t: SpriteType): Levels {
    if t in levels then levels[t] else map[]
  }

  /**
   * ensureDefaultLevels over the library's types: each gets an entry (empty
   * if it had none) and every missing attribute at level 1; other entries
   * are kept as they were.
   */
  function WithDefaults(levels: map<SpriteType, Levels>, types: set<SpriteType>): (r: map<SpriteType, Levels>)
    ensures r.Keys == levels.Keys + types
    ensures forall t :: t in types ==> r[t] == FillLevels(Entry(levels, t))
    ensures forall t, u :: t in levels && u in levels[t] ==> u in r[t] && r[t][u] == levels[t][u]
    ensures forall t :: t in levels && t !in types ==> r[t] == levels[t]
  {
    map t | t in levels.Keys + types :: if t in types then FillLevels(Entry(levels, t)) else levels[t]
  }

  /**
   * Defaults are invisible to getLevel: a stored level is kept, and an
   * added one is the 1 that getLevel answered for the missing entry.
   */
  lemma WithDefaultsKeepsLevels(levels: map<SpriteType, Levels>, types: set<SpriteType>, t: SpriteType, u: UpgradeType)
    ensures LevelOf(WithDefaults(levels, types), t, u) == LevelOf(levels, t, u)
  {
    AllUpgradesComplete(u);
  }

  /** The inner loop of ensureDefaultLevels: putIfAbsent of level 1 for each attribute in enum order. */
  method PutDefaults(l: Levels) returns (r: Levels)
    ensures r == FillLevels(l)
  {
    r := l;
    for i := 0 to |UpgradeTypes|
      invariant forall j :: 0 <= j < i ==> UpgradeTypes[j] in r
      invariant forall u :: u in l ==> u in r
      invariant forall u :: u in r ==> r[u] == if u in l then l[u] else MinLevel
    {
      var u := UpgradeTypes[i];
      if u !in r {
        r := r[u := MinLevel];
      }
    }
    forall u ensures u in r <==> u in AllUpgrades {
      AllUpgradesComplete(u);
      assert u == UpgradeTypes[0] || u == UpgradeTypes[1] || u == UpgradeTypes[2] || u == UpgradeTypes[3];
    }
  }

  /** The outer loop of ensureDefaultLevels: every type of the library, in any order, gets its defaults. */
  method AddDefaults(levels: map<SpriteType, Levels>, types: set<SpriteType>) returns (r: map<SpriteType, Levels>)
    ensures r == WithDefaults(levels, types)
  {
    r := levels;
    var todo := types;
    ghost var done: set<SpriteType> := {};
    while todo != {}
      invariant forall s :: s in types <==> s in todo || s in done
      invariant forall s :: s in todo ==> s !in done
      invariant forall s :: s in r <==> s in levels || s in done
      invariant forall s :: s in done ==> r[s] == FillLevels(Entry(levels, s))
      invariant forall s :: s in levels && s !in done ==> r[s] == levels[s]
      decreases |todo|
    {
      var t :| t in todo;
      var l := PutDefaults(Entry(r, t));
      r := r[t := l];
      todo := todo - {t};
      done := done + {t};
    }
    assert forall s :: s in done <==> s in types;
    DefaultsFilled(levels, types, r);
  }

  /** A map with exactly the entries ensureDefaultLevels leaves behind is WithDefaults. */
  lemma DefaultsFilled(levels: map<SpriteType, Levels>, types: set<SpriteType>, r: map<SpriteType, Levels>)
    requires forall s :: s in r <==> s in levels || s in types
    requires forall s :: s in types ==> r[s] == FillLevels(Entry(levels, s))
    requires forall s :: s in levels && s !in types ==> r[s] == levels[s]
    ensures r == WithDefaults(levels, types)
  {
    var w := WithDefaults(levels, types);
    assert forall s :: s in r <==> s in w;
    forall s | s in r ensures r[s] == w[s] {
      if s in types {
        assert w[s] == FillLevels(Entry(levels, s));
      } else {
        assert s in levels && w[s] == levels[s];
      }
    }
  }

  /** Filling twice is filling once. */
  lemma WithDefaultsIdempotent(levels: map<SpriteType, Levels>, types: set<SpriteType>)
    ensures WithDefaults(WithDefaults(levels, types), types) == WithDefaults(levels, types)
  {
    var once := WithDefaults(levels, types);
    var twice := WithDefaults(once, types);
    forall t | t in twice ensures twice[t] == once[t] {
      if t in types {
        assert twice[t].Keys == once[t].Keys;
      }
    }
  }

  /** resetShip's entry update: every stored attribute back to level 1. */
  function ResetLevels(l: Levels): (r: Levels)
    ensures r.Keys == l.Keys && LevelsInRange(r)
    ensures forall u :: u in r ==> r[u] == MinLevel
  {
    map u | u in l :: MinLevel
  }
}
