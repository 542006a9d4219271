/**
 * The coin economy behind ship upgrades, shared by both versions of the
 * upgrade manager: what a level costs, what climbing to a level cost in
 * total, what a reset refunds, and the effect of `upgradeStat` and
 * `resetShip` on one ship's levels and the coin balance. The two versions
 * differ only in their price list (the tariff).
 */
module Economy {
  import opened Common
  import opened ShipTypes

  /** The price list: 100 coins times the level now, 50 plus 25 per level above 1 in the older version. */
  datatype Tariff = Current | Legacy

  /** getUpgradeCost for the current level: nothing at or above the maximum level. */
  function UpgradeCost(tariff: Tariff, level: int): (r: int)
    ensures level >= MaxLevel ==> r == 0
    ensures MinLevel <= level < MaxLevel ==> 50 <= r <= 900
  {
    if level >= MaxLevel then 0
    else match tariff
      case Current => 100 * level
      case Legacy => 50 + (level - 1) * 25
  }

  /** Each level costs more than the one before it. */
  lemma UpgradeCostRises(tariff: Tariff, level: int)
    requires MinLevel <= level < MaxLevel - 1
    ensures UpgradeCost(tariff, level) < UpgradeCost(tariff, level + 1)
  {
  }

  /** The price of the step from `level` to `level + 1`, for every level below the maximum (the loop body of totalCostForLevel). */
  function StepCost(tariff: Tariff, level: int): int {
    match tariff
    case Current => level * 100
    case Legacy => 50 + (level - 1) * 25
  }

  /** totalCostForLevel: the step prices from level 1 up to, not including, `level`. */
  function TotalCost(tariff: Tariff, level: int): (r: int)
    ensures r >= 0
    ensures level <= MinLevel ==> r == 0
    decreases level
  {
    if level <= MinLevel then 0 else TotalCost(tariff, level - 1) + StepCost(tariff, level - 1)
  }

  /** What the upgrades from `from` up to `to` cost, paid one getUpgradeCost at a time. */
  function CostsPaid(tariff: Tariff, from: int, to: int): int
    decreases to - from
  {
    if to <= from then 0 else CostsPaid(tariff, from, to - 1) + UpgradeCost(tariff, to - 1)
  }

  /** totalCostForLevel(L) is exactly what the upgrades from level 1 to L cost. */
  lemma {:induction false} TotalCostIsCostsPaid(tariff: Tariff, level: int)
    requires MinLevel <= level <= MaxLevel
    ensures TotalCost(tariff, level) == CostsPaid(tariff, MinLevel, level)
  {
    if level > MinLevel {
      TotalCostIsCostsPaid(tariff, level - 1);
    }
  }

  /** One upgrade adds its price to the total. */
  lemma ClimbCost(tariff: Tariff, level: int)
    requires MinLevel <= level < MaxLevel
    ensures TotalCost(tariff, level + 1) == TotalCost(tariff, level) + UpgradeCost(tariff, level)
  {
  }

  /** Closed form of the current price list: 50·L·(L−1). */
  lemma {:induction false} TotalCostClosedForm(level: int)
    requires level >= MinLevel
    ensures TotalCost(Current, level) == 50 * level * (level - 1)
  {
    if level > MinLevel {
      TotalCostClosedForm(level - 1);
      var k := level - 1;
      assert TotalCost(Current, level) == 50 * k * (k - 1) + 100 * k;
      assert k * (k - 1) + 2 * k == level * k;
    }
  }

  /** Closed form of the older price list: 25·(L−1)·(L+2)/2. */
  lemma {:induction false} LegacyTotalCostClosedForm(level: int)
    requires level >= MinLevel
    ensures 2 * TotalCost(Legacy, level) == 25 * (level - 1) * (level + 2)
  {
    if level > MinLevel {
      LegacyTotalCostClosedForm(level - 1);
      var k := level - 1;
      assert 2 * TotalCost(Legacy, level) == 25 * (k - 1) * (k + 2) + 100 + 50 * (k - 1);
      assert (k - 1) * (k + 2) + 4 + 2 * (k - 1) == k * (k + 3);
    }
  }

  /** totalCostForLevel, as the accumulator loop it is. */
  method TotalCostForLevel(tariff: Tariff, level: int) returns (total: int)
    ensures total == TotalCost(tariff, level)
  {
    total := 0;
    var current := MinLevel;
    while current < level
      invariant MinLevel <= current <= Max(level, MinLevel)
      invariant total == TotalCost(tariff, current)
      decreases level - current
    {
      total := total + StepCost(tariff, current);
      current := current + 1;
    }
  }

  /** The refund for the attributes `us` of one ship's levels, each worth what climbing to it cost. */
  function RefundOver(tariff: Tariff, l: Levels, us: seq<UpgradeType>): (r: int)
    ensures r >= 0
  {
    if us == [] then 0
    else
      var u := us[|us| - 1];
      RefundOver(tariff, l, us[..|us| - 1]) + (if u in l then TotalCost(tariff, l[u]) else 0)
  }

  /** getRefundAmount for a ship with an entry: its stored attributes visited in enum order. */
  function Refund(tariff: Tariff, l: Levels): int {
    RefundOver(tariff, l, UpgradeTypes)
  }

  /** getRefundAmount's loop over one ship's stored levels, in enum order. */
  method RefundAmount(tariff: Tariff, l: Levels) returns (refund: int)
    ensures refund == Refund(tariff, l)
  {
    refund := 0;
    for i := 0 to |UpgradeTypes|
      invariant refund == RefundOver(tariff, l, UpgradeTypes[..i])
    {
      var u := UpgradeTypes[i];
      assert UpgradeTypes[..i + 1][..i] == UpgradeTypes[..i];
      if u in l {
        var climbed := TotalCostForLevel(tariff, l[u]);
        refund := refund + climbed;
      }
    }
    assert UpgradeTypes[..|UpgradeTypes|] == UpgradeTypes;
  }

  /**
   * resetShip's loop over one ship's entries: each level's climb is added
   * to the refund and the entry is set back to 1.
   */
  method ResetEntries(tariff: Tariff, l: Levels) returns (reset: Levels, refund: int)
    ensures reset == ResetLevels(l) && refund == Refund(tariff, l)
  {
    reset := l;
    refund := 0;
    for i := 0 to |UpgradeTypes|
      invariant reset.Keys == l.Keys
      invariant forall u :: u in reset ==> reset[u] == if u in UpgradeTypes[..i] then MinLevel else l[u]
      invariant refund == RefundOver(tariff, l, UpgradeTypes[..i])
    {
      var u := UpgradeTypes[i];
      assert UpgradeTypes[..i + 1][..i] == UpgradeTypes[..i];
      UpgradeTypesListed(u);
      if u in reset {
        var climbed := TotalCostForLevel(tariff, reset[u]);
        refund := refund + climbed;
        reset := reset[u := MinLevel];
      }
    }
    assert UpgradeTypes[..|UpgradeTypes|] == UpgradeTypes;
    forall u | u in reset ensures reset[u] == MinLevel {
      UpgradeTypesListed(u);
    }
  }

  /** The attribute list holds each attribute exactly once. */
  lemma UpgradeTypesListed(u: UpgradeType)
    ensures u in UpgradeTypes
    ensures forall i, j :: 0 <= i < j < |UpgradeTypes| ==> UpgradeTypes[i] != UpgradeTypes[j]
  {
    match u
    case Attack =>
    case MoveSpeed =>
    case FireRate =>
    case MaxHp =>
  }

  /** Changing one stored level changes the refund by the difference of the two climbs. */
  lemma {:induction false} RefundUpdate(tariff: Tariff, l: Levels, us: seq<UpgradeType>, u: UpgradeType, v: int)
    requires u in l
    requires forall i, j :: 0 <= i < j < |us| ==> us[i] != us[j]
    ensures RefundOver(tariff, l[u := v], us)
         == RefundOver(tariff, l, us) + (if u in us then TotalCost(tariff, v) - TotalCost(tariff, l[u]) else 0)
  {
    if us != [] {
      var front := us[..|us| - 1];
      RefundUpdate(tariff, l, front, u, v);
      assert u in us <==> u in front || u == us[|us| - 1];
      if u == us[|us| - 1] {
        assert u !in front;
      }
    }
  }

  /** Levels all at 1 are worth no refund. */
  lemma {:induction false} RefundAtBase(tariff: Tariff, l: Levels, us: seq<UpgradeType>)
    requires forall u :: u in l ==> l[u] <= MinLevel
    ensures RefundOver(tariff, l, us) == 0
  {
    if us != [] {
      RefundAtBase(tariff, l, us[..|us| - 1]);
    }
  }

  /** One ship's levels and the coin balance: what `upgradeStat` and `resetShip` act on. */
  datatype Purse = Purse(levels: Levels, coins: int)

  /** The balance plus what a reset would refund. */
  function Worth(tariff: Tariff, p: Purse): int {
    p.coins + Refund(tariff, p.levels)
  }

  /**
   * upgradeStat on a ship that has an entry: refused (None) at the maximum
   * level or when the coins do not cover the price; otherwise the price is
   * paid, which never overdraws, and that one level rises by one.
   */
  function Upgrade(tariff: Tariff, p: Purse, u: UpgradeType): (r: Option<Purse>)
    requires u in p.levels
    ensures r.None? <==> p.levels[u] >= MaxLevel || p.coins < UpgradeCost(tariff, p.levels[u])
    ensures r.Some? ==> r.value.coins >= 0 && (p.levels[u] >= MinLevel ==> r.value.coins <= p.coins - 50)
    ensures r.Some? ==> (forall v :: v in r.value.levels <==> v in p.levels) && r.value.levels[u] == p.levels[u] + 1 <= MaxLevel
    ensures r.Some? ==> forall v :: v in p.levels && v != u ==> r.value.levels[v] == p.levels[v]
  {
    var level := p.levels[u];
    if level >= MaxLevel then None
    else
      var cost := UpgradeCost(tariff, level);
      if p.coins < cost then None
      else Some(Purse(p.levels[u := level + 1], p.coins - cost))
  }

  lemma UpgradeSucceeds(tariff: Tariff, p: Purse, u: UpgradeType)
    requires u in p.levels && p.levels[u] < MaxLevel && p.coins >= UpgradeCost(tariff, p.levels[u])
    ensures Upgrade(tariff, p, u) == Some(Purse(p.levels[u := p.levels[u] + 1], p.coins - UpgradeCost(tariff, p.levels[u])))
  {
  }

  /** A run of upgradeStat calls on one ship; a refused call changes nothing. */
  function UpgradeAll(tariff: Tariff, p: Purse, us: seq<UpgradeType>): (r: Purse)
    requires forall u :: u in us ==> u in p.levels
    ensures r.levels.Keys == p.levels.Keys
  {
    if us == [] then p
    else
      var q := UpgradeAll(tariff, p, us[..|us| - 1]);
      match Upgrade(tariff, q, us[|us| - 1])
      case None => q
      case Some(q') => q'
  }

  /** resetShip on a ship that has an entry: every level back to 1, the refund credited, the worth kept. */
  function Reset(tariff: Tariff, p: Purse): (r: Purse)
    ensures r.levels.Keys == p.levels.Keys && forall u :: u in r.levels ==> r.levels[u] == MinLevel
    ensures Refund(tariff, r.levels) == 0 && Worth(tariff, r) == Worth(tariff, p)
  {
    RefundAtBase(tariff, ResetLevels(p.levels), UpgradeTypes);
    Purse(ResetLevels(p.levels), p.coins + Refund(tariff, p.levels))
  }

  /** A successful upgrade moves coins into levels: the worth is unchanged and the levels stay in range. */
  lemma UpgradeKeepsWorth(tariff: Tariff, p: Purse, u: UpgradeType)
    requires u in p.levels && LevelsInRange(p.levels)
    ensures Upgrade(tariff, p, u).Some? ==>
      Worth(tariff, Upgrade(tariff, p, u).value) == Worth(tariff, p) && LevelsInRange(Upgrade(tariff, p, u).value.levels)
  {
    var r := Upgrade(tariff, p, u);
    if r.Some? {
      var level := p.levels[u];
      UpgradeTypesListed(u);
      RefundUpdate(tariff, p.levels, UpgradeTypes, u, level + 1);
      ClimbCost(tariff, level);
      assert r.value.levels == p.levels[u := level + 1];
      assert r.value.coins == p.coins - UpgradeCost(tariff, level);
    }
  }

  /** Any run of upgrades keeps the worth and the level range. */
  lemma {:induction false} UpgradeAllKeepsWorth(tariff: Tariff, p: Purse, us: seq<UpgradeType>)
    requires forall u :: u in us ==> u in p.levels
    requires LevelsInRange(p.levels)
    ensures Worth(tariff, UpgradeAll(tariff, p, us)) == Worth(tariff, p)
    ensures LevelsInRange(UpgradeAll(tariff, p, us).levels)
  {
    if us != [] {
      var front := us[..|us| - 1];
      UpgradeAllKeepsWorth(tariff, p, front);
      UpgradeKeepsWorth(tariff, UpgradeAll(tariff, p, front), us[|us| - 1]);
    }
  }

  /**
   * Round trip: from a ship whose levels are all 1, any run of upgrades
   * followed by a reset gives back the original levels and coin balance.
   */
  lemma RoundTrip(tariff: Tariff, p: Purse, us: seq<UpgradeType>)
    requires forall u :: u in p.levels ==> p.levels[u] == MinLevel
    requires forall u :: u in us ==> u in p.levels
    ensures Reset(tariff, UpgradeAll(tariff, p, us)) == p
  {
    UpgradeAllKeepsWorth(tariff, p, us);
    RefundAtBase(tariff, p.levels, UpgradeTypes);
    var r := Reset(tariff, UpgradeAll(tariff, p, us));
    assert r.levels == p.levels;
  }
}
