/** Records shared by both variants of the game engine: producers and
    upgrades with their geometric price curves, the reductions that derive
    click value and production rate from them, and the snapshot entries that
    `load` merges back into them by id. */
module Entities {

  datatype Option<T> = None | Some(value: T)

  /** What JavaScript's `Number(x)` makes of a snapshot field: a number
      (numeric strings, booleans and one-element arrays convert; `null`, `""`
      and `[]` give 0), or NaN when the field is absent or does not convert. */
  datatype Numeric<T> = NaN | Num(value: T)

  /** `Number(x) || 0` for a currency field. */
  function AmountOrZero(v: Numeric<real>): real {
    match v
    case NaN => 0.0
    case Num(x) => x
  }

  /** `Number(x) || 0` for a count or a level. */
  function CountOrZero(v: Numeric<nat>): nat {
    match v
    case NaN => 0
    case Num(n) => n
  }

  /** The three kinds of upgrade, each with the data it needs: a flat bonus
      per click, a factor on one producer's rate, a factor on the total rate. */
  datatype Effect =
    | ClickAdd(amount: real)
    | ProducerMult(factor: real, target: string)
    | GlobalMult(factor: real)

  datatype Producer = Producer(id: string, baseCost: real, rate: real, count: nat)

  datatype Upgrade = Upgrade(id: string, baseCost: real, effect: Effect, level: nat)

  /** The eight producers; both variants build the same table. */
  function ProducerCatalog(): seq<Producer> {
    [ Producer("p1", 15.0, 0.1, 0),
      Producer("p2", 100.0, 1.0, 0),
      Producer("p3", 1100.0, 8.0, 0),
      Producer("p4", 12000.0, 47.0, 0),
      Producer("p5", 130000.0, 260.0, 0),
      Producer("p6", 1400000.0, 1400.0, 0),
      Producer("p7", 20000000.0, 7800.0, 0),
      Producer("p8", 330000000.0, 44000.0, 0) ]
  }

  // ---------------------------------------------------------------------
  // Price curves

  function Pow(x: real, n: nat): real {
    if n == 0 then 1.0 else x * Pow(x, n - 1)
  }

  lemma {:induction false} PowAtLeastOne(x: real, n: nat)
    requires x >= 1.0
    ensures Pow(x, n) >= 1.0
  {
    if n > 0 {
      PowAtLeastOne(x, n - 1);
      var p := Pow(x, n - 1);
      assert x * p - p == (x - 1.0) * p;
      assert (x - 1.0) * p >= 0.0;
    }
  }

  lemma {:induction false} PowMonotone(x: real, k: nat, m: nat)
    requires x >= 1.0 && k <= m
    ensures Pow(x, k) <= Pow(x, m)
  {
    if k < m {
      PowMonotone(x, k, m - 1);
      PowAtLeastOne(x, m - 1);
      var p := Pow(x, m - 1);
      assert Pow(x, m) - p == (x - 1.0) * p;
      assert (x - 1.0) * p >= 0.0;
    }
  }

  const ProducerGrowth: real := 1.15
  const UpgradeGrowth: real := 1.6

  /** The price of the next unit: the largest integer not above
      baseCost * 1.15^count. */
  function ProducerCost(p: Producer): (cost: int)
    ensures cost as real <= p.baseCost * Pow(ProducerGrowth, p.count) < cost as real + 1.0
  {
    (p.baseCost * Pow(ProducerGrowth, p.count)).Floor
  }

  /** The price of the next level: the largest integer not above
      baseCost * 1.6^level. */
  function UpgradeCost(u: Upgrade): (cost: int)
    ensures cost as real <= u.baseCost * Pow(UpgradeGrowth, u.level) < cost as real + 1.0
  {
    (u.baseCost * Pow(UpgradeGrowth, u.level)).Floor
  }

  /** Scaling the curve by a non-negative base cost keeps it monotone. */
  lemma ScaledPowMonotone(base: real, x: real, k: nat, m: nat)
    requires base >= 0.0 && x >= 1.0 && k <= m
    ensures 0.0 <= base * Pow(x, k) <= base * Pow(x, m)
  {
    PowAtLeastOne(x, k);
    PowMonotone(x, k, m);
    assert base * Pow(x, m) - base * Pow(x, k) == base * (Pow(x, m) - Pow(x, k));
  }

  lemma ProducerCostMonotone(p: Producer, m: nat)
    requires p.baseCost >= 0.0 && p.count <= m
    ensures 0 <= ProducerCost(p) <= ProducerCost(p.(count := m))
  {
    ScaledPowMonotone(p.baseCost, ProducerGrowth, p.count, m);
  }

  lemma UpgradeCostMonotone(u: Upgrade, m: nat)
    requires u.baseCost >= 0.0 && u.level <= m
    ensures 0 <= UpgradeCost(u) <= UpgradeCost(u.(level := m))
  {
    ScaledPowMonotone(u.baseCost, UpgradeGrowth, u.level, m);
  }

  // ---------------------------------------------------------------------
  // Reductions over the upgrade and producer lists (left folds, as `reduce`)

  /** Sum of level * amount over the flat-click upgrades. */
  function ClickBonus(us: seq<Upgrade>): real {
    if us == [] then 0.0
    else
      var u := us[|us| - 1];
      match u.effect
      case ClickAdd(a) => ClickBonus(us[..|us| - 1]) + u.level as real * a
      case _ => ClickBonus(us[..|us| - 1])
  }

  /** The product of `factor(u)` over the upgrades `u` in `us`, taken from
      the left as the multiplier loops of the game do. */
  function FactorProduct(us: seq<Upgrade>, factor: Upgrade -> real): real {
    if us == [] then 1.0 else FactorProduct(us[..|us| - 1], factor) * factor(us[|us| - 1])
  }

  /** Product of factor^level over the producer-multiplier upgrades whose
      target is `producerId`; every other upgrade contributes 1. */
  function ProducerMultiplier(us: seq<Upgrade>, producerId: string): real {
    FactorProduct(us, u => ProducerFactor(u, producerId))
  }

  /** Product of factor^level over the global-multiplier upgrades. */
  function UpgradeGlobalMultiplier(us: seq<Upgrade>): real {
    FactorProduct(us, GlobalFactor)
  }

  /** Sum over producers of rate * multiplier * count, before the global factor. */
  function BaseProduction(ps: seq<Producer>, us: seq<Upgrade>): real {
    if ps == [] then 0.0
    else
      var p := ps[|ps| - 1];
      BaseProduction(ps[..|ps| - 1], us) + (p.rate * ProducerMultiplier(us, p.id)) * p.count as real
  }

  /** Sum of count * rate: the production rate when no upgrade is owned. */
  function RawProduction(ps: seq<Producer>): real {
    if ps == [] then 0.0
    else RawProduction(ps[..|ps| - 1]) + ps[|ps| - 1].count as real * ps[|ps| - 1].rate
  }

  function TotalProducerCount(ps: seq<Producer>): nat {
    if ps == [] then 0 else TotalProducerCount(ps[..|ps| - 1]) + ps[|ps| - 1].count
  }

  /** The total is 0 exactly when every count is 0. */
  lemma {:induction false} NoCountsNoTotal(ps: seq<Producer>)
    ensures TotalProducerCount(ps) == 0 <==> forall i :: 0 <= i < |ps| ==> ps[i].count == 0
  {
    if ps != [] {
      var n := |ps| - 1;
      NoCountsNoTotal(ps[..n]);
      assert forall i :: 0 <= i < n ==> ps[..n][i] == ps[i];
    }
  }

  /** Buying one producer raises the total count by exactly one. */
  lemma {:induction false} CountUpTotal(ps: seq<Producer>, i: nat)
    requires i < |ps|
    ensures TotalProducerCount(CountUp(ps, i)) == TotalProducerCount(ps) + 1
  {
    var n := |ps| - 1;
    var qs := CountUp(ps, i);
    if i == n {
      assert qs[..n] == ps[..n];
    } else {
      assert qs[..n] == CountUp(ps[..n], i);
      CountUpTotal(ps[..n], i);
    }
  }

  predicate NoLevels(us: seq<Upgrade>) {
    forall i :: 0 <= i < |us| ==> us[i].level == 0
  }

  /** With every level at 0 no upgrade has any effect. */
  lemma {:induction false} NoLevelsNoEffect(us: seq<Upgrade>, producerId: string)
    requires NoLevels(us)
    ensures ClickBonus(us) == 0.0
    ensures ProducerMultiplier(us, producerId) == 1.0
    ensures UpgradeGlobalMultiplier(us) == 1.0
  {
    if us != [] {
      NoLevelsNoEffect(us[..|us| - 1], producerId);
    }
  }

  lemma {:induction false} NoLevelsRawProduction(ps: seq<Producer>, us: seq<Upgrade>)
    requires NoLevels(us)
    ensures BaseProduction(ps, us) == RawProduction(ps)
  {
    if ps != [] {
      NoLevelsRawProduction(ps[..|ps| - 1], us);
      NoLevelsNoEffect(us, ps[|ps| - 1].id);
    }
  }

  function LevelUp(us: seq<Upgrade>, i: nat): (r: seq<Upgrade>)
    requires i < |us|
    ensures |r| == |us|
  {
    us[i := us[i].(level := us[i].level + 1)]
  }

  function CountUp(ps: seq<Producer>, i: nat): (r: seq<Producer>)
    requires i < |ps|
    ensures |r| == |ps|
  {
    ps[i := ps[i].(count := ps[i].count + 1)]
  }

  /** Buying one more level of a flat-click upgrade adds its amount to the
      click bonus; any other kind leaves the bonus alone. */
  lemma {:induction false} ClickBonusLevelUp(us: seq<Upgrade>, i: nat)
    requires i < |us|
    ensures ClickBonus(LevelUp(us, i))
         == ClickBonus(us) + (if us[i].effect.ClickAdd? then us[i].effect.amount else 0.0)
  {
    var n := |us| - 1;
    var vs := LevelUp(us, i);
    if i == n {
      assert vs[..n] == us[..n];
    } else {
      assert vs[..n] == LevelUp(us[..n], i);
      ClickBonusLevelUp(us[..n], i);
    }
  }

  /** The factor one upgrade contributes to `producerId`'s multiplier. */
  function ProducerFactor(u: Upgrade, producerId: string): real {
    if u.effect.ProducerMult? && u.effect.target == producerId then Pow(u.effect.factor, u.level) else 1.0
  }

  /** The factor one upgrade contributes to the global multiplier. */
  function GlobalFactor(u: Upgrade): real {
    if u.effect.GlobalMult? then Pow(u.effect.factor, u.level) else 1.0
  }

  /** The scale one more level of an upgrade with effect `e` applies to
      `producerId`'s multiplier: its factor if it targets that producer. */
  function ProducerScale(e: Effect, producerId: string): real {
    if e.ProducerMult? && e.target == producerId then e.factor else 1.0
  }

  /** The scale one more level of an upgrade with effect `e` applies to the
      global multiplier: its factor if it is a global upgrade. */
  function GlobalScale(e: Effect): real {
    if e.GlobalMult? then e.factor else 1.0
  }

  lemma ProducerFactorLevelUp(u: Upgrade, producerId: string)
    ensures ProducerFactor(u.(level := u.level + 1), producerId) == ProducerFactor(u, producerId) * ProducerScale(u.effect, producerId)
  {
    if u.effect.ProducerMult? && u.effect.target == producerId {
      assert Pow(u.effect.factor, u.level + 1) == u.effect.factor * Pow(u.effect.factor, u.level);
    }
  }

  lemma GlobalFactorLevelUp(u: Upgrade)
    ensures GlobalFactor(u.(level := u.level + 1)) == GlobalFactor(u) * GlobalScale(u.effect)
  {
    if u.effect.GlobalMult? {
      assert Pow(u.effect.factor, u.level + 1) == u.effect.factor * Pow(u.effect.factor, u.level);
    }
  }

  /** Scaling an earlier factor of a product scales the product. */
  lemma ScaleEarlierFactor(a: real, g: real, c: real)
    ensures (a * c) * g == (a * g) * c
  {
  }

  /** Scaling the last factor of a product scales the product. */
  lemma ScaleLastFactor(a: real, g: real, c: real)
    ensures a * (g * c) == (a * g) * c
  {
  }

  /** When one more level of upgrade `i` scales its own factor by `c`, it
      scales the whole product by `c`. */
  lemma {:induction false} FactorProductLevelUp(us: seq<Upgrade>, i: nat, factor: Upgrade -> real, c: real)
    requires i < |us|
    requires factor(us[i].(level := us[i].level + 1)) == factor(us[i]) * c
    ensures FactorProduct(LevelUp(us, i), factor) == FactorProduct(us, factor) * c
  {
    var n := |us| - 1;
    var vs := LevelUp(us, i);
    if i == n {
      assert vs[..n] == us[..n];
      ScaleLastFactor(FactorProduct(us[..n], factor), factor(us[n]), c);
    } else {
      assert vs[..n] == LevelUp(us[..n], i);
      FactorProductLevelUp(us[..n], i, factor, c);
      ScaleEarlierFactor(FactorProduct(us[..n], factor), factor(us[n]), c);
    }
  }

  /** Buying one more level of a producer-multiplier upgrade multiplies its
      target's multiplier by the factor; no other producer is affected. */
  lemma ProducerMultiplierLevelUp(us: seq<Upgrade>, i: nat, producerId: string)
    requires i < |us|
    ensures ProducerMultiplier(LevelUp(us, i), producerId)
         == ProducerMultiplier(us, producerId) * ProducerScale(us[i].effect, producerId)
  {
    ProducerFactorLevelUp(us[i], producerId);
    FactorProductLevelUp(us, i, u => ProducerFactor(u, producerId), ProducerScale(us[i].effect, producerId));
  }

  /** Buying one more level of a global upgrade multiplies the global
      multiplier by its factor. */
  lemma GlobalMultiplierLevelUp(us: seq<Upgrade>, i: nat)
    requires i < |us|
    ensures UpgradeGlobalMultiplier(LevelUp(us, i)) == UpgradeGlobalMultiplier(us) * GlobalScale(us[i].effect)
  {
    GlobalFactorLevelUp(us[i]);
    FactorProductLevelUp(us, i, GlobalFactor, GlobalScale(us[i].effect));
  }

  // ---------------------------------------------------------------------
  // Lookup by id (`Array.prototype.find`)

  predicate NoDup<T(==)>(xs: seq<T>) {
    forall i, j :: 0 <= i < j < |xs| ==> xs[i] != xs[j]
  }

  lemma NoDupAppend(xs: seq<string>, ys: seq<string>)
    requires NoDup(xs) && NoDup(ys)
    requires forall y :: y in ys ==> y !in xs
    ensures NoDup(xs + ys)
  {
    var zs := xs + ys;
    forall i, j | 0 <= i < j < |zs|
      ensures zs[i] != zs[j]
    {
      if j < |xs| {
        assert zs[i] == xs[i] && zs[j] == xs[j];
      } else if i < |xs| {
        assert zs[i] == xs[i] && zs[j] == ys[j - |xs|];
        assert ys[j - |xs|] in ys;
      } else {
        assert zs[i] == ys[i - |xs|] && zs[j] == ys[j - |xs|];
      }
    }
  }

  /** The index of the first occurrence of `id`, if any. */
  function IndexOf(ids: seq<string>, id: string): (r: Option<nat>)
    ensures r.Some? <==> id in ids
    ensures r.Some? ==> (r.value < |ids| && ids[r.value] == id
                         && forall j :: 0 <= j < r.value ==> ids[j] != id)
  {
    if ids == [] then None
    else if ids[0] == id then Some(0)
    else match IndexOf(ids[1..], id)
         case None => None
         case Some(k) => Some(k + 1)
  }

  lemma IndexOfNoDup(ids: seq<string>, k: nat)
    requires NoDup(ids) && k < |ids|
    ensures IndexOf(ids, ids[k]) == Some(k)
  {
    var r := IndexOf(ids, ids[k]);
    assert r.Some?;
  }

  function ProducerIds(ps: seq<Producer>): (ids: seq<string>)
    ensures |ids| == |ps|
  {
    seq(|ps|, i requires 0 <= i < |ps| => ps[i].id)
  }

  function UpgradeIds(us: seq<Upgrade>): (ids: seq<string>)
    ensures |ids| == |us|
  {
    seq(|us|, i requires 0 <= i < |us| => us[i].id)
  }

  /** Two producer lists are the same table, possibly with different counts. */
  predicate SameProducers(ps: seq<Producer>, qs: seq<Producer>) {
    |ps| == |qs| && forall i :: 0 <= i < |ps| ==> ps[i].(count := qs[i].count) == qs[i]
  }

  /** Two upgrade lists are the same table, possibly with different levels. */
  predicate SameUpgrades(us: seq<Upgrade>, vs: seq<Upgrade>) {
    |us| == |vs| && forall i :: 0 <= i < |us| ==> us[i].(level := vs[i].level) == vs[i]
  }

  // ---------------------------------------------------------------------
  // Snapshot entries and the merge `load` performs

  /** One `{ id, count }` or `{ id, level }` element of a snapshot. */
  datatype Entry = Entry(id: string, value: Numeric<nat>)

  function CountEntries(ps: seq<Producer>): (es: seq<Entry>)
    ensures |es| == |ps|
  {
    seq(|ps|, i requires 0 <= i < |ps| => Entry(ps[i].id, Num(ps[i].count)))
  }

  function LevelEntries(us: seq<Upgrade>): (es: seq<Entry>)
    ensures |es| == |us|
  {
    seq(|us|, i requires 0 <= i < |us| => Entry(us[i].id, Num(us[i].level)))
  }

  /** One iteration of the producer loop of `load`: the first producer with
      the entry's id gets the coerced count; an unknown id changes nothing. */
  function ApplyCount(ps: seq<Producer>, e: Entry): (r: seq<Producer>)
    ensures SameProducers(r, ps)
    ensures e.id !in ProducerIds(ps) ==> r == ps
    ensures e.id in ProducerIds(ps) ==>
      var k := IndexOf(ProducerIds(ps), e.id).value;
      r[k].count == CountOrZero(e.value) && forall j :: 0 <= j < |ps| && j != k ==> r[j] == ps[j]
  {
    match IndexOf(ProducerIds(ps), e.id)
    case None => ps
    case Some(k) => ps[k := ps[k].(count := CountOrZero(e.value))]
  }

  /** One iteration of the upgrade loop of `load`. */
  function ApplyLevel(us: seq<Upgrade>, e: Entry): (r: seq<Upgrade>)
    ensures SameUpgrades(r, us)
    ensures e.id !in UpgradeIds(us) ==> r == us
    ensures e.id in UpgradeIds(us) ==>
      var k := IndexOf(UpgradeIds(us), e.id).value;
      r[k].level == CountOrZero(e.value) && forall j :: 0 <= j < |us| && j != k ==> r[j] == us[j]
  {
    match IndexOf(UpgradeIds(us), e.id)
    case None => us
    case Some(k) => us[k := us[k].(level := CountOrZero(e.value))]
  }

  /** The whole producer loop of `load`, entries taken in order. */
  function ApplyCounts(ps: seq<Producer>, es: seq<Entry>): seq<Producer> {
    if es == [] then ps else ApplyCount(ApplyCounts(ps, es[..|es| - 1]), es[|es| - 1])
  }

  function ApplyLevels(us: seq<Upgrade>, es: seq<Entry>): seq<Upgrade> {
    if es == [] then us else ApplyLevel(ApplyLevels(us, es[..|es| - 1]), es[|es| - 1])
  }

  lemma {:induction false} ApplyCountsSameTable(ps: seq<Producer>, es: seq<Entry>)
    ensures SameProducers(ApplyCounts(ps, es), ps)
  {
    if es != [] {
      ApplyCountsSameTable(ps, es[..|es| - 1]);
    }
  }

  lemma {:induction false} ApplyLevelsSameTable(us: seq<Upgrade>, es: seq<Entry>)
    ensures SameUpgrades(ApplyLevels(us, es), us)
  {
    if es != [] {
      ApplyLevelsSameTable(us, es[..|es| - 1]);
    }
  }

  lemma SameProducersIds(ps: seq<Producer>, qs: seq<Producer>)
    requires SameProducers(ps, qs)
    ensures ProducerIds(ps) == ProducerIds(qs)
  {
    assert forall i :: 0 <= i < |ps| ==> ps[i].id == ps[i].(count := qs[i].count).id;
  }

  lemma SameUpgradesIds(us: seq<Upgrade>, vs: seq<Upgrade>)
    requires SameUpgrades(us, vs)
    ensures UpgradeIds(us) == UpgradeIds(vs)
  {
    assert forall i :: 0 <= i < |us| ==> us[i].id == us[i].(level := vs[i].level).id;
  }

  /** Applying the k-th saved entry to a list whose first k counts are
      already restored restores the (k+1)-th. */
  lemma CountsRoundTripStep(base: seq<Producer>, ps: seq<Producer>, k: nat)
    requires SameProducers(base, ps) && NoDup(ProducerIds(ps)) && k < |ps|
    ensures ApplyCount(ps[..k] + base[k..], Entry(ps[k].id, Num(ps[k].count))) == ps[..k + 1] + base[k + 1..]
  {
    var mid := ps[..k] + base[k..];
    assert SameProducers(mid, ps);
    SameProducersIds(mid, ps);
    IndexOfNoDup(ProducerIds(ps), k);
    assert mid[k := mid[k].(count := ps[k].count)] == ps[..k + 1] + base[k + 1..];
  }

  lemma SameProducersTransfer(ps: seq<Producer>, qs: seq<Producer>, table: seq<Producer>)
    requires SameProducers(ps, table) && SameProducers(qs, table)
    ensures SameProducers(ps, qs) && ProducerIds(ps) == ProducerIds(table)
  {
    SameProducersIds(ps, table);
    forall i | 0 <= i < |ps|
      ensures ps[i].(count := qs[i].count) == qs[i]
    {
      assert ps[i].(count := table[i].count) == table[i];
      assert qs[i].(count := table[i].count) == table[i];
    }
  }

  lemma SameUpgradesTransfer(us: seq<Upgrade>, vs: seq<Upgrade>, table: seq<Upgrade>)
    requires SameUpgrades(us, table) && SameUpgrades(vs, table)
    ensures SameUpgrades(us, vs) && UpgradeIds(us) == UpgradeIds(table)
  {
    SameUpgradesIds(us, table);
    forall i | 0 <= i < |us|
      ensures us[i].(level := vs[i].level) == vs[i]
    {
      assert us[i].(level := table[i].level) == table[i];
      assert vs[i].(level := table[i].level) == table[i];
    }
  }

  lemma {:induction false} CountsRoundTripPrefix(base: seq<Producer>, ps: seq<Producer>, k: nat)
    requires SameProducers(base, ps) && NoDup(ProducerIds(ps)) && k <= |ps|
    ensures ApplyCounts(base, CountEntries(ps)[..k]) == ps[..k] + base[k..]
  {
    if k == 0 {
      assert CountEntries(ps)[..0] == [];
      assert ps[..0] + base[0..] == base;
    } else {
      var es := CountEntries(ps)[..k];
      assert es[..k - 1] == CountEntries(ps)[..k - 1];
      CountsRoundTripPrefix(base, ps, k - 1);
      CountsRoundTripStep(base, ps, k - 1);
    }
  }

  /** Loading the entries that `serialize` wrote into any list built from
      the same (duplicate-free) table gives back exactly the saved counts. */
  lemma CountsRoundTrip(base: seq<Producer>, ps: seq<Producer>)
    requires SameProducers(base, ps) && NoDup(ProducerIds(ps))
    ensures ApplyCounts(base, CountEntries(ps)) == ps
  {
    CountsRoundTripPrefix(base, ps, |ps|);
    assert CountEntries(ps)[..|ps|] == CountEntries(ps);
    assert ps[..|ps|] + base[|ps|..] == ps;
  }

  lemma LevelsRoundTripStep(base: seq<Upgrade>, us: seq<Upgrade>, k: nat)
    requires SameUpgrades(base, us) && NoDup(UpgradeIds(us)) && k < |us|
    ensures ApplyLevel(us[..k] + base[k..], Entry(us[k].id, Num(us[k].level))) == us[..k + 1] + base[k + 1..]
  {
    var mid := us[..k] + base[k..];
    assert SameUpgrades(mid, us);
    SameUpgradesIds(mid, us);
    IndexOfNoDup(UpgradeIds(us), k);
    assert mid[k := mid[k].(level := us[k].level)] == us[..k + 1] + base[k + 1..];
  }

  lemma {:induction false} LevelsRoundTripPrefix(base: seq<Upgrade>, us: seq<Upgrade>, k: nat)
    requires SameUpgrades(base, us) && NoDup(UpgradeIds(us)) && k <= |us|
    ensures ApplyLevels(base, LevelEntries(us)[..k]) == us[..k] + base[k..]
  {
    if k == 0 {
      assert LevelEntries(us)[..0] == [];
      assert us[..0] + base[0..] == base;
    } else {
      var es := LevelEntries(us)[..k];
      assert es[..k - 1] == LevelEntries(us)[..k - 1];
      LevelsRoundTripPrefix(base, us, k - 1);
      LevelsRoundTripStep(base, us, k - 1);
    }
  }

  lemma LevelsRoundTrip(base: seq<Upgrade>, us: seq<Upgrade>)
    requires SameUpgrades(base, us) && NoDup(UpgradeIds(us))
    ensures ApplyLevels(base, LevelEntries(us)) == us
  {
    LevelsRoundTripPrefix(base, us, |us|);
    assert LevelEntries(us)[..|us|] == LevelEntries(us);
    assert us[..|us|] + base[|us|..] == us;
  }

  lemma ProducerCatalogIds()
    ensures NoDup(ProducerIds(ProducerCatalog()))
  {
    var ids := ProducerIds(ProducerCatalog());
    assert ids == ["p1", "p2", "p3", "p4", "p5", "p6", "p7", "p8"];
  }

  /** `Array.from(new Set(xs))`: the first occurrence of each element, in order. */
  function Dedupe(xs: seq<string>): (r: seq<string>)
    ensures NoDup(r)
    ensures forall x :: x in r <==> x in xs
    ensures NoDup(xs) ==> r == xs
  {
    if xs == [] then []
    else
      var d := Dedupe(xs[..|xs| - 1]);
      var x := xs[|xs| - 1];
      assert xs == xs[..|xs| - 1] + [x];
      if x in d then d else d + [x]
  }

  /** `new Set(xs)` iterates in insertion order, so the de-duplicated list
      keeps the elements in the order of their first occurrence in xs. */
  lemma {:induction false} DedupeOrder(xs: seq<string>)
    ensures forall i, j :: 0 <= i < j < |Dedupe(xs)| ==>
              IndexOf(xs, Dedupe(xs)[i]).value < IndexOf(xs, Dedupe(xs)[j]).value
  {
    if xs != [] {
      var n := |xs| - 1;
      var ys := xs[..n];
      var d := Dedupe(ys);
      var x := xs[n];
      DedupeOrder(ys);
      forall y | y in d
        ensures IndexOf(xs, y) == IndexOf(ys, y) && IndexOf(xs, y).value < n
      {
        IndexOfPrefix(xs, n, y);
      }
      if x !in d {
        assert IndexOf(xs, x).value == n by {
          assert x !in ys;
        }
        var r := d + [x];
        forall i, j | 0 <= i < j < |r|
          ensures IndexOf(xs, r[i]).value < IndexOf(xs, r[j]).value
        {
          assert r[i] == d[i] && r[i] in d;
          if j < |d| {
            assert r[j] == d[j] && r[j] in d;
          }
        }
      }
    }
  }

  /** Looking an id up in a prefix that holds it finds the same index as
      looking it up in the whole list. */
  lemma IndexOfPrefix(xs: seq<string>, n: nat, y: string)
    requires n <= |xs| && y in xs[..n]
    ensures IndexOf(xs, y) == IndexOf(xs[..n], y)
  {
    var a := IndexOf(xs[..n], y).value;
    var b := IndexOf(xs, y).value;
    assert xs[a] == y;
    assert forall j :: 0 <= j < a ==> xs[j] == xs[..n][j];
  }
}
