/** The engine of javascript.js: currency, the producer and upgrade tables,
    two hard-coded unlocks, a free theme choice and the golden-cookie
    "frenzy", a time-boxed multiplier on the whole production rate.
    `State` is the engine's state as a value and the functions over it say
    what each operation does; `Game` holds the same state in mutable fields
    and performs the operations step by step. */
module FrenzyGame {
  import opened Entities

  const BaseClickValue: real := 1.0
  const DefaultTheme: string := "dark"
  const BuilderUnlock: string := "builder"
  const RichUnlock: string := "rich"
  const BuilderThreshold: nat := 10
  const RichThreshold: real := 100000.0

  datatype Frenzy = Frenzy(active: bool, mult: real, until: real)

  /** The frenzy record when no frenzy is running. */
  const Calm: Frenzy := Frenzy(false, 1.0, 0.0)

  function UpgradeCatalog(): seq<Upgrade> {
    [ Upgrade("u_click_1", 15.0, ClickAdd(1.0), 0),
      Upgrade("u_click_2", 75.0, ClickAdd(3.0), 0),
      Upgrade("u_click_3", 300.0, ClickAdd(10.0), 0),
      Upgrade("u_cur_2x", 500.0, ProducerMult(2.0, "p1"), 0),
      Upgrade("u_grandma_2x", 2500.0, ProducerMult(2.0, "p2"), 0),
      Upgrade("u_global_1_2x", 10000.0, GlobalMult(1.2), 0) ]
  }

  lemma UpgradeCatalogIds()
    ensures NoDup(UpgradeIds(UpgradeCatalog()))
  {
    var ids := UpgradeIds(UpgradeCatalog());
    assert ids == ["u_click_1", "u_click_2", "u_click_3", "u_cur_2x", "u_grandma_2x", "u_global_1_2x"];
  }

  datatype State = State(
    cookies: real,
    producers: seq<Producer>,
    upgrades: seq<Upgrade>,
    unlocks: seq<string>,
    theme: string,
    frenzy: Frenzy)

  /** The state a new `Game` starts in. */
  function Fresh(): State {
    State(0.0, ProducerCatalog(), UpgradeCatalog(), [], DefaultTheme, Calm)
  }

  /** The producer and upgrade lists are the built-in tables; only the
      counts and levels may differ. */
  predicate SameTables(s: State) {
    SameProducers(s.producers, ProducerCatalog()) && SameUpgrades(s.upgrades, UpgradeCatalog())
  }

  // ---------------------------------------------------------------------
  // Derived values

  function ClickValue(s: State): real {
    BaseClickValue + ClickBonus(s.upgrades)
  }

  /** The upgrades' global factor, times the frenzy multiplier while a
      frenzy is active. */
  function GlobalMultiplier(s: State): real {
    UpgradeGlobalMultiplier(s.upgrades) * (if s.frenzy.active then s.frenzy.mult else 1.0)
  }

  function CookiesPerSecond(s: State): real {
    BaseProduction(s.producers, s.upgrades) * GlobalMultiplier(s)
  }

  predicate CanAfford(s: State, amount: real) {
    s.cookies >= amount
  }

  // ---------------------------------------------------------------------
  // Operations on the state value

  function Clicked(s: State): (r: State)
    ensures r.cookies == s.cookies + ClickValue(s) && r.(cookies := s.cookies) == s
  {
    s.(cookies := s.cookies + ClickValue(s))
  }

  /** `checkUnlocks`: "builder" once 10 producers are owned, "rich" once
      100000 cookies are held, each appended only if not yet present. */
  function WithUnlocks(s: State): (r: State)
    ensures r.(unlocks := s.unlocks) == s
    ensures s.unlocks <= r.unlocks
    ensures forall k :: |s.unlocks| <= k < |r.unlocks| ==>
              r.unlocks[k] !in s.unlocks && (r.unlocks[k] == BuilderUnlock || r.unlocks[k] == RichUnlock)
    ensures NoDup(r.unlocks[|s.unlocks|..])
    ensures BuilderUnlock in r.unlocks <==>
              BuilderUnlock in s.unlocks || TotalProducerCount(s.producers) >= BuilderThreshold
    ensures RichUnlock in r.unlocks <==> RichUnlock in s.unlocks || s.cookies >= RichThreshold
  {
    var u1 := if TotalProducerCount(s.producers) >= BuilderThreshold && BuilderUnlock !in s.unlocks
              then s.unlocks + [BuilderUnlock] else s.unlocks;
    var u2 := if s.cookies >= RichThreshold && RichUnlock !in u1 then u1 + [RichUnlock] else u1;
    s.(unlocks := u2)
  }

  /** Unlocking never introduces a duplicate into a duplicate-free list. */
  lemma WithUnlocksNoDup(s: State)
    requires NoDup(s.unlocks)
    ensures NoDup(WithUnlocks(s).unlocks)
  {
    var r := WithUnlocks(s).unlocks;
    var n := |s.unlocks|;
    forall i, j | 0 <= i < j < |r|
      ensures r[i] != r[j]
    {
      if j < n {
        assert r[i] == s.unlocks[i] && r[j] == s.unlocks[j];
      } else if i < n {
        assert r[i] in s.unlocks;
      } else {
        assert r[i] == r[n..][i - n] && r[j] == r[n..][j - n];
      }
    }
  }

  /** The outcome of a purchase: whether it happened, and the state after it. */
  datatype Attempt = Attempt(ok: bool, state: State)

  function UpgradePurchase(s: State, id: string): (r: Attempt)
    ensures id !in UpgradeIds(s.upgrades) ==> r == Attempt(false, s)
    ensures id in UpgradeIds(s.upgrades) ==>
      var i := IndexOf(UpgradeIds(s.upgrades), id).value;
      var cost := UpgradeCost(s.upgrades[i]) as real;
      && r.ok == CanAfford(s, cost)
      && (!r.ok ==> r.state == s)
      && (r.ok ==> && r.state.cookies == s.cookies - cost
                   && r.state.cookies >= 0.0
                   && r.state.upgrades == LevelUp(s.upgrades, i)
                   && r.state.producers == s.producers
                   && r.state.theme == s.theme
                   && r.state.frenzy == s.frenzy
                   && s.unlocks <= r.state.unlocks
                   && r.state == WithUnlocks(r.state.(unlocks := s.unlocks)))
  {
    match IndexOf(UpgradeIds(s.upgrades), id)
    case None => Attempt(false, s)
    case Some(i) =>
      var cost := UpgradeCost(s.upgrades[i]) as real;
      if !CanAfford(s, cost) then Attempt(false, s)
      else Attempt(true, WithUnlocks(s.(cookies := s.cookies - cost, upgrades := LevelUp(s.upgrades, i))))
  }

  function ProducerPurchase(s: State, id: string): (r: Attempt)
    ensures id !in ProducerIds(s.producers) ==> r == Attempt(false, s)
    ensures id in ProducerIds(s.producers) ==>
      var i := IndexOf(ProducerIds(s.producers), id).value;
      var cost := ProducerCost(s.producers[i]) as real;
      && r.ok == CanAfford(s, cost)
      && (!r.ok ==> r.state == s)
      && (r.ok ==> && r.state.cookies == s.cookies - cost
                   && r.state.cookies >= 0.0
                   && r.state.producers == CountUp(s.producers, i)
                   && r.state.upgrades == s.upgrades
                   && r.state.theme == s.theme
                   && r.state.frenzy == s.frenzy
                   && s.unlocks <= r.state.unlocks
                   && r.state == WithUnlocks(r.state.(unlocks := s.unlocks)))
  {
    match IndexOf(ProducerIds(s.producers), id)
    case None => Attempt(false, s)
    case Some(i) =>
      var cost := ProducerCost(s.producers[i]) as real;
      if !CanAfford(s, cost) then Attempt(false, s)
      else Attempt(true, WithUnlocks(s.(cookies := s.cookies - cost, producers := CountUp(s.producers, i))))
  }

  /** What a successful upgrade purchase does to the derived values: a flat
      upgrade raises the click value by its amount, a global upgrade scales
      the global multiplier by its factor, a producer upgrade scales its
      target's multiplier by its factor. */
  lemma UpgradePurchaseEffect(s: State, id: string, producerId: string)
    requires UpgradePurchase(s, id).ok
    ensures id in UpgradeIds(s.upgrades)
    ensures var i := IndexOf(UpgradeIds(s.upgrades), id).value;
            UpgradeEffect(s, UpgradePurchase(s, id).state, s.upgrades[i].effect, producerId)
  {
    var r := UpgradePurchase(s, id);
    assert id in UpgradeIds(s.upgrades);
    var i := IndexOf(UpgradeIds(s.upgrades), id).value;
    assert r.state.upgrades == LevelUp(s.upgrades, i) && r.state.frenzy == s.frenzy;
    LevelUpEffect(s, r.state, i, producerId);
  }

  /** Upgrade effect `e` gained one level between `s` and `t`. */
  predicate UpgradeEffect(s: State, t: State, e: Effect, producerId: string) {
    && ClickValue(t) == ClickValue(s) + (if e.ClickAdd? then e.amount else 0.0)
    && GlobalMultiplier(t) == GlobalMultiplier(s) * GlobalScale(e)
    && ProducerMultiplier(t.upgrades, producerId) == ProducerMultiplier(s.upgrades, producerId) * ProducerScale(e, producerId)
  }

  lemma LevelUpEffect(s: State, t: State, i: nat, producerId: string)
    requires i < |s.upgrades| && t.upgrades == LevelUp(s.upgrades, i) && t.frenzy == s.frenzy
    ensures UpgradeEffect(s, t, s.upgrades[i].effect, producerId)
  {
    ClickBonusLevelUp(s.upgrades, i);
    ProducerMultiplierLevelUp(s.upgrades, i, producerId);
    GlobalMultiplierLevelUp(s.upgrades, i);
    GlobalMultiplierScaled(s, t, GlobalScale(s.upgrades[i].effect));
  }

  /** The frenzy factor commutes with a change of the upgrades' factor. */
  lemma GlobalMultiplierScaled(s: State, t: State, c: real)
    requires t.frenzy == s.frenzy
    requires UpgradeGlobalMultiplier(t.upgrades) == UpgradeGlobalMultiplier(s.upgrades) * c
    ensures GlobalMultiplier(t) == GlobalMultiplier(s) * c
  {
    ScaleEarlierFactor(UpgradeGlobalMultiplier(s.upgrades), if s.frenzy.active then s.frenzy.mult else 1.0, c);
  }

  /** Before any upgrade is bought the click value is the base value, the
      global multiplier is the frenzy factor alone, and the rate is the plain
      sum of count * rate times that factor. */
  lemma RatesWithoutUpgrades(s: State)
    requires NoLevels(s.upgrades)
    ensures ClickValue(s) == BaseClickValue
    ensures GlobalMultiplier(s) == (if s.frenzy.active then s.frenzy.mult else 1.0)
    ensures CookiesPerSecond(s) == RawProduction(s.producers) * GlobalMultiplier(s)
  {
    NoLevelsNoEffect(s.upgrades, "");
    NoLevelsRawProduction(s.producers, s.upgrades);
  }

  /** `update(delta)` at time `now`: an expired frenzy is reset first, then
      the production of `delta` seconds is added. */
  function Advanced(s: State, delta: real, now: real): State {
    var f := if s.frenzy.active && now >= s.frenzy.until then Calm else s.frenzy;
    var t := s.(frenzy := f);
    t.(cookies := t.cookies + CookiesPerSecond(t) * delta)
  }

  /** The frenzy multiplier takes part in `update` exactly while the frenzy
      is active and not yet expired; nothing but cookies and frenzy change. */
  lemma AdvanceGain(s: State, delta: real, now: real)
    ensures var r := Advanced(s, delta, now);
            var boost := if s.frenzy.active && now < s.frenzy.until then s.frenzy.mult else 1.0;
            && r.cookies - s.cookies
               == BaseProduction(s.producers, s.upgrades) * UpgradeGlobalMultiplier(s.upgrades) * boost * delta
            && r.frenzy == (if s.frenzy.active && now >= s.frenzy.until then Calm else s.frenzy)
            && r.(cookies := s.cookies, frenzy := s.frenzy) == s
  {
    var b := BaseProduction(s.producers, s.upgrades);
    var g := UpgradeGlobalMultiplier(s.upgrades);
    var boost := if s.frenzy.active && now < s.frenzy.until then s.frenzy.mult else 1.0;
    assert (b * (g * boost)) * delta == b * g * boost * delta;
  }

  /** Two updates at the same instant accrue what one update over the summed
      interval does. */
  lemma AdvanceAdditive(s: State, a: real, b: real, now: real)
    ensures Advanced(Advanced(s, a, now), b, now) == Advanced(s, a + b, now)
  {
    var t := Advanced(s, a, now);
    var rate := CookiesPerSecond(t);
    assert rate == CookiesPerSecond(Advanced(s, a + b, now));
    assert rate * (a + b) == rate * a + rate * b;
    assert t.frenzy == Advanced(t, b, now).frenzy == Advanced(s, a + b, now).frenzy;
    assert Advanced(t, b, now).cookies == Advanced(s, a + b, now).cookies;
  }

  /** `triggerFrenzy(multiplier, msDuration)` at time `now`. */
  function FrenzyTriggered(s: State, multiplier: real, msDuration: real, now: real): (r: State)
    ensures r.frenzy.active && r.frenzy.until == now + msDuration
    ensures GlobalMultiplier(r) == UpgradeGlobalMultiplier(s.upgrades) * multiplier
    ensures r.(frenzy := s.frenzy) == s
  {
    s.(frenzy := Frenzy(true, multiplier, now + msDuration))
  }

  /** A new frenzy replaces the running one; multipliers never stack. */
  lemma FrenzyOverwrites(s: State, m1: real, d1: real, n1: real, m2: real, d2: real, n2: real)
    ensures FrenzyTriggered(FrenzyTriggered(s, m1, d1, n1), m2, d2, n2) == FrenzyTriggered(s, m2, d2, n2)
    ensures GlobalMultiplier(FrenzyTriggered(s, m2, d2, n2)) == UpgradeGlobalMultiplier(s.upgrades) * m2
  {
  }

  /** `setTheme` accepts any theme name. */
  function ThemeSet(s: State, theme: string): (r: State)
    ensures r.theme == theme && r.(theme := s.theme) == s
  {
    s.(theme := theme)
  }

  // ---------------------------------------------------------------------
  // Snapshots

  /** The object `serialize` returns; an absent `upgrades` or `producers`
      array is the empty sequence, as `state.upgrades || []` reads it. */
  datatype Snapshot = Snapshot(
    cookies: Numeric<real>,
    upgrades: seq<Entry>,
    producers: seq<Entry>,
    theme: Option<string>,
    unlocks: Option<seq<string>>)

  function SnapshotOf(s: State): Snapshot {
    Snapshot(Num(s.cookies), LevelEntries(s.upgrades), CountEntries(s.producers), Some(s.theme), Some(s.unlocks))
  }

  /** `load(state)`: nothing on a null state; otherwise the cookies are
      coerced, known ids overwrite their level or count, a non-empty theme
      and an unlock array replace the current ones. The frenzy is kept. */
  function Restored(s: State, state: Option<Snapshot>): (r: State)
    ensures state.None? ==> r == s
    ensures state.Some? ==> r.cookies == AmountOrZero(state.value.cookies)
    ensures SameProducers(r.producers, s.producers) && SameUpgrades(r.upgrades, s.upgrades)
    ensures r.frenzy == s.frenzy
  {
    match state
    case None => s
    case Some(st) =>
      ApplyCountsSameTable(s.producers, st.producers);
      ApplyLevelsSameTable(s.upgrades, st.upgrades);
      State(
        AmountOrZero(st.cookies),
        ApplyCounts(s.producers, st.producers),
        ApplyLevels(s.upgrades, st.upgrades),
        if st.unlocks.Some? then st.unlocks.value else s.unlocks,
        if st.theme.Some? && st.theme.value != "" then st.theme.value else s.theme,
        s.frenzy)
  }

  /** Loading what `serialize` wrote into any game built from the same
      tables restores cookies, every count and level, the unlock list and a
      non-empty theme; the frenzy is the loading game's own. */
  lemma RoundTrip(base: State, s: State)
    requires SameTables(base) && SameTables(s)
    ensures Restored(base, Some(SnapshotOf(s)))
         == s.(theme := if s.theme != "" then s.theme else base.theme, frenzy := base.frenzy)
  {
    SameProducersTransfer(base.producers, s.producers, ProducerCatalog());
    SameProducersTransfer(s.producers, s.producers, ProducerCatalog());
    SameUpgradesTransfer(base.upgrades, s.upgrades, UpgradeCatalog());
    SameUpgradesTransfer(s.upgrades, s.upgrades, UpgradeCatalog());
    ProducerCatalogIds();
    UpgradeCatalogIds();
    CountsRoundTrip(base.producers, s.producers);
    LevelsRoundTrip(base.upgrades, s.upgrades);
  }

  // ---------------------------------------------------------------------
  // Sequences of operations

  datatype Action =
    | Click
    | BuyProducer(producerId: string)
    | BuyUpgrade(upgradeId: string)
    | Update(deltaSeconds: real, now: real)
    | TriggerFrenzy(multiplier: real, msDuration: real, at: real)
    | SetTheme(themeName: string)
    | CheckUnlocks
    | Load(state: Option<Snapshot>)

  function Step(s: State, a: Action): State {
    match a
    case Click => Clicked(s)
    case BuyProducer(id) => ProducerPurchase(s, id).state
    case BuyUpgrade(id) => UpgradePurchase(s, id).state
    case Update(delta, now) => Advanced(s, delta, now)
    case TriggerFrenzy(m, d, now) => FrenzyTriggered(s, m, d, now)
    case SetTheme(t) => ThemeSet(s, t)
    case CheckUnlocks => WithUnlocks(s)
    case Load(st) => Restored(s, st)
  }

  function Run(s: State, actions: seq<Action>): State {
    if actions == [] then s else Step(Run(s, actions[..|actions| - 1]), actions[|actions| - 1])
  }

  lemma StepKeepsTables(s: State, a: Action)
    requires SameTables(s)
    ensures SameTables(Step(s, a))
  {
    match a {
      case BuyProducer(id) => ProducerPurchaseKeepsTables(s, id);
      case BuyUpgrade(id) => UpgradePurchaseKeepsTables(s, id);
      case Load(st) => RestoredKeepsTables(s, st);
      case _ =>
    }
  }

  lemma ProducerPurchaseKeepsTables(s: State, id: string)
    requires SameTables(s)
    ensures SameTables(ProducerPurchase(s, id).state)
  {
    if ProducerPurchase(s, id).ok {
      var t := ProducerPurchase(s, id).state;
      var i := IndexOf(ProducerIds(s.producers), id).value;
      assert SameProducers(CountUp(s.producers, i), s.producers);
      SameProducersTransfer(s.producers, s.producers, ProducerCatalog());
      SameProducersTransfer(t.producers, ProducerCatalog(), s.producers);
    }
  }

  lemma UpgradePurchaseKeepsTables(s: State, id: string)
    requires SameTables(s)
    ensures SameTables(UpgradePurchase(s, id).state)
  {
    if UpgradePurchase(s, id).ok {
      var t := UpgradePurchase(s, id).state;
      var i := IndexOf(UpgradeIds(s.upgrades), id).value;
      assert SameUpgrades(LevelUp(s.upgrades, i), s.upgrades);
      SameUpgradesTransfer(s.upgrades, s.upgrades, UpgradeCatalog());
      SameUpgradesTransfer(t.upgrades, UpgradeCatalog(), s.upgrades);
    }
  }

  lemma RestoredKeepsTables(s: State, st: Option<Snapshot>)
    requires SameTables(s)
    ensures SameTables(Restored(s, st))
  {
    var t := Restored(s, st);
    SameProducersTransfer(t.producers, ProducerCatalog(), s.producers);
    SameUpgradesTransfer(t.upgrades, UpgradeCatalog(), s.upgrades);
  }

  /** Every state reachable from a new game keeps the built-in tables. */
  lemma {:induction false} RunKeepsTables(s: State, actions: seq<Action>)
    requires SameTables(s)
    ensures SameTables(Run(s, actions))
  {
    if actions != [] {
      RunKeepsTables(s, actions[..|actions| - 1]);
      StepKeepsTables(Run(s, actions[..|actions| - 1]), actions[|actions| - 1]);
    }
  }

  /** Granted unlocks stay granted, in order, across every operation except
      `load`, which replaces the list. */
  lemma {:induction false} UnlocksOnlyGrow(s: State, actions: seq<Action>)
    requires forall i :: 0 <= i < |actions| ==> !actions[i].Load?
    ensures s.unlocks <= Run(s, actions).unlocks
  {
    if actions != [] {
      var n := |actions| - 1;
      UnlocksOnlyGrow(s, actions[..n]);
      var t := Run(s, actions[..n]);
      assert !actions[n].Load?;
      assert t.unlocks <= Step(t, actions[n]).unlocks;
    }
  }

  /** Whatever a player does, saving and loading into a new game gives back
      the same game, except that the frenzy is not saved. */
  lemma ReachableRoundTrip(actions: seq<Action>)
    ensures var s := Run(Fresh(), actions);
            Restored(Fresh(), Some(SnapshotOf(s)))
            == s.(theme := if s.theme != "" then s.theme else DefaultTheme, frenzy := Calm)
  {
    SameProducersTransfer(ProducerCatalog(), ProducerCatalog(), ProducerCatalog());
    SameUpgradesTransfer(UpgradeCatalog(), UpgradeCatalog(), UpgradeCatalog());
    RunKeepsTables(Fresh(), actions);
    RoundTrip(Fresh(), Run(Fresh(), actions));
  }

  // ---------------------------------------------------------------------
  // The mutable game object

  class Game {
    var cookies: real
    var producers: seq<Producer>
    var upgrades: seq<Upgrade>
    var unlocks: seq<string>
    var theme: string
    var frenzy: Frenzy

    /** The fields as a state value. */
    function Model(): State
      reads this
    {
      State(cookies, producers, upgrades, unlocks, theme, frenzy)
    }

    constructor ()
      ensures Model() == Fresh()
    {
      cookies := 0.0;
      theme := DefaultTheme;
      unlocks := [];
      upgrades := UpgradeCatalog();
      producers := ProducerCatalog();
      frenzy := Calm;
    }

    /** The loop of `getProducerMultiplier`. */
    method GetProducerMultiplier(producerId: string) returns (mult: real)
      ensures mult == ProducerMultiplier(upgrades, producerId)
    {
      mult := 1.0;
      var k := 0;
      while k < |upgrades|
        invariant k <= |upgrades|
        invariant mult == ProducerMultiplier(upgrades[..k], producerId)
      {
        var u := upgrades[k];
        assert upgrades[..k + 1][..k] == upgrades[..k];
        if u.effect.ProducerMult? && u.effect.target == producerId {
          mult := mult * Pow(u.effect.factor, u.level);
        }
        k := k + 1;
      }
      assert upgrades[..k] == upgrades;
    }

    method Click()
      modifies this
      ensures Model() == Clicked(old(Model()))
    {
      cookies := cookies + ClickValue(Model());
    }

    method BuyUpgrade(upgradeId: string) returns (ok: bool)
      modifies this
      ensures ok == UpgradePurchase(old(Model()), upgradeId).ok
      ensures Model() == UpgradePurchase(old(Model()), upgradeId).state
    {
      var found := IndexOf(UpgradeIds(upgrades), upgradeId);
      if found.None? {
        return false;
      }
      var i := found.value;
      var cost := UpgradeCost(upgrades[i]) as real;
      if !CanAfford(Model(), cost) {
        return false;
      }
      cookies := cookies - cost;
      upgrades := upgrades[i := upgrades[i].(level := upgrades[i].level + 1)];
      assert Model() == old(Model()).(cookies := old(cookies) - cost, upgrades := LevelUp(old(upgrades), i));
      CheckUnlocks();
      ok := true;
    }

    method BuyProducer(producerId: string) returns (ok: bool)
      modifies this
      ensures ok == ProducerPurchase(old(Model()), producerId).ok
      ensures Model() == ProducerPurchase(old(Model()), producerId).state
    {
      var found := IndexOf(ProducerIds(producers), producerId);
      if found.None? {
        return false;
      }
      var i := found.value;
      var cost := ProducerCost(producers[i]) as real;
      if !CanAfford(Model(), cost) {
        return false;
      }
      cookies := cookies - cost;
      producers := producers[i := producers[i].(count := producers[i].count + 1)];
      assert Model() == old(Model()).(cookies := old(cookies) - cost, producers := CountUp(old(producers), i));
      CheckUnlocks();
      ok := true;
    }

    /** `update(deltaSeconds)`, with the clock reading passed in as `now`. */
    method Update(deltaSeconds: real, now: real)
      modifies this
      ensures Model() == Advanced(old(Model()), deltaSeconds, now)
    {
      if frenzy.active && now >= frenzy.until {
        frenzy := Calm;
      }
      var t := Model();
      assert t == old(Model()).(frenzy := t.frenzy);
      cookies := cookies + CookiesPerSecond(t) * deltaSeconds;
      assert Model() == t.(cookies := t.cookies + CookiesPerSecond(t) * deltaSeconds);
    }

    method TriggerFrenzy(multiplier: real, msDuration: real, now: real)
      modifies this
      ensures Model() == FrenzyTriggered(old(Model()), multiplier, msDuration, now)
    {
      frenzy := Frenzy(true, multiplier, now + msDuration);
    }

    method SetTheme(newTheme: string)
      modifies this
      ensures Model() == ThemeSet(old(Model()), newTheme)
    {
      theme := newTheme;
    }

    method CheckUnlocks()
      modifies this
      ensures Model() == WithUnlocks(old(Model()))
    {
      var totalProducers := TotalProducerCount(producers);
      if totalProducers >= BuilderThreshold && BuilderUnlock !in unlocks {
        unlocks := unlocks + [BuilderUnlock];
      }
      if cookies >= RichThreshold && RichUnlock !in unlocks {
        unlocks := unlocks + [RichUnlock];
      }
    }

    /** The loop of `load` that copies saved counts onto the producers
        with the same id. */
    method LoadCounts(entries: seq<Entry>)
      modifies this
      ensures producers == ApplyCounts(old(producers), entries)
      ensures cookies == old(cookies) && upgrades == old(upgrades) && unlocks == old(unlocks)
      ensures theme == old(theme) && frenzy == old(frenzy)
    {
      var k := 0;
      while k < |entries|
        invariant k <= |entries|
        invariant producers == ApplyCounts(old(producers), entries[..k])
        invariant Model() == old(Model()).(producers := producers)
      {
        var e := entries[k];
        assert entries[..k + 1][..k] == entries[..k];
        var target := IndexOf(ProducerIds(producers), e.id);
        if target.Some? {
          var i := target.value;
          producers := producers[i := producers[i].(count := CountOrZero(e.value))];
        }
        k := k + 1;
      }
      assert entries[..k] == entries;
    }

    /** The loop of `load` that copies saved levels onto the upgrades with
        the same id. */
    method LoadLevels(entries: seq<Entry>)
      modifies this
      ensures upgrades == ApplyLevels(old(upgrades), entries)
      ensures cookies == old(cookies) && producers == old(producers) && unlocks == old(unlocks)
      ensures theme == old(theme) && frenzy == old(frenzy)
    {
      var k := 0;
      while k < |entries|
        invariant k <= |entries|
        invariant upgrades == ApplyLevels(old(upgrades), entries[..k])
        invariant Model() == old(Model()).(upgrades := upgrades)
      {
        var e := entries[k];
        assert entries[..k + 1][..k] == entries[..k];
        var target := IndexOf(UpgradeIds(upgrades), e.id);
        if target.Some? {
          var i := target.value;
          upgrades := upgrades[i := upgrades[i].(level := CountOrZero(e.value))];
        }
        k := k + 1;
      }
      assert entries[..k] == entries;
    }

    method Load(state: Option<Snapshot>)
      modifies this
      ensures Model() == Restored(old(Model()), state)
    {
      if state.None? {
        return;
      }
      var st := state.value;
      cookies := AmountOrZero(st.cookies);
      LoadLevels(st.upgrades);
      LoadCounts(st.producers);
      if st.theme.Some? && st.theme.value != "" {
        theme := st.theme.value;
      }
      if st.unlocks.Some? {
        unlocks := st.unlocks.value;
      }
    }
  }
}
