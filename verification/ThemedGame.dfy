/** The engine of main.js: currency with a lifetime total, the producer and
    upgrade tables, unlocks defined as data and evaluated after every
    change, and themes gated by those unlocks. As in FrenzyGame, `State` is
    the engine's state as a value, the functions over it say what each
    operation does, and `Game` performs the operations on mutable fields. */
module ThemedGame {
  import opened Entities

  const BaseClick: real := 1.0
  const ClassicTheme: string := "classic"

  function UpgradeCatalog(): seq<Upgrade> {
    [ Upgrade("u_click_1", 15.0, ClickAdd(1.0), 0),
      Upgrade("u_click_2", 75.0, ClickAdd(3.0), 0),
      Upgrade("u_p1_2x", 200.0, ProducerMult(2.0, "p1"), 0),
      Upgrade("u_p2_2x", 1000.0, ProducerMult(2.0, "p2"), 0),
      Upgrade("u_global_1_2x", 10000.0, GlobalMult(1.2), 0) ]
  }

  lemma UpgradeCatalogIds()
    ensures NoDup(UpgradeIds(UpgradeCatalog()))
  {
    var ids := UpgradeIds(UpgradeCatalog());
    assert ids == ["u_click_1", "u_click_2", "u_p1_2x", "u_p2_2x", "u_global_1_2x"];
  }

  // ---------------------------------------------------------------------
  // Unlock definitions and themes

  /** The kinds of unlock condition; none of them reads the unlock list. */
  datatype Condition =
    | TotalCookiesAtLeast(amount: real)
    | ClickValueAtLeast(amount: real)
    | ProducerTotalAtLeast(total: nat)
    | ProducerCountAtLeast(producerId: string, count: nat)

  datatype UnlockDef = UnlockDef(id: string, condition: Condition)

  function UnlockDefinitions(): seq<UnlockDef> {
    [ UnlockDef("unlock_starter", TotalCookiesAtLeast(100.0)),
      UnlockDef("unlock_click_master", ClickValueAtLeast(10.0)),
      UnlockDef("unlock_producer_guru", ProducerTotalAtLeast(25)),
      UnlockDef("unlock_theme_midnight", TotalCookiesAtLeast(1000.0)),
      UnlockDef("unlock_theme_forest", ProducerCountAtLeast("p3", 5)) ]
  }

  function DefIds(defs: seq<UnlockDef>): (ids: seq<string>)
    ensures |ids| == |defs|
  {
    seq(|defs|, i requires 0 <= i < |defs| => defs[i].id)
  }

  lemma UnlockDefinitionIds()
    ensures NoDup(DefIds(UnlockDefinitions()))
  {
    var ids := DefIds(UnlockDefinitions());
    assert ids == ["unlock_starter", "unlock_click_master", "unlock_producer_guru",
                   "unlock_theme_midnight", "unlock_theme_forest"];
  }

  /** An entry of `ThemeManager.THEMES`, without its CSS variables. */
  datatype ThemeDef = ThemeDef(id: string, unlockId: Option<string>)

  function Themes(): seq<ThemeDef> {
    [ ThemeDef("classic", None),
      ThemeDef("midnight", Some("unlock_theme_midnight")),
      ThemeDef("forest", Some("unlock_theme_forest")) ]
  }

  function ThemeIds(): (ids: seq<string>)
    ensures ids == ["classic", "midnight", "forest"]
  {
    seq(|Themes()|, i requires 0 <= i < |Themes()| => Themes()[i].id)
  }

  /** `ThemeManager.getTheme`: the theme with this id, if there is one. */
  function GetTheme(id: string): (r: Option<ThemeDef>)
    ensures r.Some? <==> id in ThemeIds()
    ensures r.Some? ==> r.value in Themes() && r.value.id == id
  {
    match IndexOf(ThemeIds(), id)
    case None => None
    case Some(i) => Some(Themes()[i])
  }

  /** A theme may be used when it exists and needs no unlock or its unlock
      has been granted. */
  function IsThemeUnlocked(unlocks: seq<string>, themeId: string): (b: bool)
    ensures themeId == ClassicTheme ==> b
    ensures themeId == "midnight" ==> (b <==> "unlock_theme_midnight" in unlocks)
    ensures themeId == "forest" ==> (b <==> "unlock_theme_forest" in unlocks)
    ensures themeId !in ThemeIds() ==> !b
  {
    match GetTheme(themeId)
    case None => false
    case Some(t) => t.unlockId.None? || t.unlockId.value in unlocks
  }

  lemma ThemeUnlockedMonotone(u: seq<string>, v: seq<string>, themeId: string)
    requires u <= v && IsThemeUnlocked(u, themeId)
    ensures IsThemeUnlocked(v, themeId)
  {
    var t := GetTheme(themeId).value;
    if t.unlockId.Some? {
      assert t.unlockId.value in u;
    }
  }

  // ---------------------------------------------------------------------
  // State and derived values

  datatype State = State(
    cookies: real,
    totalCookies: real,
    producers: seq<Producer>,
    upgrades: seq<Upgrade>,
    unlocks: seq<string>,
    theme: string)

  function Fresh(): State {
    State(0.0, 0.0, ProducerCatalog(), UpgradeCatalog(), [], ClassicTheme)
  }

  predicate SameTables(s: State) {
    SameProducers(s.producers, ProducerCatalog()) && SameUpgrades(s.upgrades, UpgradeCatalog())
  }

  function ClickValue(s: State): real {
    BaseClick + ClickBonus(s.upgrades)
  }

  function Cps(s: State): real {
    BaseProduction(s.producers, s.upgrades) * UpgradeGlobalMultiplier(s.upgrades)
  }

  predicate CanAfford(s: State, amount: real) {
    s.cookies >= amount
  }

  /** Before any upgrade is bought every multiplier is 1, so the rate is
      the plain sum of count * rate. */
  lemma CpsWithoutUpgrades(s: State, producerId: string)
    requires NoLevels(s.upgrades)
    ensures ProducerMultiplier(s.upgrades, producerId) == 1.0
    ensures UpgradeGlobalMultiplier(s.upgrades) == 1.0
    ensures Cps(s) == RawProduction(s.producers)
    ensures ClickValue(s) == BaseClick
  {
    NoLevelsNoEffect(s.upgrades, producerId);
    NoLevelsRawProduction(s.producers, s.upgrades);
  }

  // ---------------------------------------------------------------------
  // Unlocks

  function Holds(c: Condition, s: State): bool {
    match c
    case TotalCookiesAtLeast(a) => s.totalCookies >= a
    case ClickValueAtLeast(a) => ClickValue(s) >= a
    case ProducerTotalAtLeast(n) => TotalProducerCount(s.producers) >= n
    case ProducerCountAtLeast(pid, n) =>
      match IndexOf(ProducerIds(s.producers), pid)
      case None => false
      case Some(i) => s.producers[i].count >= n
  }

  /** The unlock list after the loop of `checkUnlocks` has run over `defs`. */
  function Granted(s: State, defs: seq<UnlockDef>): (r: seq<string>)
    ensures s.unlocks <= r
  {
    if defs == [] then s.unlocks
    else
      var u := Granted(s, defs[..|defs| - 1]);
      var d := defs[|defs| - 1];
      if d.id !in u && Holds(d.condition, s) then u + [d.id] else u
  }

  /** The ids of `defs` whose condition holds and that are not yet granted,
      in definition order. */
  function Pending(s: State, defs: seq<UnlockDef>): seq<string> {
    if defs == [] then []
    else
      var p := Pending(s, defs[..|defs| - 1]);
      var d := defs[|defs| - 1];
      if d.id !in s.unlocks && Holds(d.condition, s) then p + [d.id] else p
  }

  /** Pending holds every ungranted id whose condition holds, nothing
      already granted, only ids of definitions whose condition holds, and no
      duplicate when the definitions have none. */
  lemma PendingSpec(s: State, defs: seq<UnlockDef>)
    ensures forall k :: 0 <= k < |defs| && defs[k].id !in s.unlocks && Holds(defs[k].condition, s)
              ==> defs[k].id in Pending(s, defs)
    ensures forall x :: x in Pending(s, defs) ==> x !in s.unlocks
    ensures forall x :: x in Pending(s, defs) ==>
              exists k :: 0 <= k < |defs| && defs[k].id == x && Holds(defs[k].condition, s)
    ensures NoDup(DefIds(defs)) ==> NoDup(Pending(s, defs))
  {
    PendingComplete(s, defs);
    PendingSound(s, defs);
    PendingNoDup(s, defs);
  }

  /** Every satisfied, ungranted definition is pending, and nothing granted is. */
  lemma {:induction false} PendingComplete(s: State, defs: seq<UnlockDef>)
    ensures forall k :: 0 <= k < |defs| && defs[k].id !in s.unlocks && Holds(defs[k].condition, s)
              ==> defs[k].id in Pending(s, defs)
    ensures forall x :: x in Pending(s, defs) ==> x !in s.unlocks
  {
    if defs != [] {
      var n := |defs| - 1;
      PendingComplete(s, defs[..n]);
      assert forall k :: 0 <= k < n ==> defs[..n][k] == defs[k];
    }
  }

  /** Every pending id belongs to a definition whose condition holds. */
  lemma {:induction false} PendingSound(s: State, defs: seq<UnlockDef>)
    ensures forall x :: x in Pending(s, defs) ==>
              exists k :: 0 <= k < |defs| && defs[k].id == x && Holds(defs[k].condition, s)
  {
    if defs != [] {
      var n := |defs| - 1;
      PendingSound(s, defs[..n]);
      var p := Pending(s, defs[..n]);
      var d := defs[n];
      forall x | x in Pending(s, defs)
        ensures exists k :: 0 <= k < |defs| && defs[k].id == x && Holds(defs[k].condition, s)
      {
        if x in p {
          var k :| 0 <= k < n && defs[..n][k].id == x && Holds(defs[..n][k].condition, s);
          assert defs[k].id == x && Holds(defs[k].condition, s);
        } else {
          assert defs[n].id == x && Holds(defs[n].condition, s);
        }
      }
    }
  }

  /** Distinct definition ids give a pending list without duplicates. */
  lemma {:induction false} PendingNoDup(s: State, defs: seq<UnlockDef>)
    ensures NoDup(DefIds(defs)) ==> NoDup(Pending(s, defs))
  {
    if defs != [] && NoDup(DefIds(defs)) {
      var n := |defs| - 1;
      PendingNoDup(s, defs[..n]);
      PendingSound(s, defs[..n]);
      var p := Pending(s, defs[..n]);
      var d := defs[n];
      assert DefIds(defs[..n]) == DefIds(defs)[..n];
      forall x | x in p ensures x != d.id {
        var k :| 0 <= k < n && defs[..n][k].id == x && Holds(defs[..n][k].condition, s);
        assert DefIds(defs)[k] == x && DefIds(defs)[n] == d.id;
      }
      if d.id !in s.unlocks && Holds(d.condition, s) {
        NoDupAppend(p, [d.id]);
      }
    }
  }

  /** The loop of `checkUnlocks` appends exactly the pending ids. */
  lemma {:induction false} GrantedIsPending(s: State, defs: seq<UnlockDef>)
    requires NoDup(DefIds(defs))
    ensures Granted(s, defs) == s.unlocks + Pending(s, defs)
  {
    if defs != [] {
      var n := |defs| - 1;
      assert DefIds(defs[..n]) == DefIds(defs)[..n];
      GrantedIsPending(s, defs[..n]);
      PendingSpec(s, defs[..n]);
      var d := defs[n];
      var p := Pending(s, defs[..n]);
      forall k | 0 <= k < n
        ensures defs[..n][k].id != d.id
      {
        assert DefIds(defs)[k] == defs[k].id && DefIds(defs)[n] == d.id;
      }
      assert d.id !in p;
      assert d.id in s.unlocks + p <==> d.id in s.unlocks;
    }
  }

  /** Every definition whose condition holds has been granted. */
  predicate Settled(s: State) {
    forall k :: 0 <= k < |UnlockDefinitions()| && Holds(UnlockDefinitions()[k].condition, s)
      ==> UnlockDefinitions()[k].id in s.unlocks
  }

  /** Nothing is pending once every definition whose condition holds has
      been granted. */
  lemma {:induction false} NothingPending(s: State, defs: seq<UnlockDef>)
    requires forall k :: 0 <= k < |defs| && Holds(defs[k].condition, s) ==> defs[k].id in s.unlocks
    ensures Pending(s, defs) == []
  {
    if defs != [] {
      var n := |defs| - 1;
      assert forall k :: 0 <= k < n ==> defs[..n][k] == defs[k];
      NothingPending(s, defs[..n]);
    }
  }

  lemma SettledHasNothingPending(s: State)
    requires Settled(s)
    ensures Pending(s, UnlockDefinitions()) == []
  {
    NothingPending(s, UnlockDefinitions());
  }

  /** The state after `checkUnlocks`: only the unlock list changes, and it
      only grows. */
  function WithUnlocks(s: State): (r: State)
    ensures r.(unlocks := s.unlocks) == s
    ensures s.unlocks <= r.unlocks
  {
    s.(unlocks := Granted(s, UnlockDefinitions()))
  }

  /** `checkUnlocks` appends exactly the pending ids, leaves nothing pending
      and adds no duplicate. */
  lemma CheckUnlocksSettles(s: State)
    ensures WithUnlocks(s).unlocks == s.unlocks + Pending(s, UnlockDefinitions())
    ensures Settled(WithUnlocks(s))
    ensures NoDup(s.unlocks) ==> NoDup(WithUnlocks(s).unlocks)
  {
    UnlockDefinitionIds();
    GrantedIsPending(s, UnlockDefinitions());
    PendingSpec(s, UnlockDefinitions());
    var r := WithUnlocks(s);
    var p := Pending(s, UnlockDefinitions());
    assert forall k :: 0 <= k < |UnlockDefinitions()| ==>
             Holds(UnlockDefinitions()[k].condition, r) == Holds(UnlockDefinitions()[k].condition, s);
    assert NoDup(s.unlocks) ==> NoDup(s.unlocks + p) by {
      if NoDup(s.unlocks) { NoDupAppend(s.unlocks, p); }
    }
  }

  /** A second `checkUnlocks` right after the first grants nothing: no
      condition reads the unlock list. */
  lemma CheckUnlocksIdempotent(s: State)
    ensures Pending(WithUnlocks(s), UnlockDefinitions()) == []
    ensures WithUnlocks(WithUnlocks(s)) == WithUnlocks(s)
  {
    CheckUnlocksSettles(s);
    SettledHasNothingPending(WithUnlocks(s));
    CheckUnlocksSettles(WithUnlocks(s));
  }

  // ---------------------------------------------------------------------
  // Operations on the state value

  function Clicked(s: State): (r: State)
    ensures r.cookies == s.cookies + ClickValue(s)
    ensures r.totalCookies == s.totalCookies + ClickValue(s)
    ensures r.producers == s.producers && r.upgrades == s.upgrades && r.theme == s.theme
    ensures s.unlocks <= r.unlocks
    ensures r == WithUnlocks(r.(unlocks := s.unlocks))
  {
    var v := ClickValue(s);
    WithUnlocks(s.(cookies := s.cookies + v, totalCookies := s.totalCookies + v))
  }

  /** `click` is the currency step followed by `checkUnlocks`. */
  lemma ClickedUnlocks(s: State)
    ensures Clicked(s) == WithUnlocks(s.(cookies := s.cookies + ClickValue(s), totalCookies := s.totalCookies + ClickValue(s)))
  {
  }

  datatype Attempt = Attempt(ok: bool, state: State)

  function ProducerPurchase(s: State, id: string): (r: Attempt)
    ensures id !in ProducerIds(s.producers) ==> r == Attempt(false, s)
    ensures id in ProducerIds(s.producers) ==>
      var i := IndexOf(ProducerIds(s.producers), id).value;
      var cost := ProducerCost(s.producers[i]) as real;
      && r.ok == CanAfford(s, cost)
      && (!r.ok ==> r.state == s)
      && (r.ok ==> && r.state.cookies == s.cookies - cost
                   && r.state.cookies >= 0.0
                   && r.state.totalCookies == s.totalCookies
                   && r.state.producers == CountUp(s.producers, i)
                   && r.state.upgrades == s.upgrades
                   && r.state.theme == s.theme
                   && s.unlocks <= r.state.unlocks
                   && r.state == WithUnlocks(r.state.(unlocks := s.unlocks)))
  {
    match IndexOf(ProducerIds(s.producers), id)
    case None => Attempt(false, s)
    case Some(i) =>
      var cost := ProducerCost(s.producers[i]) as real;
      if !CanAfford(s, cost) then Attempt(false, s)
      else Attempt(true, WithUnlocks(s.(cookies := s.cookies - cost, producers := CountUp(s.producers, i))))
  }

  function UpgradePurchase(s: State, id: string): (r: Attempt)
    ensures id !in UpgradeIds(s.upgrades) ==> r == Attempt(false, s)
    ensures id in UpgradeIds(s.upgrades) ==>
      var i := IndexOf(UpgradeIds(s.upgrades), id).value;
      var cost := UpgradeCost(s.upgrades[i]) as real;
      && r.ok == CanAfford(s, cost)
      && (!r.ok ==> r.state == s)
      && (r.ok ==> && r.state.cookies == s.cookies - cost
                   && r.state.cookies >= 0.0
                   && r.state.totalCookies == s.totalCookies
                   && r.state.upgrades == LevelUp(s.upgrades, i)
                   && r.state.producers == s.producers
                   && r.state.theme == s.theme
                   && s.unlocks <= r.state.unlocks
                   && r.state == WithUnlocks(r.state.(unlocks := s.unlocks)))
  {
    match IndexOf(UpgradeIds(s.upgrades), id)
    case None => Attempt(false, s)
    case Some(i) =>
      var cost := UpgradeCost(s.upgrades[i]) as real;
      if !CanAfford(s, cost) then Attempt(false, s)
      else Attempt(true, WithUnlocks(s.(cookies := s.cookies - cost, upgrades := LevelUp(s.upgrades, i))))
  }

  /** `update(deltaSeconds)`: the same gain goes to `cookies` and
      `totalCookies`; then unlocks are checked. */
  function Advanced(s: State, delta: real): (r: State)
    ensures r.cookies == s.cookies + Cps(s) * delta
    ensures r.totalCookies == s.totalCookies + Cps(s) * delta
    ensures r.producers == s.producers && r.upgrades == s.upgrades && r.theme == s.theme
    ensures s.unlocks <= r.unlocks
    ensures r == WithUnlocks(r.(unlocks := s.unlocks))
  {
    var rate := Cps(s);
    var a := Accrued(s, rate, delta);
    assert a.cookies == s.cookies + rate * delta && a.totalCookies == s.totalCookies + rate * delta;
    WithUnlocks(a)
  }

  /** The currency part of `update` at production rate `rate`: the same
      gain goes to both counters. */
  function Accrued(s: State, rate: real, delta: real): State {
    var gained := rate * delta;
    s.(cookies := s.cookies + gained, totalCookies := s.totalCookies + gained)
  }

  /** With counts and levels fixed, two updates accrue the same currency as
      one update over the summed interval. */
  lemma AdvanceAdditive(s: State, a: real, b: real)
    ensures Advanced(Advanced(s, a), b).cookies == Advanced(s, a + b).cookies
    ensures Advanced(Advanced(s, a), b).totalCookies == Advanced(s, a + b).totalCookies
  {
    var t := Advanced(s, a);
    SameTablesSameCps(s, t);
    AccrueAdditive(s, WithUnlocks(Accrued(s, Cps(s), a)), Cps(s), a, b);
  }

  lemma SameTablesSameCps(s: State, t: State)
    requires t.producers == s.producers && t.upgrades == s.upgrades
    ensures Cps(t) == Cps(s)
  {
  }

  /** At a fixed rate, accruing over `a` (whatever else changes in between)
      and then over `b` gives the currency accruing over `a + b` gives. */
  lemma AccrueAdditive(s: State, t: State, rate: real, a: real, b: real)
    requires t.cookies == Accrued(s, rate, a).cookies
    requires t.totalCookies == Accrued(s, rate, a).totalCookies
    ensures Accrued(t, rate, b).cookies == Accrued(s, rate, a + b).cookies
    ensures Accrued(t, rate, b).totalCookies == Accrued(s, rate, a + b).totalCookies
  {
  }

  /** `setTheme(themeId)`: accepted exactly when the theme is unlocked. */
  function ThemeSet(s: State, themeId: string): (r: Attempt)
    ensures r.ok <==> IsThemeUnlocked(s.unlocks, themeId)
    ensures !r.ok ==> r.state == s
    ensures r.ok ==> r.state == s.(theme := themeId)
  {
    if IsThemeUnlocked(s.unlocks, themeId) then Attempt(true, s.(theme := themeId)) else Attempt(false, s)
  }

  // ---------------------------------------------------------------------
  // Snapshots

  datatype Snapshot = Snapshot(
    cookies: Numeric<real>,
    totalCookies: Numeric<real>,
    theme: Option<string>,
    unlocks: Option<seq<string>>,
    producers: seq<Entry>,
    upgrades: seq<Entry>)

  function SnapshotOf(s: State): Snapshot {
    Snapshot(Num(s.cookies), Num(s.totalCookies), Some(s.theme), Some(s.unlocks),
             CountEntries(s.producers), LevelEntries(s.upgrades))
  }

  /** `Number(state.totalCookies) || this.cookies`. */
  function TotalOrCookies(v: Numeric<real>, cookies: real): (r: real)
    ensures v.NaN? || v.value == 0.0 ==> r == cookies
    ensures v.Num? && v.value != 0.0 ==> r == v.value
  {
    match v
    case NaN => cookies
    case Num(x) => if x != 0.0 then x else cookies
  }

  /** The state after the merge of `load`, before its unlock check. */
  function Merged(s: State, st: Snapshot): (r: State)
    ensures SameProducers(r.producers, s.producers) && SameUpgrades(r.upgrades, s.upgrades)
    ensures st.unlocks.Some? ==> NoDup(r.unlocks)
    ensures st.unlocks.None? ==> r.unlocks == s.unlocks
    ensures r.cookies == AmountOrZero(st.cookies)
    ensures r.totalCookies == TotalOrCookies(st.totalCookies, r.cookies)
    ensures st.theme.Some? && st.theme.value in ThemeIds() ==> r.theme == st.theme.value
    ensures st.theme.None? || st.theme.value !in ThemeIds() ==> r.theme == s.theme
  {
    ApplyCountsSameTable(s.producers, st.producers);
    ApplyLevelsSameTable(s.upgrades, st.upgrades);
    var cookies := AmountOrZero(st.cookies);
    State(
      cookies,
      TotalOrCookies(st.totalCookies, cookies),
      ApplyCounts(s.producers, st.producers),
      ApplyLevels(s.upgrades, st.upgrades),
      if st.unlocks.Some? then Dedupe(st.unlocks.value) else s.unlocks,
      if st.theme.Some? && st.theme.value != "" && GetTheme(st.theme.value).Some? then st.theme.value
      else s.theme)
  }

  /** `load(state)`: merge, re-check unlocks, and fall back to the classic
      theme if the chosen one is not unlocked. */
  function Restored(s: State, state: Option<Snapshot>): (r: State)
    ensures state.None? ==> r == s
    ensures SameProducers(r.producers, s.producers) && SameUpgrades(r.upgrades, s.upgrades)
    ensures state.Some? ==> IsThemeUnlocked(r.unlocks, r.theme)
    ensures state.Some? ==>
      var m := Merged(s, state.value);
      && r.(unlocks := m.unlocks, theme := m.theme) == m
      && r.unlocks == WithUnlocks(m).unlocks
      && r.theme == (if IsThemeUnlocked(r.unlocks, m.theme) then m.theme else ClassicTheme)
  {
    match state
    case None => s
    case Some(st) =>
      var u := WithUnlocks(Merged(s, st));
      u.(theme := if IsThemeUnlocked(u.unlocks, u.theme) then u.theme else ClassicTheme)
  }

  /** After a `load` nothing is pending, and the unlock list has no
      duplicate when either the saved list or the old one had none. */
  lemma RestoredSettles(s: State, state: Option<Snapshot>)
    requires state.Some?
    ensures Settled(Restored(s, state))
    ensures NoDup(s.unlocks) || state.value.unlocks.Some? ==> NoDup(Restored(s, state).unlocks)
  {
    CheckUnlocksSettles(Merged(s, state.value));
  }

  /** The invariant every reachable state keeps. */
  predicate Invariant(s: State) {
    SameTables(s) && NoDup(s.unlocks) && Settled(s) && IsThemeUnlocked(s.unlocks, s.theme)
  }

  /** Loading what `serialize` wrote restores the saved state, except that a
      zero `totalCookies` comes back as `cookies` (and may then grant
      unlocks); a non-zero one comes back unchanged, and then so does the
      whole state. */
  lemma RoundTrip(base: State, s: State)
    requires SameTables(base) && Invariant(s)
    ensures Restored(base, Some(SnapshotOf(s)))
         == WithUnlocks(s.(totalCookies := if s.totalCookies != 0.0 then s.totalCookies else s.cookies))
    ensures s.totalCookies != 0.0 ==> Restored(base, Some(SnapshotOf(s))) == s
  {
    SameProducersTransfer(base.producers, s.producers, ProducerCatalog());
    SameProducersTransfer(s.producers, s.producers, ProducerCatalog());
    SameUpgradesTransfer(base.upgrades, s.upgrades, UpgradeCatalog());
    SameUpgradesTransfer(s.upgrades, s.upgrades, UpgradeCatalog());
    ProducerCatalogIds();
    UpgradeCatalogIds();
    CountsRoundTrip(base.producers, s.producers);
    LevelsRoundTrip(base.upgrades, s.upgrades);
    var t := s.(totalCookies := if s.totalCookies != 0.0 then s.totalCookies else s.cookies);
    assert GetTheme(s.theme).Some?;
    assert Merged(base, SnapshotOf(s)) == t;
    var u := WithUnlocks(t);
    ThemeUnlockedMonotone(s.unlocks, u.unlocks, s.theme);
    if s.totalCookies != 0.0 {
      assert t == s;
      SettledHasNothingPending(s);
      CheckUnlocksSettles(s);
    }
  }

  // ---------------------------------------------------------------------
  // Sequences of operations

  datatype Action =
    | Click
    | BuyProducer(producerId: string)
    | BuyUpgrade(upgradeId: string)
    | Update(deltaSeconds: real)
    | SetTheme(themeId: string)
    | CheckUnlocks
    | Load(state: Option<Snapshot>)

  function Step(s: State, a: Action): State {
    match a
    case Click => Clicked(s)
    case BuyProducer(id) => ProducerPurchase(s, id).state
    case BuyUpgrade(id) => UpgradePurchase(s, id).state
    case Update(delta) => Advanced(s, delta)
    case SetTheme(id) => ThemeSet(s, id).state
    case CheckUnlocks => WithUnlocks(s)
    case Load(st) => Restored(s, st)
  }

  function Run(s: State, actions: seq<Action>): State {
    if actions == [] then s else Step(Run(s, actions[..|actions| - 1]), actions[|actions| - 1])
  }

  lemma FreshInvariant()
    ensures Invariant(Fresh())
  {
    var s := Fresh();
    SameProducersTransfer(ProducerCatalog(), ProducerCatalog(), ProducerCatalog());
    SameUpgradesTransfer(UpgradeCatalog(), UpgradeCatalog(), UpgradeCatalog());
    NoLevelsNoEffect(s.upgrades, "p3");
    assert forall i :: 0 <= i < |s.producers| ==> s.producers[i].count == 0;
    NoCountsNoTotal(s.producers);
  }

  lemma StepKeepsInvariant(s: State, a: Action)
    requires Invariant(s)
    ensures Invariant(Step(s, a))
  {
    match a {
      case Click =>
        ClickedUnlocks(s);
        UnlockCheckKeepsInvariant(s.(cookies := s.cookies + ClickValue(s), totalCookies := s.totalCookies + ClickValue(s)));
      case BuyProducer(id) => ProducerPurchaseKeepsInvariant(s, id);
      case BuyUpgrade(id) => UpgradePurchaseKeepsInvariant(s, id);
      case Update(delta) => UnlockCheckKeepsInvariant(Accrued(s, Cps(s), delta));
      case SetTheme(id) => assert Settled(Step(s, a));
      case CheckUnlocks => UnlockCheckKeepsInvariant(s);
      case Load(st) => RestoredKeepsInvariant(s, st);
    }
  }

  /** `checkUnlocks` turns any state with the built-in tables, no duplicate
      unlock and an unlocked theme into one that keeps the invariant. */
  lemma UnlockCheckKeepsInvariant(x: State)
    requires SameTables(x) && NoDup(x.unlocks) && IsThemeUnlocked(x.unlocks, x.theme)
    ensures Invariant(WithUnlocks(x))
  {
    CheckUnlocksSettles(x);
    ThemeUnlockedMonotone(x.unlocks, WithUnlocks(x).unlocks, x.theme);
  }

  lemma ProducerPurchaseKeepsInvariant(s: State, id: string)
    requires Invariant(s)
    ensures Invariant(ProducerPurchase(s, id).state)
  {
    if ProducerPurchase(s, id).ok {
      var i := IndexOf(ProducerIds(s.producers), id).value;
      var x := s.(cookies := s.cookies - ProducerCost(s.producers[i]) as real, producers := CountUp(s.producers, i));
      assert SameProducers(x.producers, s.producers);
      SameProducersTransfer(s.producers, s.producers, ProducerCatalog());
      SameProducersTransfer(x.producers, ProducerCatalog(), s.producers);
      UnlockCheckKeepsInvariant(x);
    }
  }

  lemma UpgradePurchaseKeepsInvariant(s: State, id: string)
    requires Invariant(s)
    ensures Invariant(UpgradePurchase(s, id).state)
  {
    if UpgradePurchase(s, id).ok {
      var i := IndexOf(UpgradeIds(s.upgrades), id).value;
      var x := s.(cookies := s.cookies - UpgradeCost(s.upgrades[i]) as real, upgrades := LevelUp(s.upgrades, i));
      assert SameUpgrades(x.upgrades, s.upgrades);
      SameUpgradesTransfer(s.upgrades, s.upgrades, UpgradeCatalog());
      SameUpgradesTransfer(x.upgrades, UpgradeCatalog(), s.upgrades);
      UnlockCheckKeepsInvariant(x);
    }
  }

  lemma RestoredKeepsInvariant(s: State, st: Option<Snapshot>)
    requires Invariant(s)
    ensures Invariant(Restored(s, st))
  {
    if st.Some? {
      var t := Restored(s, st);
      SameProducersTransfer(s.producers, s.producers, ProducerCatalog());
      SameUpgradesTransfer(s.upgrades, s.upgrades, UpgradeCatalog());
      SameProducersTransfer(t.producers, ProducerCatalog(), s.producers);
      SameUpgradesTransfer(t.upgrades, UpgradeCatalog(), s.upgrades);
      RestoredSettles(s, st);
    }
  }

  /** Every state reachable from a new game satisfies the invariant: no
      duplicate unlock, nothing pending, the current theme unlocked. */
  lemma {:induction false} RunKeepsInvariant(actions: seq<Action>)
    ensures Invariant(Run(Fresh(), actions))
  {
    if actions == [] {
      FreshInvariant();
    } else {
      RunKeepsInvariant(actions[..|actions| - 1]);
      StepKeepsInvariant(Run(Fresh(), actions[..|actions| - 1]), actions[|actions| - 1]);
    }
  }

  /** Granted unlocks stay granted, in order, across every operation except
      `load`, which replaces the list. */
  lemma {:induction false} UnlocksOnlyGrow(s: State, actions: seq<Action>)
    requires forall i :: 0 <= i < |actions| ==> !actions[i].Load?
    ensures s.unlocks <= Run(s, actions).unlocks
  {
    if actions != [] {
      var n := |actions| - 1;
      UnlocksOnlyGrow(s, actions[..n]);
      var t := Run(s, actions[..n]);
      assert !actions[n].Load?;
      assert t.unlocks <= Step(t, actions[n]).unlocks;
    }
  }

  /** Whatever a player does, saving and loading into a new game gives back
      the same game, provided the lifetime total is non-zero. */
  lemma ReachableRoundTrip(actions: seq<Action>)
    ensures var s := Run(Fresh(), actions);
            s.totalCookies != 0.0 ==> Restored(Fresh(), Some(SnapshotOf(s))) == s
  {
    FreshInvariant();
    RunKeepsInvariant(actions);
    RoundTrip(Fresh(), Run(Fresh(), actions));
  }

  // ---------------------------------------------------------------------
  // The mutable game object

  class Game {
    var cookies: real
    var totalCookies: real
    var producers: seq<Producer>
    var upgrades: seq<Upgrade>
    var unlocks: seq<string>
    var theme: string

    function Model(): State
      reads this
    {
      State(cookies, totalCookies, producers, upgrades, unlocks, theme)
    }

    constructor ()
      ensures Model() == Fresh()
    {
      cookies := 0.0;
      totalCookies := 0.0;
      theme := ClassicTheme;
      unlocks := [];
      producers := ProducerCatalog();
      upgrades := UpgradeCatalog();
    }

    method Click()
      modifies this
      ensures Model() == Clicked(old(Model()))
    {
      var before := Model();
      var v := ClickValue(before);
      var clicked := before.(cookies := before.cookies + v, totalCookies := before.totalCookies + v);
      cookies := cookies + v;
      totalCookies := totalCookies + v;
      assert Model() == clicked;
      ClickedUnlocks(before);
      var _ := CheckUnlocks();
    }

    method BuyProducer(id: string) returns (ok: bool)
      modifies this
      ensures ok == ProducerPurchase(old(Model()), id).ok
      ensures Model() == ProducerPurchase(old(Model()), id).state
    {
      var found := IndexOf(ProducerIds(producers), id);
      if found.None? {
        return false;
      }
      var i := found.value;
      var cost := ProducerCost(producers[i]) as real;
      if !CanAfford(Model(), cost) {
        return false;
      }
      cookies := cookies - cost;
      producers := producers[i := producers[i].(count := producers[i].count + 1)];
      assert Model() == old(Model()).(cookies := old(cookies) - cost, producers := CountUp(old(producers), i));
      var _ := CheckUnlocks();
      ok := true;
    }

    method BuyUpgrade(id: string) returns (ok: bool)
      modifies this
      ensures ok == UpgradePurchase(old(Model()), id).ok
      ensures Model() == UpgradePurchase(old(Model()), id).state
    {
      var found := IndexOf(UpgradeIds(upgrades), id);
      if found.None? {
        return false;
      }
      var i := found.value;
      var cost := UpgradeCost(upgrades[i]) as real;
      if !CanAfford(Model(), cost) {
        return false;
      }
      cookies := cookies - cost;
      upgrades := upgrades[i := upgrades[i].(level := upgrades[i].level + 1)];
      assert Model() == old(Model()).(cookies := old(cookies) - cost, upgrades := LevelUp(old(upgrades), i));
      var _ := CheckUnlocks();
      ok := true;
    }

    method Update(deltaSeconds: real)
      modifies this
      ensures Model() == Advanced(old(Model()), deltaSeconds)
    {
      var before := Model();
      var gained := Cps(before) * deltaSeconds;
      cookies := cookies + gained;
      totalCookies := totalCookies + gained;
      assert Model() == Accrued(before, Cps(before), deltaSeconds);
      var _ := CheckUnlocks();
    }

    method SetTheme(themeId: string) returns (ok: bool)
      modifies this
      ensures ok == ThemeSet(old(Model()), themeId).ok
      ensures Model() == ThemeSet(old(Model()), themeId).state
    {
      if !IsThemeUnlocked(unlocks, themeId) {
        return false;
      }
      theme := themeId;
      ok := true;
    }

    /** The loop of `checkUnlocks`, which reports whether it granted anything. */
    method CheckUnlocks() returns (changed: bool)
      modifies this
      ensures Model() == WithUnlocks(old(Model()))
      ensures changed <==> Pending(old(Model()), UnlockDefinitions()) != []
    {
      changed := false;
      var defs := UnlockDefinitions();
      var k := 0;
      while k < |defs|
        invariant k <= |defs|
        invariant unlocks == Granted(old(Model()), defs[..k])
        invariant Model() == old(Model()).(unlocks := unlocks)
        invariant changed <==> unlocks != old(unlocks)
      {
        var d := defs[k];
        assert defs[..k + 1][..k] == defs[..k];
        if d.id !in unlocks && Holds(d.condition, Model()) {
          unlocks := unlocks + [d.id];
          changed := true;
        }
        k := k + 1;
      }
      assert defs[..k] == defs;
      UnlockDefinitionIds();
      GrantedIsPending(old(Model()), defs);
    }

    /** The loop of `load` that copies saved counts onto the producers
        with the same id. */
    method LoadCounts(entries: seq<Entry>)
      modifies this
      ensures producers == ApplyCounts(old(producers), entries)
      ensures cookies == old(cookies) && totalCookies == old(totalCookies) && upgrades == old(upgrades)
      ensures unlocks == old(unlocks) && theme == old(theme)
    {
      var k := 0;
      while k < |entries|
        invariant k <= |entries|
        invariant producers == ApplyCounts(old(producers), entries[..k])
        invariant Model() == old(Model()).(producers := producers)
      {
        var e := entries[k];
        assert entries[..k + 1][..k] == entries[..k];
        var target := IndexOf(ProducerIds(producers), e.id);
        if target.Some? {
          var i := target.value;
          producers := producers[i := producers[i].(count := CountOrZero(e.value))];
        }
        k := k + 1;
      }
      assert entries[..k] == entries;
    }

    /** The loop of `load` that copies saved levels onto the upgrades with
        the same id. */
    method LoadLevels(entries: seq<Entry>)
      modifies this
      ensures upgrades == ApplyLevels(old(upgrades), entries)
      ensures cookies == old(cookies) && totalCookies == old(totalCookies) && producers == old(producers)
      ensures unlocks == old(unlocks) && theme == old(theme)
    {
      var k := 0;
      while k < |entries|
        invariant k <= |entries|
        invariant upgrades == ApplyLevels(old(upgrades), entries[..k])
        invariant Model() == old(Model()).(upgrades := upgrades)
      {
        var e := entries[k];
        assert entries[..k + 1][..k] == entries[..k];
        var target := IndexOf(UpgradeIds(upgrades), e.id);
        if target.Some? {
          var i := target.value;
          upgrades := upgrades[i := upgrades[i].(level := CountOrZero(e.value))];
        }
        k := k + 1;
      }
      assert entries[..k] == entries;
    }

    method Load(state: Option<Snapshot>)
      modifies this
      ensures Model() == Restored(old(Model()), state)
    {
      if state.None? {
        return;
      }
      var st := state.value;
      cookies := AmountOrZero(st.cookies);
      totalCookies := TotalOrCookies(st.totalCookies, cookies);
      LoadCounts(st.producers);
      LoadLevels(st.upgrades);
      if st.unlocks.Some? {
        unlocks := Dedupe(st.unlocks.value);
      }
      if st.theme.Some? && st.theme.value != "" && GetTheme(st.theme.value).Some? {
        theme := st.theme.value;
      }
      var merged := Merged(old(Model()), st);
      assert Model() == merged;
      var _ := CheckUnlocks();
      assert Model() == WithUnlocks(merged);
      if !IsThemeUnlocked(unlocks, theme) {
        theme := ClassicTheme;
      }
    }
  }
}
