/** The economy of the pit-stop game: one record of counters and multipliers,
    three cost curves, three guarded purchases, income and ticking, and the two
    resets. The transitions are first written as functions on a value record
    (GameState); the class PitStopGame then updates its own fields step by step
    and is proved to move exactly as those functions say. */
module Engine {
  import opened Json
  import opened RealMath

  // ---------------------------------------------------------------------------
  // State
  // ---------------------------------------------------------------------------

  /** Every field of a game, as `get_state` exposes them. */
  datatype GameState = GameState(
    currency: real,
    gasPumps: int,
    gasPumpLevel: int,
    storeLevel: int,
    incomePerSecond: real,
    remodelCount: int,
    prestigeCount: int,
    remodelMultiplier: real,
    prestigeMultiplier: real)

  /** The factor a remodel applies to the remodel multiplier. */
  const RemodelBonus: real := 1.1
  /** The factor a prestige applies to the prestige multiplier. */
  const PrestigeBonus: real := 2.0

  /** The defaults every game starts from. */
  function Fresh(): GameState
  {
    GameState(0.0, 1, 1, 1, 0.0, 0, 0, 1.0, 1.0)
  }

  /** The state every reachable game keeps: no debt, every track owned at least
      once, non-negative counts and income, multipliers never below one. */
  predicate Valid(s: GameState)
  {
    && s.currency >= 0.0
    && s.gasPumps >= 1
    && s.gasPumpLevel >= 1
    && s.storeLevel >= 1
    && s.incomePerSecond >= 0.0
    && s.remodelCount >= 0
    && s.prestigeCount >= 0
    && s.remodelMultiplier >= 1.0
    && s.prestigeMultiplier >= 1.0
  }

  // ---------------------------------------------------------------------------
  // The record view (`get_state`) and hydration from a record (`__init__`)
  // ---------------------------------------------------------------------------

  const RealFields: set<string> :=
    {"currency", "income_per_second", "remodel_multiplier", "prestige_multiplier"}
  const IntFields: set<string> :=
    {"gas_pumps", "gas_pump_level", "store_level", "remodel_count", "prestige_count"}
  const FieldNames: set<string> := RealFields + IntFields

  /** The field-named record of a state. */
  function StateRecord(s: GameState): (r: Record)
    ensures r.Keys == FieldNames
    ensures forall k :: k in RealFields ==> r[k].VReal?
    ensures forall k :: k in IntFields ==> r[k].VInt?
  {
    map[
      "currency" := VReal(s.currency),
      "gas_pumps" := VInt(s.gasPumps),
      "gas_pump_level" := VInt(s.gasPumpLevel),
      "store_level" := VInt(s.storeLevel),
      "income_per_second" := VReal(s.incomePerSecond),
      "remodel_count" := VInt(s.remodelCount),
      "prestige_count" := VInt(s.prestigeCount),
      "remodel_multiplier" := VReal(s.remodelMultiplier),
      "prestige_multiplier" := VReal(s.prestigeMultiplier)]
  }

  /** What a supplied value becomes once it lands on field `key`: a number
      field takes an integer or a real (an integer read as a real), a count
      field takes an integer; anything else is not accepted. */
  function Accepted(key: string, v: Value): Option<Value>
  {
    if key in RealFields then
      match v
      case VReal(_) => Some(v)
      case VInt(i) => Some(VReal(i as real))
      case VStr(_) => None
    else
      match v
      case VInt(_) => Some(v)
      case _ => None
  }

  function RealField(d: Record, key: string, default: real): real
    requires key in RealFields
  {
    if key in d && Accepted(key, d[key]).Some? then Accepted(key, d[key]).value.r else default
  }

  function IntField(d: Record, key: string, default: int): int
    requires key !in RealFields
  {
    if key in d && Accepted(key, d[key]).Some? then Accepted(key, d[key]).value.i else default
  }

  /** The fields of `base`, each replaced by the value `d` supplies for it. */
  function Overlay(base: GameState, d: Record): GameState
  {
    GameState(
      RealField(d, "currency", base.currency),
      IntField(d, "gas_pumps", base.gasPumps),
      IntField(d, "gas_pump_level", base.gasPumpLevel),
      IntField(d, "store_level", base.storeLevel),
      RealField(d, "income_per_second", base.incomePerSecond),
      IntField(d, "remodel_count", base.remodelCount),
      IntField(d, "prestige_count", base.prestigeCount),
      RealField(d, "remodel_multiplier", base.remodelMultiplier),
      RealField(d, "prestige_multiplier", base.prestigeMultiplier))
  }

  /** A new game: the defaults, overlaid with whatever a non-empty supplied
      record holds. */
  function Hydrate(data: Option<Record>): (r: GameState)
    ensures data.None? ==> r == Fresh()
    ensures data.Some? ==> r == Overlay(Fresh(), data.value)
  {
    match data
    case None => Fresh()
    case Some(d) => if d == map[] then Fresh() else Overlay(Fresh(), d)
  }

  /** Without data, and with an empty record, a game starts from the defaults:
      no currency, one pump at level one, store level one, no income, no
      remodels or prestiges, both multipliers one. */
  lemma HydrateDefaults(d: Record)
    requires d == map[]
    ensures Hydrate(None) == Hydrate(Some(d))
    ensures var s := Hydrate(None);
      && s.currency == 0.0 && s.gasPumps == 1 && s.gasPumpLevel == 1 && s.storeLevel == 1
      && s.incomePerSecond == 0.0 && s.remodelCount == 0 && s.prestigeCount == 0
      && s.remodelMultiplier == 1.0 && s.prestigeMultiplier == 1.0
      && Valid(s)
  {
  }

  /** Hydration overlays field by field: a field the record supplies with an
      accepted value takes that value, every other field keeps its default. */
  lemma HydrateOverlay(d: Record, key: string)
    requires key in FieldNames
    ensures StateRecord(Hydrate(Some(d)))[key] ==
      if key in d && Accepted(key, d[key]).Some? then Accepted(key, d[key]).value
      else StateRecord(Fresh())[key]
  {
    var s := Hydrate(Some(d));
    if d != map[] {
      if key in d && Accepted(key, d[key]).Some? {
        var v := Accepted(key, d[key]).value;
        if key in RealFields {
          assert v == VReal(v.r);
        } else {
          assert v == VInt(v.i);
        }
      }
    }
  }

  /** Hydrating from a state's own record gives that state back. */
  lemma HydrateStateRecord(s: GameState)
    ensures Hydrate(Some(StateRecord(s))) == s
  {
    var d := StateRecord(s);
    assert "currency" in d;
  }

  // ---------------------------------------------------------------------------
  // Costs: ceil(base * rate^(level - 1))
  // ---------------------------------------------------------------------------

  function CostCurve(base: real, rate: real, level: int): int
    requires rate > 0.0
  {
    Ceil(base * IntPow(rate, level - 1))
  }

  /** Each step up a curve costs strictly more, once base * (rate - 1) is at
      least one unit. */
  lemma CostCurveGrows(base: real, rate: real, level: int)
    requires rate >= 1.0 && level >= 1
    requires base * (rate - 1.0) >= 1.0
    ensures CostCurve(base, rate, level) < CostCurve(base, rate, level + 1)
  {
    var p := IntPow(rate, level - 1);
    IntPowSucc(rate, level - 1);
    assert IntPow(rate, level) == rate * p;
    var x, y := base * p, base * (rate * p);
    var k := base * (rate - 1.0);
    assert y - x == k * p;
    assert k * p - k == k * (p - 1.0);
    assert k * (p - 1.0) >= 0.0;
    CeilGap(x, y);
  }

  /** The price of the next pump. */
  function PumpCostAt(gasPumps: int): (c: int)
    ensures c >= 1
    ensures gasPumps >= 1 ==> c >= 50
  {
    CostCurve(50.0, 1.15, gasPumps)
  }

  /** The price of the next pump level. */
  function UpgradePumpCostAt(gasPumpLevel: int): (c: int)
    ensures c >= 1
    ensures gasPumpLevel >= 1 ==> c >= 10
  {
    CostCurve(10.0, 1.25, gasPumpLevel)
  }

  /** The price of the next store level. */
  function UpgradeStoreCostAt(storeLevel: int): (c: int)
    ensures c >= 1
    ensures storeLevel >= 1 ==> c >= 20
  {
    CostCurve(20.0, 1.20, storeLevel)
  }

  /** A fresh game prices the next pump at 50, the next pump level at 10 and
      the next store level at 20, and every price rises with its level. */
  lemma CostsOfLevels(level: int)
    requires level >= 1
    ensures PumpCostAt(1) == 50 && UpgradePumpCostAt(1) == 10 && UpgradeStoreCostAt(1) == 20
    ensures PumpCostAt(level) < PumpCostAt(level + 1)
    ensures UpgradePumpCostAt(level) < UpgradePumpCostAt(level + 1)
    ensures UpgradeStoreCostAt(level) < UpgradeStoreCostAt(level + 1)
  {
    CeilOfInt(50);
    CeilOfInt(10);
    CeilOfInt(20);
    CostCurveGrows(50.0, 1.15, level);
    CostCurveGrows(10.0, 1.25, level);
    CostCurveGrows(20.0, 1.20, level);
  }

  // ---------------------------------------------------------------------------
  // Purchases
  // ---------------------------------------------------------------------------

  /** The three upgradeable tracks: the number of pumps, the pump level, the
      store level. */
  datatype Track = Pumps | PumpLevel | Store

  function Level(s: GameState, t: Track): int
  {
    match t
    case Pumps => s.gasPumps
    case PumpLevel => s.gasPumpLevel
    case Store => s.storeLevel
  }

  function WithLevel(s: GameState, t: Track, v: int): GameState
  {
    match t
    case Pumps => s.(gasPumps := v)
    case PumpLevel => s.(gasPumpLevel := v)
    case Store => s.(storeLevel := v)
  }

  /** The price of the next step on track t. */
  function Cost(s: GameState, t: Track): int
  {
    match t
    case Pumps => PumpCostAt(s.gasPumps)
    case PumpLevel => UpgradePumpCostAt(s.gasPumpLevel)
    case Store => UpgradeStoreCostAt(s.storeLevel)
  }

  /** Everything a purchase or a reset of the tracks leaves alone. */
  predicate SameProgress(a: GameState, b: GameState)
  {
    && a.incomePerSecond == b.incomePerSecond
    && a.remodelCount == b.remodelCount
    && a.prestigeCount == b.prestigeCount
    && a.remodelMultiplier == b.remodelMultiplier
    && a.prestigeMultiplier == b.prestigeMultiplier
  }

  datatype Purchase = Purchase(ok: bool, after: GameState)

  /** A guarded purchase on track t. */
  function Purchased(s: GameState, t: Track): (r: Purchase)
    ensures r.ok <==> s.currency >= Cost(s, t) as real
    ensures r.ok ==>
      && r.after.currency == s.currency - Cost(s, t) as real
      && Level(r.after, t) == Level(s, t) + 1
      && (forall u :: u != t ==> Level(r.after, u) == Level(s, u))
      && SameProgress(r.after, s)
    ensures !r.ok ==> r.after == s
    ensures s.currency >= 0.0 ==> r.after.currency >= 0.0
    ensures Valid(s) ==> Valid(r.after)
  {
    var cost := Cost(s, t);
    if s.currency >= cost as real then
      Purchase(true, WithLevel(s, t, Level(s, t) + 1).(currency := s.currency - cost as real))
    else
      Purchase(false, s)
  }

  /** With exactly the price of a pump in hand, a fresh game buys its second
      pump and is left with nothing. */
  lemma BuyFirstPump()
    ensures Purchased(Fresh().(currency := 50.0), Pumps)
         == Purchase(true, Fresh().(gasPumps := 2))
  {
    CeilOfInt(50);
  }

  // ---------------------------------------------------------------------------
  // Income and ticking
  // ---------------------------------------------------------------------------

  lemma IncomeBound(base: int, m1: real, m2: real)
    requires base >= 3 && m1 >= 1.0 && m2 >= 1.0
    ensures (base as real) * m1 * m2 >= 3.0
  {
    var b := base as real;
    assert b * m1 - b == b * (m1 - 1.0);
    assert b * m1 * m2 - b * m1 == (b * m1) * (m2 - 1.0);
  }

  /** Income per second: pumps times pump level, plus twice the store level,
      scaled by both multipliers. */
  function IncomeOf(s: GameState): (r: real)
    ensures Valid(s) ==> r >= 3.0
  {
    ValidIncomeBound(s);
    ((s.gasPumps * s.gasPumpLevel + s.storeLevel * 2) as real) * s.remodelMultiplier * s.prestigeMultiplier
  }

  lemma ValidIncomeBound(s: GameState)
    ensures Valid(s) ==>
      ((s.gasPumps * s.gasPumpLevel + s.storeLevel * 2) as real) * s.remodelMultiplier * s.prestigeMultiplier >= 3.0
  {
    if Valid(s) {
      assert s.gasPumps * s.gasPumpLevel >= 1 by {
        assert s.gasPumps * s.gasPumpLevel - s.gasPumps == s.gasPumps * (s.gasPumpLevel - 1);
      }
      IncomeBound(s.gasPumps * s.gasPumpLevel + s.storeLevel * 2, s.remodelMultiplier, s.prestigeMultiplier);
    }
  }

  /** `calculate_income`: the income field is brought up to date. */
  function WithIncome(s: GameState): (r: GameState)
    ensures r == s.(incomePerSecond := r.incomePerSecond)
    ensures Valid(s) ==> Valid(r) && r.incomePerSecond >= 3.0
  {
    s.(incomePerSecond := IncomeOf(s))
  }

  /** `tick(seconds)`: income is recomputed, then accrues for `seconds`. */
  function Ticked(s: GameState, seconds: int): (r: GameState)
    ensures r == WithIncome(s).(currency := r.currency)
    ensures r.currency - s.currency == r.incomePerSecond * seconds as real
    ensures Valid(s) && seconds >= 0 ==> Valid(r) && r.currency >= s.currency
  {
    var t := WithIncome(s);
    var gain := t.incomePerSecond * seconds as real;
    assert Valid(s) && seconds >= 0 ==> gain >= 0.0;
    t.(currency := t.currency + gain)
  }

  /** A fresh game earns 3 per second, so five seconds bring in exactly 15. */
  lemma FreshTick()
    ensures IncomeOf(Fresh()) == 3.0
    ensures Ticked(Fresh(), 5).currency == 15.0
  {
  }

  /** Ticking a seconds and then b seconds is ticking a + b seconds: income
      does not depend on currency, so accrual is linear. */
  lemma TicksAdd(s: GameState, a: int, b: int)
    ensures Ticked(Ticked(s, a), b) == Ticked(s, a + b)
  {
    var t := Ticked(s, a);
    assert IncomeOf(t) == IncomeOf(s);
    var i := IncomeOf(s);
    assert i * (a + b) as real == i * a as real + i * b as real;
  }

  function TickRepeatedly(s: GameState, n: nat): GameState
    decreases n
  {
    if n == 0 then s else TickRepeatedly(Ticked(s, 1), n - 1)
  }

  /** n ticks of one second accrue exactly what one tick of n seconds does. */
  lemma {:induction false} TickRepeatedlyIsTick(s: GameState, n: nat)
    requires n >= 1
    ensures TickRepeatedly(s, n) == Ticked(s, n)
    decreases n
  {
    if n > 1 {
      TickRepeatedlyIsTick(Ticked(s, 1), n - 1);
      TicksAdd(s, 1, n - 1);
    }
  }

  // ---------------------------------------------------------------------------
  // Resets
  // ---------------------------------------------------------------------------

  datatype Remodeling = Remodeling(multiplier: real, after: GameState)

  /** `remodel`: a soft reset that raises the remodel multiplier by ten per
      cent and reports its new value. */
  function Remodelled(s: GameState): (r: Remodeling)
    ensures r.multiplier == r.after.remodelMultiplier == s.remodelMultiplier * RemodelBonus
    ensures r.after.currency == 0.0
    ensures forall t :: Level(r.after, t) == 1
    ensures r.after.remodelCount == s.remodelCount + 1
    ensures r.after.prestigeCount == s.prestigeCount
    ensures r.after.prestigeMultiplier == s.prestigeMultiplier
    ensures r.after.incomePerSecond == s.incomePerSecond
    ensures Valid(s) ==> Valid(r.after) && r.multiplier > s.remodelMultiplier
  {
    var m := s.remodelMultiplier * RemodelBonus;
    Remodeling(m, s.(remodelMultiplier := m, currency := 0.0, gasPumps := 1, gasPumpLevel := 1,
                     storeLevel := 1, remodelCount := s.remodelCount + 1))
  }

  /** `prestige`: a hard reset that also clears remodel progress and doubles
      the prestige multiplier. */
  function Prestiged(s: GameState): (r: GameState)
    ensures r.currency == 0.0
    ensures forall t :: Level(r, t) == 1
    ensures r.remodelCount == 0 && r.remodelMultiplier == 1.0
    ensures r.prestigeMultiplier == s.prestigeMultiplier * PrestigeBonus
    ensures r.prestigeCount == s.prestigeCount + 1
    ensures r.incomePerSecond == s.incomePerSecond
    ensures Valid(s) ==> Valid(r) && r.prestigeMultiplier > s.prestigeMultiplier
  {
    s.(currency := 0.0, gasPumps := 1, gasPumpLevel := 1, storeLevel := 1, remodelCount := 0,
       remodelMultiplier := 1.0, prestigeMultiplier := s.prestigeMultiplier * PrestigeBonus,
       prestigeCount := s.prestigeCount + 1)
  }

  /** A remodel on a fresh game gives a multiplier of 1.1 and, at the next
      tick, positive income; a prestige gives a prestige multiplier of 2 with
      the remodel multiplier and every track back at one. */
  lemma FreshResets()
    ensures Remodelled(Fresh()).multiplier == 1.1
    ensures Ticked(Remodelled(Fresh()).after, 1).incomePerSecond > 0.0
    ensures Prestiged(Fresh()).prestigeMultiplier == 2.0
    ensures Prestiged(Fresh()).remodelMultiplier == 1.0
    ensures Prestiged(Fresh()) == Fresh().(prestigeMultiplier := 2.0, prestigeCount := 1)
  {
  }

  // ---------------------------------------------------------------------------
  // Sequences of operations
  // ---------------------------------------------------------------------------

  /** One operation a caller may apply to the game. */
  datatype Action = Buy(track: Track) | Recompute | Advance(seconds: int) | SoftReset | HardReset

  function Step(s: GameState, a: Action): GameState
  {
    match a
    case Buy(t) => Purchased(s, t).after
    case Recompute => WithIncome(s)
    case Advance(n) => Ticked(s, n)
    case SoftReset => Remodelled(s).after
    case HardReset => Prestiged(s)
  }

  function Run(s: GameState, acts: seq<Action>): GameState
    decreases |acts|
  {
    if acts == [] then s else Run(Step(s, acts[0]), acts[1..])
  }

  /** No tick in the sequence goes backwards in time. */
  predicate Forward(acts: seq<Action>)
  {
    forall i :: 0 <= i < |acts| ==> acts[i].Advance? ==> acts[i].seconds >= 0
  }

  /** Any sequence of purchases, recomputations, forward ticks and resets keeps
      a valid game valid; in particular currency never goes negative. */
  lemma {:induction false} RunKeepsValid(s: GameState, acts: seq<Action>)
    requires Valid(s) && Forward(acts)
    ensures Valid(Run(s, acts))
    decreases |acts|
  {
    if acts != [] {
      assert Forward(acts[1..]) by {
        forall i | 0 <= i < |acts[1..]| ensures acts[1..][i].Advance? ==> acts[1..][i].seconds >= 0 {
          assert acts[1..][i] == acts[i + 1];
        }
      }
      RunKeepsValid(Step(s, acts[0]), acts[1..]);
    }
  }

  /** Both multipliers are exactly what the counts earned: 1.1 per remodel
      since the last prestige, 2 per prestige. */
  predicate MultipliersEarned(s: GameState)
  {
    && s.remodelCount >= 0
    && s.prestigeCount >= 0
    && s.remodelMultiplier == Pow(RemodelBonus, s.remodelCount)
    && s.prestigeMultiplier == Pow(PrestigeBonus, s.prestigeCount)
  }

  /** Every operation keeps each multiplier tied to its count, so a game that
      starts fresh always has multipliers 1.1^remodels and 2^prestiges. */
  lemma {:induction false} RunKeepsMultipliersEarned(s: GameState, acts: seq<Action>)
    requires MultipliersEarned(s)
    ensures MultipliersEarned(Run(s, acts))
    decreases |acts|
  {
    if acts != [] {
      var t := Step(s, acts[0]);
      assert MultipliersEarned(t) by {
        if acts[0].SoftReset? {
          assert Pow(RemodelBonus, s.remodelCount + 1) == RemodelBonus * Pow(RemodelBonus, s.remodelCount);
        } else if acts[0].HardReset? {
          assert Pow(PrestigeBonus, s.prestigeCount + 1) == PrestigeBonus * Pow(PrestigeBonus, s.prestigeCount);
        }
      }
      RunKeepsMultipliersEarned(t, acts[1..]);
    }
  }

  /** The prestige multiplier and the prestige count never go down: no
      operation resets them. */
  lemma {:induction false} RunNeverLowersPrestige(s: GameState, acts: seq<Action>)
    requires s.prestigeMultiplier >= 0.0
    ensures Run(s, acts).prestigeMultiplier >= s.prestigeMultiplier
    ensures Run(s, acts).prestigeCount >= s.prestigeCount
    decreases |acts|
  {
    if acts != [] {
      RunNeverLowersPrestige(Step(s, acts[0]), acts[1..]);
    }
  }

  // ---------------------------------------------------------------------------
  // The game object
  // ---------------------------------------------------------------------------

  /** The mutable game; every method changes its fields in place. */
  class PitStopGame {
    var currency: real
    var gasPumps: int
    var gasPumpLevel: int
    var storeLevel: int
    var incomePerSecond: real
    var remodelCount: int
    var prestigeCount: int
    var remodelMultiplier: real
    var prestigeMultiplier: real

    /** The current value of every field. */
    function State(): GameState
      reads this
    {
      GameState(currency, gasPumps, gasPumpLevel, storeLevel, incomePerSecond,
                remodelCount, prestigeCount, remodelMultiplier, prestigeMultiplier)
    }

    /** Sets the defaults, then overlays a non-empty supplied record. */
    constructor (data: Option<Record> := None)
      ensures State() == Hydrate(data)
    {
      currency := 0.0;
      gasPumps := 1;
      gasPumpLevel := 1;
      storeLevel := 1;
      incomePerSecond := 0.0;
      remodelCount := 0;
      prestigeCount := 0;
      remodelMultiplier := 1.0;
      prestigeMultiplier := 1.0;
      new;
      if data.Some? && data.value != map[] {
        var d := data.value;
        currency := RealField(d, "currency", currency);
        gasPumps := IntField(d, "gas_pumps", gasPumps);
        gasPumpLevel := IntField(d, "gas_pump_level", gasPumpLevel);
        storeLevel := IntField(d, "store_level", storeLevel);
        incomePerSecond := RealField(d, "income_per_second", incomePerSecond);
        remodelCount := IntField(d, "remodel_count", remodelCount);
        prestigeCount := IntField(d, "prestige_count", prestigeCount);
        remodelMultiplier := RealField(d, "remodel_multiplier", remodelMultiplier);
        prestigeMultiplier := RealField(d, "prestige_multiplier", prestigeMultiplier);
      }
    }

    /** `pump_cost`: the price of the next pump at the current pump count. */
    function PumpCost(): (c: int)
      reads this
      ensures c >= 1
      ensures gasPumps >= 1 ==> c >= 50
    {
      PumpCostAt(gasPumps)
    }

    /** `upgrade_pump_cost`: the price of the next pump level. */
    function UpgradePumpCost(): (c: int)
      reads this
      ensures c >= 1
      ensures gasPumpLevel >= 1 ==> c >= 10
    {
      UpgradePumpCostAt(gasPumpLevel)
    }

    /** `upgrade_store_cost`: the price of the next store level. */
    function UpgradeStoreCost(): (c: int)
      reads this
      ensures c >= 1
      ensures storeLevel >= 1 ==> c >= 20
    {
      UpgradeStoreCostAt(storeLevel)
    }

    method CalculateIncome()
      modifies this
      ensures State() == WithIncome(old(State()))
    {
      var base := gasPumps * gasPumpLevel + storeLevel * 2;
      incomePerSecond := (base as real) * remodelMultiplier * prestigeMultiplier;
    }

    method Tick(seconds: int := 1)
      modifies this
      ensures State() == Ticked(old(State()), seconds)
    {
      CalculateIncome();
      currency := currency + incomePerSecond * seconds as real;
    }

    method UpgradeGasPump() returns (ok: bool)
      modifies this
      ensures Purchase(ok, State()) == Purchased(old(State()), PumpLevel)
    {
      var cost := UpgradePumpCost();
      if currency >= cost as real {
        currency := currency - cost as real;
        gasPumpLevel := gasPumpLevel + 1;
        return true;
      }
      return false;
    }

    method BuyGasPump() returns (ok: bool)
      modifies this
      ensures Purchase(ok, State()) == Purchased(old(State()), Pumps)
    {
      var cost := PumpCost();
      if currency >= cost as real {
        currency := currency - cost as real;
        gasPumps := gasPumps + 1;
        return true;
      }
      return false;
    }

    method UpgradeStore() returns (ok: bool)
      modifies this
      ensures Purchase(ok, State()) == Purchased(old(State()), Store)
    {
      var cost := UpgradeStoreCost();
      if currency >= cost as real {
        currency := currency - cost as real;
        storeLevel := storeLevel + 1;
        return true;
      }
      return false;
    }

    method Remodel() returns (m: real)
      modifies this
      ensures Remodeling(m, State()) == Remodelled(old(State()))
    {
      remodelMultiplier := remodelMultiplier * RemodelBonus;
      currency := 0.0;
      gasPumps := 1;
      gasPumpLevel := 1;
      storeLevel := 1;
      remodelCount := remodelCount + 1;
      return remodelMultiplier;
    }

    method Prestige()
      modifies this
      ensures State() == Prestiged(old(State()))
    {
      currency := 0.0;
      gasPumps := 1;
      gasPumpLevel := 1;
      storeLevel := 1;
      remodelCount := 0;
      remodelMultiplier := 1.0;
      prestigeMultiplier := prestigeMultiplier * PrestigeBonus;
      prestigeCount := prestigeCount + 1;
    }

    /** A snapshot of every field as a record. */
    method GetState() returns (r: Record)
      ensures r == StateRecord(State())
      ensures Hydrate(Some(r)) == State()
    {
      r := StateRecord(State());
      HydrateStateRecord(State());
    }
  }
}
