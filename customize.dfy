/**
 * The custom-furniture configurator: the per-type dimension table, the
 * closed-form price of a configuration, the rounded 50% deposit, the
 * "can advance" predicate of the five-step wizard, the toggle-set of extras,
 * and the wizard state itself as a class whose methods are the page's
 * setters and handlers.
 *
 * Prices are exact `real` arithmetic; `RoundHalfUp` is the browser's
 * `Math.round` (nearest integer, halves towards +infinity).
 */
module Customize {
  import opened Optional
  import opened Types
  import Cart

  datatype Dimensions = Dimensions(length: real, width: real, height: real)

  // ---------------------------------------------------------------------------
  // The per-type dimension table
  // ---------------------------------------------------------------------------

  /** Smallest dimensions offered for a type (cm); also the defaults set on selection. */
  function MinDimensions(t: FurnitureType): (r: Dimensions)
    ensures 0.0 < r.length && 0.0 < r.width && 0.0 < r.height
  {
    match t
    case DiningTable => Dimensions(120.0, 80.0, 70.0)
    case CoffeeTable => Dimensions(80.0, 50.0, 35.0)
    case Bookshelf => Dimensions(60.0, 25.0, 100.0)
    case BedFrame => Dimensions(190.0, 90.0, 35.0)
    case Desk => Dimensions(100.0, 50.0, 70.0)
    case Cabinet => Dimensions(40.0, 35.0, 80.0)
  }

  /** Largest dimensions shown for a type (cm); every range is non-empty and positive. */
  function MaxDimensions(t: FurnitureType): (r: Dimensions)
    ensures 0.0 < MinDimensions(t).length <= r.length
    ensures 0.0 < MinDimensions(t).width <= r.width
    ensures 0.0 < MinDimensions(t).height <= r.height
  {
    match t
    case DiningTable => Dimensions(300.0, 150.0, 85.0)
    case CoffeeTable => Dimensions(180.0, 100.0, 55.0)
    case Bookshelf => Dimensions(200.0, 45.0, 250.0)
    case BedFrame => Dimensions(220.0, 200.0, 60.0)
    case Desk => Dimensions(200.0, 100.0, 85.0)
    case Cabinet => Dimensions(150.0, 60.0, 220.0)
  }

  // ---------------------------------------------------------------------------
  // Pricing
  // ---------------------------------------------------------------------------

  const LaborHoursPerCubicMeter: real := 40.0
  const LaborRatePerHour: real := 25.0
  const Margin: real := 0.3
  const Overhead: real := 0.15

  /** Fixed per-type complexity factor applied to the base cost. */
  function ComplexityMultiplier(t: FurnitureType): (m: real)
    ensures 1.0 <= m <= 1.6
  {
    match t
    case DiningTable => 1.5
    case CoffeeTable => 1.0
    case Bookshelf => 1.2
    case BedFrame => 1.4
    case Desk => 1.3
    case Cabinet => 1.6
  }

  /** `Math.round`: the nearest integer, a half rounded up. */
  function RoundHalfUp(x: real): (r: int)
    ensures r as real - 0.5 <= x < r as real + 0.5
  {
    (x + 0.5).Floor
  }

  lemma RoundHalfUpMonotone(x: real, y: real)
    requires x <= y
    ensures RoundHalfUp(x) <= RoundHalfUp(y)
  {
  }

  /** Volume in cubic metres of a piece measured in centimetres. */
  function Volume(d: Dimensions): real
  {
    d.length * d.width * d.height / 1000000.0
  }

  /** Surface area in square metres of a box measured in centimetres. */
  function SurfaceArea(d: Dimensions): real
  {
    2.0 * (d.length * d.width + d.length * d.height + d.width * d.height) / 10000.0
  }

  /** Sum of the flat prices of the selected extras. */
  function ExtrasCost(extras: seq<Extra>): real
  {
    if extras == [] then 0.0 else extras[0].basePrice + ExtrasCost(extras[1..])
  }

  /** The price before rounding, for a fully chosen configuration of the given volume and surface. */
  function UnroundedPrice(t: FurnitureType, volume: real, surfaceArea: real, wood: WoodType, finish: Finish, extras: seq<Extra>): real
  {
    var materialCost := volume * wood.costPerCubicMeter;
    var finishCost := surfaceArea * finish.costPerSquareMeter;
    var laborHours := volume * LaborHoursPerCubicMeter;
    var laborCost := laborHours * LaborRatePerHour;
    var baseCost := (materialCost + laborCost + finishCost + ExtrasCost(extras)) * ComplexityMultiplier(t);
    baseCost * (1.0 + Margin) * (1.0 + Overhead)
  }

  /** The configurator's price: zero until a type, a wood and a finish are chosen. */
  function CalculatePrice(
    t: Option<FurnitureType>, d: Dimensions, wood: Option<WoodType>, finish: Option<Finish>, extras: seq<Extra>): (price: int)
    ensures t.None? || wood.None? || finish.None? ==> price == 0
  {
    if t.None? || wood.None? || finish.None? then 0
    else RoundHalfUp(UnroundedPrice(t.value, Volume(d), SurfaceArea(d), wood.value, finish.value, extras))
  }

  /** The price before rounding, regrouped by what each unit of measure costs. */
  function ClosedForm(m: real, volume: real, surface: real, woodCost: real, finishCost: real, extrasCost: real): real
  {
    1.495 * m * (volume * (woodCost + 1000.0) + surface * finishCost + extrasCost)
  }

  lemma Regroup(volume: real, surface: real, woodCost: real, finishCost: real, extrasCost: real, m: real)
    ensures (volume * woodCost + volume * LaborHoursPerCubicMeter * LaborRatePerHour + surface * finishCost + extrasCost)
            * m * (1.0 + Margin) * (1.0 + Overhead)
         == ClosedForm(m, volume, surface, woodCost, finishCost, extrasCost)
  {
    var inner := volume * woodCost + volume * 1000.0 + surface * finishCost + extrasCost;
    assert volume * 40.0 * 25.0 == volume * 1000.0;
    assert volume * woodCost + volume * 1000.0 == volume * (woodCost + 1000.0);
    assert inner * m * (1.0 + 0.3) * (1.0 + 0.15) == 1.495 * m * inner;
  }

  /**
   * The price in closed form: every cubic metre costs its wood plus €1000 of
   * labour (40 h at €25), every square metre its finish, the extras are added
   * flat, and the sum is scaled by the type's complexity and by 1.495
   * (30% margin, then 15% overhead) before rounding.
   */
  lemma PriceClosedForm(t: FurnitureType, d: Dimensions, wood: WoodType, finish: Finish, extras: seq<Extra>)
    ensures CalculatePrice(Some(t), d, Some(wood), Some(finish), extras)
         == RoundHalfUp(ClosedForm(ComplexityMultiplier(t), Volume(d), SurfaceArea(d),
                                   wood.costPerCubicMeter, finish.costPerSquareMeter, ExtrasCost(extras)))
  {
    UnroundedPriceRegrouped(t, Volume(d), SurfaceArea(d), wood, finish, extras);
  }

  lemma UnroundedPriceRegrouped(t: FurnitureType, volume: real, surface: real, wood: WoodType, finish: Finish, extras: seq<Extra>)
    ensures UnroundedPrice(t, volume, surface, wood, finish, extras)
         == ClosedForm(ComplexityMultiplier(t), volume, surface, wood.costPerCubicMeter, finish.costPerSquareMeter, ExtrasCost(extras))
  {
    var m := ComplexityMultiplier(t);
    var woodCost, finishCost, extrasCost := wood.costPerCubicMeter, finish.costPerSquareMeter, ExtrasCost(extras);
    Regroup(volume, surface, woodCost, finishCost, extrasCost, m);
  }

  /** With non-negative costs and factor, the regrouped price grows with volume and surface. */
  lemma ClosedFormMonotone(m: real, v1: real, v2: real, s1: real, s2: real, woodCost: real, finishCost: real, extrasCost: real)
    requires 0.0 <= m && v1 <= v2 && s1 <= s2 && 0.0 <= woodCost && 0.0 <= finishCost
    ensures ClosedForm(m, v1, s1, woodCost, finishCost, extrasCost) <= ClosedForm(m, v2, s2, woodCost, finishCost, extrasCost)
  {
    MulMonotone(v1, v2, woodCost + 1000.0);
    MulMonotone(s1, s2, finishCost);
    var before := v1 * (woodCost + 1000.0) + s1 * finishCost + extrasCost;
    var after := v2 * (woodCost + 1000.0) + s2 * finishCost + extrasCost;
    MulMonotone(before, after, 1.495 * m);
    assert 1.495 * m * before == before * (1.495 * m);
    assert 1.495 * m * after == after * (1.495 * m);
  }

  /**
   * A 200×90×75 cm dining table in a wood at €800/m³ with a finish at €40/m²
   * and no extras: 1.35 m³, 7.95 m², price €6162.
   */
  lemma DiningTableFixture(wood: WoodType, finish: Finish)
    requires wood.costPerCubicMeter == 800.0 && finish.costPerSquareMeter == 40.0
    ensures Volume(Dimensions(200.0, 90.0, 75.0)) == 1.35
    ensures SurfaceArea(Dimensions(200.0, 90.0, 75.0)) == 7.95
    ensures CalculatePrice(Some(DiningTable), Dimensions(200.0, 90.0, 75.0), Some(wood), Some(finish), []) == 6162
  {
    var d := Dimensions(200.0, 90.0, 75.0);
    assert UnroundedPrice(DiningTable, Volume(d), SurfaceArea(d), wood, finish, []) == 6162.39;
  }

  /** The displayed price multiplier of the wood and the order of the extras do not enter the price. */
  lemma PriceIgnoresMultiplierAndExtrasOrder(
    t: Option<FurnitureType>, d: Dimensions, wood: WoodType, finish: Option<Finish>,
    extras: seq<Extra>, reordered: seq<Extra>, multiplier: real)
    requires multiset(extras) == multiset(reordered)
    ensures CalculatePrice(t, d, Some(wood), finish, extras)
         == CalculatePrice(t, d, Some(wood.(priceMultiplier := multiplier)), finish, reordered)
  {
    ExtrasCostPermutation(extras, reordered);
    if t.Some? && finish.Some? {
      var repriced := wood.(priceMultiplier := multiplier);
      UnroundedPriceRegrouped(t.value, Volume(d), SurfaceArea(d), wood, finish.value, extras);
      UnroundedPriceRegrouped(t.value, Volume(d), SurfaceArea(d), repriced, finish.value, reordered);
    }
  }

  lemma {:induction false} ExtrasCostAppend(a: seq<Extra>, b: seq<Extra>)
    ensures ExtrasCost(a + b) == ExtrasCost(a) + ExtrasCost(b)
  {
    if a == [] {
      assert a + b == b;
    } else {
      assert (a + b)[1..] == a[1..] + b;
      ExtrasCostAppend(a[1..], b);
    }
  }

  lemma ExtrasCostRemove(b: seq<Extra>, j: int)
    requires 0 <= j < |b|
    ensures ExtrasCost(b) == b[j].basePrice + ExtrasCost(b[..j] + b[j + 1..])
  {
    assert b == b[..j] + ([b[j]] + b[j + 1..]);
    ExtrasCostAppend(b[..j], [b[j]] + b[j + 1..]);
    ExtrasCostAppend(b[..j], b[j + 1..]);
    assert ([b[j]] + b[j + 1..])[1..] == b[j + 1..];
  }

  /** Taking the head of one sequence out of a permutation of it leaves a permutation of the tail. */
  lemma RemoveMatchingElement(a: seq<Extra>, b: seq<Extra>) returns (j: int)
    requires a != [] && multiset(a) == multiset(b)
    ensures 0 <= j < |b| && b[j] == a[0]
    ensures multiset(a[1..]) == multiset(b[..j] + b[j + 1..])
  {
    assert a == [a[0]] + a[1..];
    assert a[0] in multiset(b);
    j :| 0 <= j < |b| && b[j] == a[0];
    assert multiset(a[1..]) == multiset(a) - multiset{a[0]};
    assert b == b[..j] + [b[j]] + b[j + 1..];
    assert multiset(b[..j] + b[j + 1..]) == multiset(b) - multiset{b[j]};
  }

  /** The extras cost is a sum, so it does not depend on the order of the selection. */
  lemma {:induction false} ExtrasCostPermutation(a: seq<Extra>, b: seq<Extra>)
    requires multiset(a) == multiset(b)
    ensures ExtrasCost(a) == ExtrasCost(b)
    decreases |a|
  {
    if a == [] {
      assert |b| == |multiset(b)| == 0;
    } else {
      var j := RemoveMatchingElement(a, b);
      ExtrasCostRemove(b, j);
      ExtrasCostPermutation(a[1..], b[..j] + b[j + 1..]);
    }
  }

  lemma MulMonotone(a: real, b: real, c: real)
    requires a <= b && 0.0 <= c
    ensures a * c <= b * c
  {
  }

  lemma ProductMonotone(a: real, b: real, c: real, d: real)
    requires 0.0 <= a <= b && 0.0 <= c <= d
    ensures 0.0 <= a * c <= b * d
  {
    MulMonotone(0.0, a, c);
    MulMonotone(a, b, c);
    MulMonotone(c, d, b);
    assert b * c == c * b && b * d == d * b;
  }

  lemma {:induction false} VolumeAndSurfaceMonotone(d: Dimensions, e: Dimensions)
    requires 0.0 <= d.length <= e.length && 0.0 <= d.width <= e.width && 0.0 <= d.height <= e.height
    ensures Volume(d) <= Volume(e) && SurfaceArea(d) <= SurfaceArea(e)
  {
    ProductMonotone(d.length, e.length, d.width, e.width);
    ProductMonotone(d.length * d.width, e.length * e.width, d.height, e.height);
    ProductMonotone(d.length, e.length, d.height, e.height);
    ProductMonotone(d.width, e.width, d.height, e.height);
  }

  /**
   * With non-negative wood and finish costs, making a piece larger in any
   * dimension (or in several) never lowers its price.
   */
  lemma {:induction false} PriceMonotoneInDimensions(
    t: FurnitureType, d: Dimensions, e: Dimensions, wood: WoodType, finish: Finish, extras: seq<Extra>)
    requires 0.0 <= d.length <= e.length && 0.0 <= d.width <= e.width && 0.0 <= d.height <= e.height
    requires wood.costPerCubicMeter >= 0.0 && finish.costPerSquareMeter >= 0.0
    ensures CalculatePrice(Some(t), d, Some(wood), Some(finish), extras)
         <= CalculatePrice(Some(t), e, Some(wood), Some(finish), extras)
  {
    VolumeAndSurfaceMonotone(d, e);
    var m := ComplexityMultiplier(t);
    var wc, fc, ec := wood.costPerCubicMeter, finish.costPerSquareMeter, ExtrasCost(extras);
    ClosedFormMonotone(m, Volume(d), Volume(e), SurfaceArea(d), SurfaceArea(e), wc, fc, ec);
    PriceClosedForm(t, d, wood, finish, extras);
    PriceClosedForm(t, e, wood, finish, extras);
    RoundHalfUpMonotone(ClosedForm(m, Volume(d), SurfaceArea(d), wc, fc, ec), ClosedForm(m, Volume(e), SurfaceArea(e), wc, fc, ec));
  }

  /** Adding an extra with a non-negative price never lowers the price. */
  lemma PriceMonotoneInExtras(
    t: Option<FurnitureType>, d: Dimensions, wood: Option<WoodType>, finish: Option<Finish>, extras: seq<Extra>, extra: Extra)
    requires extra.basePrice >= 0.0
    ensures CalculatePrice(t, d, wood, finish, extras) <= CalculatePrice(t, d, wood, finish, extras + [extra])
  {
    if t.Some? && wood.Some? && finish.Some? {
      ExtrasCostAppend(extras, [extra]);
      assert ExtrasCost([extra]) == extra.basePrice;
      var m := ComplexityMultiplier(t.value);
      var v, sa := Volume(d), SurfaceArea(d);
      var wc, fc := wood.value.costPerCubicMeter, finish.value.costPerSquareMeter;
      var e1, e2 := ExtrasCost(extras), ExtrasCost(extras + [extra]);
      var base := v * (wc + 1000.0) + sa * fc;
      MulMonotone(base + e1, base + e2, 1.495 * m);
      assert ClosedForm(m, v, sa, wc, fc, e1) == (base + e1) * (1.495 * m);
      assert ClosedForm(m, v, sa, wc, fc, e2) == (base + e2) * (1.495 * m);
      PriceClosedForm(t.value, d, wood.value, finish.value, extras);
      PriceClosedForm(t.value, d, wood.value, finish.value, extras + [extra]);
      RoundHalfUpMonotone(ClosedForm(m, v, sa, wc, fc, e1), ClosedForm(m, v, sa, wc, fc, e2));
    }
  }

  // ---------------------------------------------------------------------------
  // Deposit and balance shown beside the price
  // ---------------------------------------------------------------------------

  /** The deposit shown for a price: half of it, a half euro rounded up. */
  function Deposit(price: int): (deposit: int)
    ensures price <= 2 * deposit <= price + 1
  {
    RoundHalfUp(price as real * 0.5)
  }

  /** The "balance on delivery" figure as the page shows it: the deposit again. */
  function BalanceShownAsWritten(price: int): int
  {
    Deposit(price)
  }

  /** Deposit and shown balance add up to the price exactly when the price is even. */
  lemma BalanceShownAddsUpOnlyForEvenPrices(price: int)
    ensures Deposit(price) + BalanceShownAsWritten(price) == price <==> price % 2 == 0
  {
  }

  /** An odd price of €101 shows a €51 deposit and a €51 balance, €102 in all. */
  lemma BalanceShownOverstatesOddPrice()
    ensures Deposit(101) == 51 && BalanceShownAsWritten(101) == 51
    ensures Deposit(101) + BalanceShownAsWritten(101) != 101
  {
    assert RoundHalfUp(101 as real * 0.5) == 51;
  }

  /** What is left to pay on delivery: the price minus the deposit, never more than the deposit. */
  function BalanceOnDelivery(price: int): (balance: int)
    ensures Deposit(price) + balance == price
    ensures price - 1 <= 2 * balance <= price
  {
    price - Deposit(price)
  }

  // ---------------------------------------------------------------------------
  // The wizard's "can advance" predicate
  // ---------------------------------------------------------------------------

  /** Whether the "next" button of a step is enabled by the selections made so far. */
  function CanProceed(step: int, t: Option<FurnitureType>, d: Dimensions, wood: Option<WoodType>, finish: Option<Finish>): bool
  {
    if step == 1 then t.Some?
    else if step == 2 then d.length > 0.0 && d.width > 0.0 && d.height > 0.0
    else if step == 3 then wood.Some?
    else if step == 4 then finish.Some?
    else step == 5
  }

  /**
   * Steps 1, 3 and 4 ask for a chosen type, wood and finish, so a non-zero
   * price means all three can be passed; step 2 only asks for positive dimensions, with no
   * check against the type's bounds, and steps outside 1..5 never advance.
   */
  lemma CanProceedRules(
    t: Option<FurnitureType>, d: Dimensions, wood: Option<WoodType>, finish: Option<Finish>, extras: seq<Extra>, step: int)
    ensures CanProceed(1, t, d, wood, finish) <==> t.Some?
    ensures CanProceed(3, t, d, wood, finish) <==> wood.Some?
    ensures CanProceed(4, t, d, wood, finish) <==> finish.Some?
    ensures CalculatePrice(t, d, wood, finish, extras) != 0 ==>
      CanProceed(1, t, d, wood, finish) && CanProceed(3, t, d, wood, finish) && CanProceed(4, t, d, wood, finish)
    ensures CanProceed(2, t, d, wood, finish) <==> d.length > 0.0 && d.width > 0.0 && d.height > 0.0
    ensures CanProceed(5, t, d, wood, finish)
    ensures step < 1 || step > 5 ==> !CanProceed(step, t, d, wood, finish)
  {
  }

  // ---------------------------------------------------------------------------
  // The selection of extras
  // ---------------------------------------------------------------------------

  predicate HasExtraId(s: seq<Extra>, id: Id)
  {
    exists i :: 0 <= i < |s| && s[i].id == id
  }

  predicate UniqueExtraIds(s: seq<Extra>)
  {
    forall i, j :: 0 <= i < j < |s| ==> s[i].id != s[j].id
  }

  function ExtraIds(s: seq<Extra>): set<Id>
  {
    set x | x in s :: x.id
  }

  /** The selection without every extra that has this id. */
  function WithoutExtraId(s: seq<Extra>, id: Id): (r: seq<Extra>)
    ensures forall x :: x in r <==> x in s && x.id != id
  {
    if s == [] then []
    else (if s[0].id == id then [] else [s[0]]) + WithoutExtraId(s[1..], id)
  }

  /** Ticking an extra: drop it when its id is selected, append it otherwise. */
  function Toggled(s: seq<Extra>, extra: Extra): seq<Extra>
  {
    if HasExtraId(s, extra.id) then WithoutExtraId(s, extra.id) else s + [extra]
  }

  lemma {:induction false} WithoutExtraIdKeepsUnique(s: seq<Extra>, id: Id)
    requires UniqueExtraIds(s)
    ensures UniqueExtraIds(WithoutExtraId(s, id))
  {
    if s != [] {
      WithoutExtraIdKeepsUnique(s[1..], id);
      var tail := WithoutExtraId(s[1..], id);
      forall x | x in tail ensures x.id != s[0].id {
        assert x in s[1..];
      }
    }
  }

  lemma {:induction false} WithoutAbsentExtraId(s: seq<Extra>, id: Id)
    requires !HasExtraId(s, id)
    ensures WithoutExtraId(s, id) == s
  {
    if s != [] {
      assert !HasExtraId(s[1..], id) by {
        forall i | 0 <= i < |s[1..]| ensures s[1..][i].id != id {
          assert s[1..][i] == s[i + 1];
        }
      }
      WithoutAbsentExtraId(s[1..], id);
    }
  }

  /** Toggling keeps the selected ids pairwise distinct. */
  lemma ToggleKeepsIdsUnique(s: seq<Extra>, extra: Extra)
    requires UniqueExtraIds(s)
    ensures UniqueExtraIds(Toggled(s, extra))
  {
    if HasExtraId(s, extra.id) {
      WithoutExtraIdKeepsUnique(s, extra.id);
    }
  }

  /** After a toggle the extra's id is selected exactly when it was not before. */
  lemma ToggleFlipsSelection(s: seq<Extra>, extra: Extra)
    ensures HasExtraId(Toggled(s, extra), extra.id) <==> !HasExtraId(s, extra.id)
  {
    var r := Toggled(s, extra);
    if HasExtraId(s, extra.id) {
      forall i | 0 <= i < |r| ensures r[i].id != extra.id {
        assert r[i] in r;
      }
    } else {
      assert r[|s|] == extra;
    }
  }

  /** Toggling an unselected extra twice gives back exactly the selection it started from. */
  lemma ToggleTwiceRestoresAbsent(s: seq<Extra>, extra: Extra)
    requires !HasExtraId(s, extra.id)
    ensures Toggled(Toggled(s, extra), extra) == s
  {
    var once := s + [extra];
    assert once[|s|] == extra;
    assert once == [] + once;
    WithoutExtraIdDistributes(s, [extra], extra.id);
    WithoutAbsentExtraId(s, extra.id);
    assert WithoutExtraId([extra], extra.id) == [];
  }

  /**
   * Toggling a selected extra twice gives back the same set of selected ids,
   * with the extra moved to the end of the selection.
   */
  lemma ToggleTwiceRestoresPresentIds(s: seq<Extra>, extra: Extra)
    requires HasExtraId(s, extra.id)
    ensures ExtraIds(Toggled(Toggled(s, extra), extra)) == ExtraIds(s)
    ensures Toggled(Toggled(s, extra), extra) == WithoutExtraId(s, extra.id) + [extra]
  {
    var once := WithoutExtraId(s, extra.id);
    assert !HasExtraId(once, extra.id) by {
      forall i | 0 <= i < |once| ensures once[i].id != extra.id {
        assert once[i] in once;
      }
    }
    var twice := once + [extra];
    var i :| 0 <= i < |s| && s[i].id == extra.id;
    assert s[i] in s;
    forall id ensures id in ExtraIds(twice) <==> id in ExtraIds(s) {
      if id in ExtraIds(twice) {
        var x :| x in twice && x.id == id;
        if x != extra {
          assert x in once;
        }
      }
      if id in ExtraIds(s) {
        var x :| x in s && x.id == id;
        if x.id != extra.id {
          assert x in once;
          assert x in twice;
        } else {
          assert extra in twice;
        }
      }
    }
  }

  lemma {:induction false} WithoutExtraIdDistributes(a: seq<Extra>, b: seq<Extra>, id: Id)
    ensures WithoutExtraId(a + b, id) == WithoutExtraId(a, id) + WithoutExtraId(b, id)
  {
    if a == [] {
      assert a + b == b;
    } else {
      assert (a + b)[1..] == a[1..] + b;
      WithoutExtraIdDistributes(a[1..], b, id);
    }
  }

  // ---------------------------------------------------------------------------
  // The wizard state
  // ---------------------------------------------------------------------------

  const EmptyDimensions: Dimensions := Dimensions(0.0, 0.0, 0.0)

  /** The configurator page's state and the handlers that change it. */
  class Configurator {
    var currentStep: int
    var selectedType: Option<FurnitureType>
    var dimensions: Dimensions
    var selectedWood: Option<WoodType>
    var selectedFinish: Option<Finish>
    var selectedExtras: seq<Extra>
    var notes: string

    /** The wizard is on one of its five steps and no extra is selected twice. */
    predicate Valid()
      reads this
    {
      1 <= currentStep <= 5 && UniqueExtraIds(selectedExtras)
    }

    /** A blank configuration on step 1. */
    predicate IsBlank()
      reads this
    {
      && currentStep == 1
      && selectedType == None
      && dimensions == EmptyDimensions
      && selectedWood == None
      && selectedFinish == None
      && selectedExtras == []
      && notes == ""
    }

    /** The live price of the current selections. */
    function Price(): int
      reads this
    {
      CalculatePrice(selectedType, dimensions, selectedWood, selectedFinish, selectedExtras)
    }

    constructor ()
      ensures Valid() && IsBlank()
    {
      currentStep := 1;
      selectedType := None;
      dimensions := EmptyDimensions;
      selectedWood := None;
      selectedFinish := None;
      selectedExtras := [];
      notes := "";
    }

    /**
     * Choosing a type; when the choice changes, the dimensions are reset to
     * that type's minimums. Re-choosing the same type keeps them.
     */
    method SelectType(t: FurnitureType)
      modifies this`selectedType, this`dimensions
      ensures selectedType == Some(t)
      ensures dimensions == if old(selectedType) == Some(t) then old(dimensions) else MinDimensions(t)
    {
      if selectedType != Some(t) {
        selectedType := Some(t);
        dimensions := MinDimensions(t);
      }
    }

    /** Typing a length; the value is taken as entered, without clamping to the type's range. */
    method SetLength(value: real)
      modifies this`dimensions
      ensures dimensions == old(dimensions).(length := value)
    {
      dimensions := dimensions.(length := value);
    }

    method SetWidth(value: real)
      modifies this`dimensions
      ensures dimensions == old(dimensions).(width := value)
    {
      dimensions := dimensions.(width := value);
    }

    method SetHeight(value: real)
      modifies this`dimensions
      ensures dimensions == old(dimensions).(height := value)
    {
      dimensions := dimensions.(height := value);
    }

    method SelectWood(wood: WoodType)
      modifies this`selectedWood
      ensures selectedWood == Some(wood)
    {
      selectedWood := Some(wood);
    }

    method SelectFinish(finish: Finish)
      modifies this`selectedFinish
      ensures selectedFinish == Some(finish)
    {
      selectedFinish := Some(finish);
    }

    method SetNotes(text: string)
      modifies this`notes
      ensures notes == text
    {
      notes := text;
    }

    /** Ticking or unticking an extra; the selected ids stay distinct. */
    method ToggleExtra(extra: Extra)
      requires Valid()
      modifies this`selectedExtras
      ensures Valid()
      ensures selectedExtras == Toggled(old(selectedExtras), extra)
    {
      ToggleKeepsIdsUnique(selectedExtras, extra);
      selectedExtras := Toggled(selectedExtras, extra);
    }

    /** "Next": enabled below step 5 when the current step can be passed. */
    method Next()
      requires Valid()
      modifies this`currentStep
      ensures Valid()
      ensures currentStep ==
        if old(currentStep) < 5 && CanProceed(old(currentStep), selectedType, dimensions, selectedWood, selectedFinish)
        then old(currentStep) + 1 else old(currentStep)
    {
      if currentStep < 5 && CanProceed(currentStep, selectedType, dimensions, selectedWood, selectedFinish) {
        currentStep := currentStep + 1;
      }
    }

    /** "Back": disabled on step 1. */
    method Back()
      requires Valid()
      modifies this`currentStep
      ensures Valid()
      ensures currentStep == if old(currentStep) == 1 then 1 else old(currentStep) - 1
    {
      if currentStep != 1 {
        currentStep := currentStep - 1;
      }
    }

    /** Clicking a step in the progress bar: only steps already passed can be revisited. */
    method GoToStep(step: int)
      requires Valid() && 1 <= step <= 5
      modifies this`currentStep
      ensures Valid()
      ensures currentStep == if old(currentStep) > step then step else old(currentStep)
    {
      if currentStep > step {
        currentStep := step;
      }
    }

    /** A type, a wood and a finish are chosen. */
    predicate Ready()
      reads this
    {
      selectedType.Some? && selectedWood.Some? && selectedFinish.Some?
    }

    /** The configuration that goes into the cart, notes included as typed. */
    function Config(): CustomFurnitureConfig
      reads this
      requires Ready()
    {
      CustomFurnitureConfig(
        selectedType.value, selectedWood.value, selectedFinish.value,
        dimensions.length, dimensions.width, dimensions.height,
        selectedExtras, Some(notes))
    }

    /**
     * The add-to-cart handler: with a type, a wood and a finish chosen, the
     * configuration goes into the cart at the current price and the form is
     * reset; otherwise nothing happens.
     */
    method HandleAddToCart(cart: Cart.CartStore, newId: Id)
      requires Valid()
      modifies this, cart
      ensures Valid()
      ensures !old(Ready()) ==> unchanged(this) && cart.items == old(cart.items)
      ensures old(Ready()) ==>
        && cart.items == Cart.WithCustomAdded(old(cart.items), old(Config()), old(Price()) as real, newId)
        && IsBlank()
    {
      if !Ready() {
        return;
      }
      cart.AddCustomItem(Config(), Price() as real, newId);
      currentStep := 1;
      selectedType := None;
      dimensions := EmptyDimensions;
      selectedWood := None;
      selectedFinish := None;
      selectedExtras := [];
      notes := "";
    }

    /**
     * The "add to cart" button: shown only on step 5 and disabled while the
     * price is zero. A non-zero price implies a complete selection, so a click
     * that gets through always adds the piece.
     */
    method ClickAddToCart(cart: Cart.CartStore, newId: Id)
      requires Valid()
      modifies this, cart
      ensures Valid()
      ensures old(currentStep) == 5 && old(Price()) != 0 ==>
        && old(Ready())
        && cart.items == Cart.WithCustomAdded(old(cart.items), old(Config()), old(Price()) as real, newId)
        && IsBlank()
      ensures old(currentStep) != 5 || old(Price()) == 0 ==> unchanged(this) && cart.items == old(cart.items)
    {
      if currentStep == 5 && Price() != 0 {
        HandleAddToCart(cart, newId);
      }
    }
  }

  /**
   * Choosing a type makes its default dimensions pass step 2 (that they lie
   * inside the shown bounds is the contract of `MaxDimensions`).
   */
  lemma DefaultDimensionsPassStepTwo(t: FurnitureType, wood: Option<WoodType>, finish: Option<Finish>)
    ensures CanProceed(2, Some(t), MinDimensions(t), wood, finish)
  {
  }
}
