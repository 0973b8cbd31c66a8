/**
 * The quote cost engine: turns the material mass, the machine time and the
 * extra costs of a quote into an itemised price, using the material and
 * machine catalogues and the shop settings. Money, masses and hours are
 * exact reals; floating-point rounding is not modelled.
 */
module Calculations {
  import opened Wrappers

  datatype Material = Material(id: string, name: string, kind: string, cost: real, description: Option<string>)

  datatype Machine = Machine(id: string, name: string, costPerHour: real, powerConsumption: real)

  /** Shop settings; `exchangeRate` is read by the engine although the record type does not declare it. */
  datatype Settings = Settings(
    laborCostPerHour: real,
    energyCostPerKwh: real,
    profitMargin: real,
    iva: real,
    companyName: string,
    companyContact: string,
    currencySymbol: string,
    currencyCode: string,
    exchangeRate: real)

  datatype ExtraCost = ExtraCost(id: string, description: string, amount: real)

  /** The part of a quote the engine reads; every field may be absent. */
  datatype CostInput = CostInput(
    materialId: Option<string>,
    materialGrams: Option<real>,
    machineId: Option<string>,
    printHours: Option<real>,
    extraCosts: Option<seq<ExtraCost>>)

  datatype CostBreakdown = CostBreakdown(
    materialCost: real,
    machineEnergyCost: real,
    machineDepreciationCost: real,
    laborCost: real,
    subtotal: real,
    totalExtraCosts: real,
    subtotalWithExtras: real,
    profitAmount: real,
    subtotalWithProfit: real,
    ivaAmount: real,
    total: real,
    totalUYU: real)

  function MaterialId(m: Material): string { m.id }

  function MachineId(m: Machine): string { m.id }

  /** `true` when position `i` holds an entry with the wanted id and no earlier entry has it. */
  ghost predicate IsFirstMatch<T>(s: seq<T>, idOf: T -> string, id: Option<string>, i: int) {
    0 <= i < |s| && Some(idOf(s[i])) == id && forall j | 0 <= j < i :: Some(idOf(s[j])) != id
  }

  /** `Array.prototype.find` by id: the first entry whose id equals `id`; an absent id matches nothing. */
  function Find<T>(s: seq<T>, idOf: T -> string, id: Option<string>): (r: Option<T>)
    ensures r.None? <==> forall i | 0 <= i < |s| :: Some(idOf(s[i])) != id
    ensures r.Some? ==> exists i :: IsFirstMatch(s, idOf, id, i) && s[i] == r.value
  {
    if |s| == 0 then None
    else if Some(idOf(s[0])) == id then
      assert IsFirstMatch(s, idOf, id, 0);
      Some(s[0])
    else
      assert forall k | IsFirstMatch(s[1..], idOf, id, k) :: IsFirstMatch(s, idOf, id, k + 1);
      Find(s[1..], idOf, id)
  }

  /** The `reduce` over the extra costs: a left fold adding each amount to an accumulator starting at 0. */
  function ExtraTotal(extras: seq<ExtraCost>): real
  {
    if |extras| == 0 then 0.0 else ExtraTotal(extras[..|extras| - 1]) + extras[|extras| - 1].amount
  }

  /** The breakdown computed from a found material and machine. */
  function Breakdown(grams: real, hours: real, extras: seq<ExtraCost>, material: Material, machine: Machine, settings: Settings): CostBreakdown
  {
    var materialCost := (grams / 1000.0) * material.cost;
    var machineEnergyCost := (machine.powerConsumption / 1000.0) * hours * settings.energyCostPerKwh;
    var machineDepreciationCost := machine.costPerHour * hours;
    var laborCost := settings.laborCostPerHour * hours;
    var subtotal := materialCost + machineEnergyCost + machineDepreciationCost + laborCost;
    var totalExtraCosts := ExtraTotal(extras);
    var subtotalWithExtras := subtotal + totalExtraCosts;
    var profitAmount := subtotalWithExtras * (settings.profitMargin / 100.0);
    var subtotalWithProfit := subtotalWithExtras + profitAmount;
    var ivaAmount := subtotalWithProfit * (settings.iva / 100.0);
    var total := subtotalWithProfit + ivaAmount;
    CostBreakdown(materialCost, machineEnergyCost, machineDepreciationCost, laborCost, subtotal,
                  totalExtraCosts, subtotalWithExtras, profitAmount, subtotalWithProfit, ivaAmount,
                  total, total * settings.exchangeRate)
  }

  /** `calculateCosts`: `None` plays the part of the `null` result. */
  function CalculateCosts(q: CostInput, materials: seq<Material>, machines: seq<Machine>, settings: Settings): (r: Option<CostBreakdown>)
    ensures r.Some? ==> r.value.subtotal == r.value.materialCost + r.value.machineEnergyCost
                                            + r.value.machineDepreciationCost + r.value.laborCost
    ensures r.Some? ==> r.value.totalExtraCosts == ExtraTotal(q.extraCosts.GetOr([]))
    ensures r.Some? ==> r.value.subtotalWithExtras == r.value.subtotal + ExtraTotal(q.extraCosts.GetOr([]))
    ensures r.Some? ==> r.value.totalUYU == r.value.total * settings.exchangeRate
  {
    var material := Find(materials, MaterialId, q.materialId);
    var machine := Find(machines, MachineId, q.machineId);
    if material.None? || machine.None? || !NumberTruthy(q.materialGrams) || !NumberTruthy(q.printHours) then
      None
    else
      Some(Breakdown(q.materialGrams.value, q.printHours.value, q.extraCosts.GetOr([]),
                     material.value, machine.value, settings))
  }

  /** `null` is returned exactly when a reference is unresolved or the grams or hours are absent or zero. */
  lemma NullExactly(q: CostInput, materials: seq<Material>, machines: seq<Machine>, settings: Settings)
    ensures CalculateCosts(q, materials, machines, settings).None? <==>
      || (forall i | 0 <= i < |materials| :: Some(materials[i].id) != q.materialId)
      || (forall i | 0 <= i < |machines| :: Some(machines[i].id) != q.machineId)
      || q.materialGrams == None || q.materialGrams == Some(0.0)
      || q.printHours == None || q.printHours == Some(0.0)
  {
  }

  /** Negative grams or hours are not rejected. */
  lemma NegativeInputsAccepted(q: CostInput, materials: seq<Material>, machines: seq<Machine>, settings: Settings)
    requires exists i | 0 <= i < |materials| :: Some(materials[i].id) == q.materialId
    requires exists i | 0 <= i < |machines| :: Some(machines[i].id) == q.machineId
    requires q.materialGrams.Some? && q.materialGrams.value < 0.0
    requires q.printHours.Some? && q.printHours.value < 0.0
    ensures CalculateCosts(q, materials, machines, settings).Some?
  {
  }

  /** The material and machine used are the first catalogue entries carrying the quoted ids. */
  lemma FirstMatchUsed(q: CostInput, materials: seq<Material>, machines: seq<Machine>, settings: Settings)
    requires CalculateCosts(q, materials, machines, settings).Some?
    ensures exists i, j ::
      && IsFirstMatch(materials, MaterialId, q.materialId, i)
      && IsFirstMatch(machines, MachineId, q.machineId, j)
      && CalculateCosts(q, materials, machines, settings).value
         == Breakdown(q.materialGrams.value, q.printHours.value, q.extraCosts.GetOr([]), materials[i], machines[j], settings)
  {
  }

  /** Each result line, written out in terms of the inputs and the first matching catalogue entries. */
  lemma CostLines(q: CostInput, materials: seq<Material>, machines: seq<Machine>, settings: Settings, i: int, j: int)
    requires IsFirstMatch(materials, MaterialId, q.materialId, i)
    requires IsFirstMatch(machines, MachineId, q.machineId, j)
    requires NumberTruthy(q.materialGrams) && NumberTruthy(q.printHours)
    ensures var r := CalculateCosts(q, materials, machines, settings);
      var h := q.printHours.value;
      && r.Some?
      && r.value.materialCost == q.materialGrams.value / 1000.0 * materials[i].cost
      && r.value.machineEnergyCost == h * (machines[j].powerConsumption / 1000.0 * settings.energyCostPerKwh)
      && r.value.machineDepreciationCost == h * machines[j].costPerHour
      && r.value.laborCost == h * settings.laborCostPerHour
  {
  }

  /**
   * The energy, depreciation and labour lines are linear in the print hours:
   * scaling the hours by `k` scales each of them by `k` and leaves the material line alone.
   */
  lemma HourlyLinesLinear(q: CostInput, materials: seq<Material>, machines: seq<Machine>, settings: Settings, k: real)
    requires k != 0.0
    requires CalculateCosts(q, materials, machines, settings).Some?
    ensures var b := CalculateCosts(q, materials, machines, settings).value;
      var q' := q.(printHours := Some(k * q.printHours.value));
      var r' := CalculateCosts(q', materials, machines, settings);
      && r'.Some?
      && r'.value.materialCost == b.materialCost
      && r'.value.machineEnergyCost == k * b.machineEnergyCost
      && r'.value.machineDepreciationCost == k * b.machineDepreciationCost
      && r'.value.laborCost == k * b.laborCost
  {
  }

  /** Totalling the extras of two lists one after the other gives the sum of their totals. */
  lemma {:induction false} ExtraTotalAppend(a: seq<ExtraCost>, b: seq<ExtraCost>)
    ensures ExtraTotal(a + b) == ExtraTotal(a) + ExtraTotal(b)
  {
    if |b| == 0 {
      assert a + b == a;
    } else {
      var b' := b[..|b| - 1];
      assert (a + b)[..|a + b| - 1] == a + b';
      ExtraTotalAppend(a, b');
    }
  }

  /** Taking one extra out of the list takes its amount off the total. */
  lemma ExtraTotalRemove(b: seq<ExtraCost>, k: int)
    requires 0 <= k < |b|
    ensures ExtraTotal(b) == ExtraTotal(b[..k] + b[k + 1..]) + b[k].amount
  {
    assert b == b[..k] + ([b[k]] + b[k + 1..]);
    ExtraTotalAppend(b[..k], [b[k]] + b[k + 1..]);
    ExtraTotalAppend([b[k]], b[k + 1..]);
    ExtraTotalAppend(b[..k], b[k + 1..]);
    assert ExtraTotal([b[k]]) == b[k].amount by {
      assert [b[k]][..0] == [];
    }
  }

  lemma MultisetRemove<T>(b: seq<T>, k: int)
    requires 0 <= k < |b|
    ensures multiset(b[..k] + b[k + 1..]) == multiset(b) - multiset{b[k]}
  {
    assert b == b[..k] + [b[k]] + b[k + 1..];
  }

  /** The extra-cost total does not depend on the order of the extras. */
  lemma {:induction false} ExtraTotalPermutation(a: seq<ExtraCost>, b: seq<ExtraCost>)
    requires multiset(a) == multiset(b)
    ensures ExtraTotal(a) == ExtraTotal(b)
    decreases |a|
  {
    if |a| == 0 {
      assert |multiset(b)| == 0;
    } else {
      var n := |a| - 1;
      assert a[n] in multiset(b);
      var k :| 0 <= k < |b| && b[k] == a[n];
      MultisetRemove(a, n);
      MultisetRemove(b, k);
      assert a[..n] + a[n + 1..] == a[..n];
      ExtraTotalPermutation(a[..n], b[..k] + b[k + 1..]);
      ExtraTotalRemove(b, k);
    }
  }

  /** Profit is compounded first and IVA is charged on the profit-inclusive amount. */
  lemma CompoundedTotal(q: CostInput, materials: seq<Material>, machines: seq<Machine>, settings: Settings)
    requires CalculateCosts(q, materials, machines, settings).Some?
    ensures var b := CalculateCosts(q, materials, machines, settings).value;
      && b.profitAmount == b.subtotalWithExtras * settings.profitMargin / 100.0
      && b.subtotalWithProfit == b.subtotalWithExtras + b.profitAmount
      && b.ivaAmount == b.subtotalWithProfit * settings.iva / 100.0
      && b.total == b.subtotalWithExtras * (1.0 + settings.profitMargin / 100.0) * (1.0 + settings.iva / 100.0)
      && b.totalUYU == b.total * settings.exchangeRate
  {
  }

  /** Non-negative extras give a non-negative extra total. */
  lemma {:induction false} ExtraTotalNonNegative(extras: seq<ExtraCost>)
    requires forall i | 0 <= i < |extras| :: extras[i].amount >= 0.0
    ensures ExtraTotal(extras) >= 0.0
  {
    if |extras| > 0 {
      ExtraTotalNonNegative(extras[..|extras| - 1]);
    }
  }

  lemma ProductNonNegative(x: real, y: real)
    requires x >= 0.0 && y >= 0.0
    ensures x * y >= 0.0
  {
  }

  /** The ordering of the totals, for a found material and machine. */
  lemma BreakdownOrdered(grams: real, hours: real, extras: seq<ExtraCost>, material: Material, machine: Machine, settings: Settings)
    requires grams >= 0.0 && hours >= 0.0 && material.cost >= 0.0
    requires machine.costPerHour >= 0.0 && machine.powerConsumption >= 0.0
    requires settings.laborCostPerHour >= 0.0 && settings.energyCostPerKwh >= 0.0
    requires settings.profitMargin >= 0.0 && settings.iva >= 0.0
    requires forall i | 0 <= i < |extras| :: extras[i].amount >= 0.0
    ensures var b := Breakdown(grams, hours, extras, material, machine, settings);
      0.0 <= b.subtotal <= b.subtotalWithExtras <= b.subtotalWithProfit <= b.total
  {
    var b := Breakdown(grams, hours, extras, material, machine, settings);
    ProductNonNegative(grams / 1000.0, material.cost);
    ProductNonNegative(machine.powerConsumption / 1000.0, hours);
    ProductNonNegative(machine.powerConsumption / 1000.0 * hours, settings.energyCostPerKwh);
    ProductNonNegative(machine.costPerHour, hours);
    ProductNonNegative(settings.laborCostPerHour, hours);
    ExtraTotalNonNegative(extras);
    ProductNonNegative(b.subtotalWithExtras, settings.profitMargin / 100.0);
    ProductNonNegative(b.subtotalWithProfit, settings.iva / 100.0);
  }

  /** With non-negative inputs, rates and percentages the intermediate totals only grow. */
  lemma TotalsOrdered(q: CostInput, materials: seq<Material>, machines: seq<Machine>, settings: Settings)
    requires CalculateCosts(q, materials, machines, settings).Some?
    requires q.materialGrams.value >= 0.0 && q.printHours.value >= 0.0
    requires forall i | 0 <= i < |materials| :: materials[i].cost >= 0.0
    requires forall i | 0 <= i < |machines| :: machines[i].costPerHour >= 0.0 && machines[i].powerConsumption >= 0.0
    requires settings.laborCostPerHour >= 0.0 && settings.energyCostPerKwh >= 0.0
    requires settings.profitMargin >= 0.0 && settings.iva >= 0.0
    requires forall i | 0 <= i < |q.extraCosts.GetOr([])| :: q.extraCosts.GetOr([])[i].amount >= 0.0
    ensures var b := CalculateCosts(q, materials, machines, settings).value;
      0.0 <= b.subtotal <= b.subtotalWithExtras <= b.subtotalWithProfit <= b.total
  {
    var material := Find(materials, MaterialId, q.materialId).value;
    var machine := Find(machines, MachineId, q.machineId).value;
    BreakdownOrdered(q.materialGrams.value, q.printHours.value, q.extraCosts.GetOr([]), material, machine, settings);
  }
}
