/**
 * The bulk cost recalculation: every organisation's total becomes the sum of
 * the prices of its staff members' investigations plus their individual
 * costs.  Reading a field of a `null` staff entry or investigation throws,
 * which aborts the run.
 */
module CostRecalculation {
  import opened Js
  import CorporateIntake

  /** What one investigation adds: `typeof inv === 'object' && inv.price`
      guards `Number(inv.price) || 0`.  A `null` entry passes the `typeof`
      test and then throws. */
  function InvestigationAmount(inv: Value): (r: Eval<int>)
    ensures r.TypeError? <==> inv.Null?
  {
    if !TypeofObject(inv) then Ok(0)
    else if inv.Null? then TypeError
    else if Truthy(Prop(inv, "price")) then Ok(NumberOr0(Prop(inv, "price")))
    else Ok(0)
  }

  /** `if (staff.individual_cost) total += Number(staff.individual_cost) || 0` */
  function CostAmount(staff: Value): int {
    if Truthy(Prop(staff, "individual_cost")) then NumberOr0(Prop(staff, "individual_cost")) else 0
  }

  /** The sum of `f` over `xs` in order; the first throw aborts it. */
  function SumAmounts(xs: seq<Value>, f: Value -> Eval<int>): (r: Eval<int>)
    ensures r.TypeError? <==> exists i :: 0 <= i < |xs| && f(xs[i]).TypeError?
    decreases |xs|
  {
    if xs == [] then Ok(0)
    else
      var init := SumAmounts(xs[..|xs| - 1], f);
      var last := f(xs[|xs| - 1]);
      if init.TypeError? || last.TypeError? then TypeError
      else Ok(init.value + last.value)
  }

  /** What one staff entry adds: its investigations' amounts when it has an
      array of them, plus its individual cost.  A `null` entry throws. */
  function StaffAmount(staff: Value): (r: Eval<int>)
    ensures r.TypeError? <==> Nullish(staff) || exists i :: 0 <= i < |CorporateIntake.InvestigationsOf(staff)| && CorporateIntake.InvestigationsOf(staff)[i].Null?
  {
    if Nullish(staff) then TypeError
    else match SumAmounts(CorporateIntake.InvestigationsOf(staff), InvestigationAmount)
      case TypeError => TypeError
      case Ok(t) => Ok(t + CostAmount(staff))
  }

  /** The recalculated total of one organisation; 0 when its staff list is
      not an array. */
  function OrgTotal(org: Record): (r: Eval<int>)
    ensures !IsArray(Field(org, "staff_members")) ==> r == Ok(0)
  {
    var staff := Field(org, "staff_members");
    if IsArray(staff) then SumAmounts(staff.items, StaffAmount) else Ok(0)
  }

  /** The organisation with its total replaced; nothing else changes. */
  function Recalculated(org: Record, total: int): (r: Record)
    ensures "total_investigation_cost" in r && r["total_investigation_cost"] == Num(total)
    ensures forall k :: k != "total_investigation_cost" ==> Field(r, k) == Field(org, k)
    ensures r.Keys == org.Keys + {"total_investigation_cost"}
  {
    org["total_investigation_cost" := Num(total)]
  }

  // ---------------------------------------------------------------------
  // The loops

  /** The inner loop over one staff entry's investigations, then its
      individual cost. */
  method StaffAmountLoop(staff: Value) returns (r: Eval<int>)
    ensures r == StaffAmount(staff)
  {
    if Nullish(staff) {
      return TypeError;
    }
    var invs := CorporateIntake.InvestigationsOf(staff);
    var total := 0;
    var j := 0;
    while j < |invs|
      invariant 0 <= j <= |invs|
      invariant SumAmounts(invs[..j], InvestigationAmount) == Ok(total)
    {
      assert invs[..j + 1][..j] == invs[..j];
      var inv := invs[j];
      if TypeofObject(inv) {
        if inv.Null? {
          return TypeError;
        }
        if Truthy(Prop(inv, "price")) {
          total := total + NumberOr0(Prop(inv, "price"));
        }
      }
      j := j + 1;
    }
    assert invs[..j] == invs;
    if Truthy(Prop(staff, "individual_cost")) {
      total := total + NumberOr0(Prop(staff, "individual_cost"));
    }
    return Ok(total);
  }

  /** The per-organisation loop over the staff list. */
  method OrgTotalLoop(org: Record) returns (r: Eval<int>)
    ensures r == OrgTotal(org)
  {
    var staffList := Field(org, "staff_members");
    if !IsArray(staffList) {
      return Ok(0);
    }
    var staff := staffList.items;
    var total := 0;
    var i := 0;
    while i < |staff|
      invariant 0 <= i <= |staff|
      invariant SumAmounts(staff[..i], StaffAmount) == Ok(total)
    {
      assert staff[..i + 1][..i] == staff[..i];
      var amount := StaffAmountLoop(staff[i]);
      if amount.TypeError? {
        return TypeError;
      }
      total := total + amount.value;
      i := i + 1;
    }
    assert staff[..i] == staff;
    return Ok(total);
  }

  // ---------------------------------------------------------------------
  // What the recalculation adds up

  /** The price an investigation contributes when nothing throws. */
  function PriceOf(inv: Value): int {
    if inv.Obj? && Truthy(Prop(inv, "price")) then NumberOr0(Prop(inv, "price")) else 0
  }

  function PriceSum(invs: seq<Value>): int
    decreases |invs|
  {
    if invs == [] then 0 else PriceSum(invs[..|invs| - 1]) + PriceOf(invs[|invs| - 1])
  }

  /** The sum of the investigation prices of every staff entry. */
  function StaffPriceSum(staff: seq<Value>): int
    decreases |staff|
  {
    if staff == [] then 0
    else StaffPriceSum(staff[..|staff| - 1]) + PriceSum(CorporateIntake.InvestigationsOf(staff[|staff| - 1]))
  }

  /** No staff entry and no investigation is `null` or `undefined`. */
  predicate NoNullEntries(staff: seq<Value>) {
    forall i :: 0 <= i < |staff| ==>
      && !Nullish(staff[i])
      && forall j :: 0 <= j < |CorporateIntake.InvestigationsOf(staff[i])| ==> !CorporateIntake.InvestigationsOf(staff[i])[j].Null?
  }

  /** The `if (staff.individual_cost)` guard makes no difference: a falsy
      cost adds 0 either way. */
  lemma CostGuardRedundant(staff: Value)
    ensures CostAmount(staff) == CorporateIntake.IndividualCost(staff)
  {
  }

  lemma {:induction false} InvestigationSum(invs: seq<Value>)
    requires forall j :: 0 <= j < |invs| ==> !invs[j].Null?
    ensures SumAmounts(invs, InvestigationAmount) == Ok(PriceSum(invs))
    decreases |invs|
  {
    if invs != [] {
      InvestigationSum(invs[..|invs| - 1]);
    }
  }

  /** When nothing throws, the recalculated total is the sum of all the
      investigation prices plus the creation total (the sum of individual
      costs): an amount set both as a price and as an individual cost is
      counted twice. */
  lemma {:induction false} RecalcIsPricesPlusCosts(staff: seq<Value>)
    requires NoNullEntries(staff)
    ensures SumAmounts(staff, StaffAmount) == Ok(StaffPriceSum(staff) + CorporateIntake.IndividualCostSum(staff))
    decreases |staff|
  {
    if staff != [] {
      var init := staff[..|staff| - 1];
      var last := staff[|staff| - 1];
      assert NoNullEntries(init) by {
        forall i | 0 <= i < |init|
          ensures !Nullish(init[i])
          ensures forall j :: 0 <= j < |CorporateIntake.InvestigationsOf(init[i])| ==> !CorporateIntake.InvestigationsOf(init[i])[j].Null?
        {
          assert init[i] == staff[i];
        }
      }
      RecalcIsPricesPlusCosts(init);
      InvestigationSum(CorporateIntake.InvestigationsOf(last));
      CostGuardRedundant(last);
    }
  }

  /** A staff entry with individual cost 100 and investigations priced 30
      and 20 adds 150 on recalculation, where creation counted 100. */
  lemma DoubleCountExample()
    ensures var staff := Obj(map["individual_cost" := Num(100),
                                 "investigations" := Arr([Obj(map["price" := Num(30)]), Obj(map["price" := Num(20)])])]);
            && OrgTotal(map["staff_members" := Arr([staff])]) == Ok(150)
            && CorporateIntake.IndividualCostSum([staff]) == 100
  {
    var a := Obj(map["price" := Num(30)]);
    var b := Obj(map["price" := Num(20)]);
    var staff := Obj(map["individual_cost" := Num(100), "investigations" := Arr([a, b])]);
    assert CorporateIntake.InvestigationsOf(staff) == [a, b];
    assert [a, b][..1] == [a];
    assert [a][..0] == [];
    assert InvestigationAmount(a) == Ok(30) && InvestigationAmount(b) == Ok(20);
    assert SumAmounts([], InvestigationAmount) == Ok(0);
    assert SumAmounts([a], InvestigationAmount) == Ok(30);
    assert SumAmounts([a, b], InvestigationAmount) == Ok(50);
    assert [staff][..0] == [];
    assert StaffAmount(staff) == Ok(150);
  }

  /** Prices and costs that do not read as numbers contribute 0. */
  lemma NonNumericContributesZero(word: string)
    requires word != "" && !IsDecimalLiteral(word)
    ensures InvestigationAmount(Obj(map["price" := Str(word)])) == Ok(0)
    ensures CostAmount(Obj(map["individual_cost" := Str(word)])) == 0
  {
  }
}
