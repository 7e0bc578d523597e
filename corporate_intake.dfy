/**
 * The corporate booking a creation request turns into: the staff list is
 * taken from one of two body fields and normalised, every investigation is
 * folded into a summary with one row per `test_name_category` key, and the
 * total is the sum of the staff members' individual costs.
 */
module CorporateIntake {
  import opened Js
  import opened Documents
  import Identifiers

  // ---------------------------------------------------------------------
  // Schemas of the corporate booking and its staff sub-documents

  function StaffSchema(): (s: Schema)
    ensures WellFormed(s)
  {
    Schema({"search_number", "name", "age", "gender", "investigations", "individual_cost", "result_ready", "result_file"},
           map["investigations" := Arr([]), "individual_cost" := Num(0), "result_ready" := Bool(false)])
  }

  /** The corporate booking schema; array paths default to `[]`. */
  function CorporateSchema(now: int): (s: Schema)
    ensures WellFormed(s)
  {
    Schema({"organization_id", "company_name", "contact_person", "company_email", "contact_phone", "department",
            "staff_members", "number_of_employees", "total_investigation_cost", "status", "additional_info",
            "investigations", "created_at"},
           map["staff_members" := Arr([]), "total_investigation_cost" := Num(0), "status" := Str("pending"),
               "investigations" := Arr([]), "created_at" := Num(now)])
  }

  /** A staff entry as the booking stores it: a sub-document of the staff schema. */
  function StoredStaff(staff: Value): Value {
    Obj(Construct(Spread(staff), StaffSchema()))
  }

  function StoredStaffList(staff: seq<Value>): (r: seq<Value>)
    ensures |r| == |staff| && forall i :: 0 <= i < |staff| ==> r[i] == StoredStaff(staff[i])
  {
    seq(|staff|, i requires 0 <= i < |staff| => StoredStaff(staff[i]))
  }

  // ---------------------------------------------------------------------
  // Normalisation

  /** The staff list of a creation request: `staff_members` when it is an
      array, else `staff_data` when that is an array, else empty. */
  function StaffSource(body: Record): seq<Value> {
    var members := Field(body, "staff_members");
    var data := Field(body, "staff_data");
    if IsArray(members) then members.items else if IsArray(data) then data.items else []
  }

  /** `xs.map(f)` where `f` may throw: the first throw aborts the map. */
  function MapEval(xs: seq<Value>, f: Value -> Eval<Value>): (r: Eval<seq<Value>>)
    ensures r.TypeError? <==> exists i :: 0 <= i < |xs| && f(xs[i]).TypeError?
    ensures r.Ok? ==> |r.value| == |xs| && forall i :: 0 <= i < |xs| ==> f(xs[i]) == Ok(r.value[i])
    decreases |xs|
  {
    if xs == [] then Ok([])
    else
      var init := MapEval(xs[..|xs| - 1], f);
      var last := f(xs[|xs| - 1]);
      if init.TypeError? || last.TypeError? then TypeError
      else Ok(init.value + [last.value])
  }

  /** One investigation entry, normalised: its name falls back to `name` and
      then to the entry itself, its price to 0, its category to `General`.
      A `null` or `undefined` entry throws. */
  function NormaliseInvestigation(inv: Value): (r: Eval<Value>)
    ensures r.TypeError? <==> Nullish(inv)
  {
    if Nullish(inv) then TypeError
    else Ok(Obj(map[
      "test_name" := Or(Or(Prop(inv, "test_name"), Prop(inv, "name")), inv),
      "price" := Or(Prop(inv, "price"), Num(0)),
      "category" := Or(Prop(inv, "category"), Str("General"))]))
  }

  /** The investigations of an entry, when it has an array of them. */
  function InvestigationsOf(staff: Value): seq<Value> {
    var invs := Prop(staff, "investigations");
    if IsArray(invs) then invs.items else []
  }

  /** `{...staff, investigations}` with the investigations normalised, and
      `[]` when the entry has no array of them.  A `null` entry, or a `null`
      investigation, throws. */
  function NormaliseStaff(staff: Value): (r: Eval<Value>)
    ensures r.TypeError? <==> Nullish(staff) || exists i :: 0 <= i < |InvestigationsOf(staff)| && Nullish(InvestigationsOf(staff)[i])
  {
    if Nullish(staff) then TypeError
    else match MapEval(InvestigationsOf(staff), NormaliseInvestigation)
      case TypeError => TypeError
      case Ok(invs) => Ok(Obj(Spread(staff)["investigations" := Arr(invs)]))
  }

  /** A normalised investigation: exactly the three fields, a non-zero price
      or 0, and a non-empty category. */
  predicate IsNormalisedInvestigation(v: Value) {
    && v.Obj? && v.props.Keys == {"test_name", "price", "category"}
    && (Truthy(v.props["price"]) || v.props["price"] == Num(0))
    && Truthy(v.props["category"])
  }

  /** A normalised staff entry: an object whose investigations are all normalised. */
  predicate IsNormalisedStaff(v: Value) {
    && v.Obj? && "investigations" in v.props && v.props["investigations"].Arr?
    && forall j :: 0 <= j < |v.props["investigations"].items| ==> IsNormalisedInvestigation(v.props["investigations"].items[j])
  }

  /** Normalisation keeps every field of a staff entry except the
      investigations, which come out normalised, entry for entry; the name
      of an entry is kept when it is set. */
  lemma NormaliseStaffShape(staff: Value)
    requires NormaliseStaff(staff).Ok?
    ensures var s := NormaliseStaff(staff).value;
            && IsNormalisedStaff(s)
            && |s.props["investigations"].items| == |InvestigationsOf(staff)|
            && (forall k :: k in Spread(staff) && k != "investigations" ==> k in s.props && s.props[k] == Spread(staff)[k])
            && (forall j :: 0 <= j < |InvestigationsOf(staff)| && Truthy(Prop(InvestigationsOf(staff)[j], "test_name")) ==>
                 s.props["investigations"].items[j].props["test_name"] == Prop(InvestigationsOf(staff)[j], "test_name"))
  {
    var invs := InvestigationsOf(staff);
    var r := MapEval(invs, NormaliseInvestigation);
    forall j | 0 <= j < |invs|
      ensures IsNormalisedInvestigation(r.value[j])
    {
      assert NormaliseInvestigation(invs[j]) == Ok(r.value[j]);
    }
  }

  /** Normalising an investigation twice changes nothing exactly when its
      name came out truthy; a falsy name (an entry such as `0`) is replaced
      by the whole normalised object on the second pass. */
  lemma NormaliseInvestigationTwice(inv: Value)
    requires !Nullish(inv)
    ensures var once := NormaliseInvestigation(inv).value;
            NormaliseInvestigation(once) == Ok(once) <==> Truthy(once.props["test_name"])
  {
    var once := NormaliseInvestigation(inv).value;
    if !Truthy(once.props["test_name"]) {
      var twice := NormaliseInvestigation(once).value;
      assert twice.props["test_name"] == once;
      assert once.props["test_name"] != once;
    }
  }

  /** The normalised staff list, or the throw that aborts the request. */
  function NormalisedStaff(body: Record): (r: Eval<seq<Value>>)
    ensures r.Ok? ==> |r.value| == |StaffSource(body)|
    ensures r.Ok? ==> forall i :: 0 <= i < |r.value| ==> IsNormalisedStaff(r.value[i])
  {
    var r := MapEval(StaffSource(body), NormaliseStaff);
    if r.Ok? then
      assert forall i :: 0 <= i < |r.value| ==> NormaliseStaff(StaffSource(body)[i]) == Ok(r.value[i]);
      NormaliseAllShape(StaffSource(body), r.value);
      r
    else r
  }

  lemma NormaliseAllShape(source: seq<Value>, staff: seq<Value>)
    requires |source| == |staff|
    requires forall i :: 0 <= i < |source| ==> NormaliseStaff(source[i]) == Ok(staff[i])
    ensures forall i :: 0 <= i < |staff| ==> IsNormalisedStaff(staff[i])
  {
    forall i | 0 <= i < |staff|
      ensures IsNormalisedStaff(staff[i])
    {
      NormaliseStaffShape(source[i]);
    }
  }

  // ---------------------------------------------------------------------
  // The investigation summary

  /** The summary key: `${test_name}_${category}`. */
  function InvestigationKey(inv: Value): string {
    ToStr(Prop(inv, "test_name")) + "_" + ToStr(Prop(inv, "category"))
  }

  /** One summary row: the key and the first-seen name, category and price. */
  datatype SummaryRow = SummaryRow(key: string, testName: Value, category: Value, price: Value)

  function RowOf(inv: Value): SummaryRow {
    SummaryRow(InvestigationKey(inv), Prop(inv, "test_name"), Prop(inv, "category"), Prop(inv, "price"))
  }

  predicate HasKey(rows: seq<SummaryRow>, key: string) {
    exists i :: 0 <= i < |rows| && rows[i].key == key
  }

  /** Every investigation of every staff entry, staff entry by staff entry. */
  function AllInvestigations(staff: seq<Value>): seq<Value>
    decreases |staff|
  {
    if staff == [] then [] else AllInvestigations(staff[..|staff| - 1]) + InvestigationsOf(staff[|staff| - 1])
  }

  /** `investigationMap.set` on a new key; a key already present is left alone. */
  function Tally(rows: seq<SummaryRow>, inv: Value): seq<SummaryRow> {
    if HasKey(rows, InvestigationKey(inv)) then rows else rows + [RowOf(inv)]
  }

  /** The summary rows after the investigations in order. */
  function Summarize(invs: seq<Value>): seq<SummaryRow>
    decreases |invs|
  {
    if invs == [] then [] else Tally(Summarize(invs[..|invs| - 1]), invs[|invs| - 1])
  }

  /** The position of the first investigation with the key, `|invs|` if none. */
  function FirstWithKey(invs: seq<Value>, key: string): (r: nat)
    ensures r <= |invs|
    ensures r < |invs| ==> InvestigationKey(invs[r]) == key
    ensures forall j :: 0 <= j < r ==> InvestigationKey(invs[j]) != key
    decreases |invs|
  {
    if invs == [] then 0
    else
      var p := FirstWithKey(invs[..|invs| - 1], key);
      if p < |invs| - 1 then p
      else if InvestigationKey(invs[|invs| - 1]) == key then |invs| - 1
      else |invs|
  }

  ghost predicate DistinctKeys(rows: seq<SummaryRow>) {
    forall i, j :: 0 <= i < j < |rows| ==> rows[i].key != rows[j].key
  }

  /** A key has a row exactly when some investigation carries it. */
  ghost predicate CoversKeys(rows: seq<SummaryRow>, invs: seq<Value>) {
    forall key :: HasKey(rows, key) <==> FirstWithKey(invs, key) < |invs|
  }

  /** Each row is made from the first investigation with its key. */
  ghost predicate FirstSeenRows(rows: seq<SummaryRow>, invs: seq<Value>) {
    forall i :: 0 <= i < |rows| ==>
      FirstWithKey(invs, rows[i].key) < |invs| && rows[i] == RowOf(invs[FirstWithKey(invs, rows[i].key)])
  }

  /** The rows are in the order their keys are first seen. */
  ghost predicate FirstSeenOrder(rows: seq<SummaryRow>, invs: seq<Value>) {
    forall i, j :: 0 <= i < j < |rows| ==> FirstWithKey(invs, rows[i].key) < FirstWithKey(invs, rows[j].key)
  }

  /** The summary has one row per distinct key and no more, in first-seen
      order, each with the name, category and price of the first
      investigation carrying its key. */
  ghost predicate IsSummaryOf(rows: seq<SummaryRow>, invs: seq<Value>) {
    DistinctKeys(rows) && CoversKeys(rows, invs) && FirstSeenRows(rows, invs) && FirstSeenOrder(rows, invs)
  }

  lemma {:induction false} SummarizeIsSummary(invs: seq<Value>)
    ensures IsSummaryOf(Summarize(invs), invs)
    decreases |invs|
  {
    if invs != [] {
      var prev := invs[..|invs| - 1];
      var x := invs[|invs| - 1];
      SummarizeIsSummary(prev);
      assert invs == prev + [x];
      FirstWithKeyAppend(prev, x);
      if HasKey(Summarize(prev), InvestigationKey(x)) {
        TallySeenKey(Summarize(prev), prev, x);
      } else {
        TallyNewKey(Summarize(prev), prev, x);
      }
    }
  }

  /** Appending an investigation moves no key's first position, and a key
      seen for the first time is first seen at the new position. */
  lemma FirstWithKeyAppend(prev: seq<Value>, x: Value)
    ensures forall key :: FirstWithKey(prev, key) < |prev| ==> FirstWithKey(prev + [x], key) == FirstWithKey(prev, key)
    ensures forall key :: FirstWithKey(prev, key) == |prev| ==>
              FirstWithKey(prev + [x], key) == if InvestigationKey(x) == key then |prev| else |prev| + 1
  {
    assert (prev + [x])[..|prev|] == prev;
  }

  lemma TallySeenKey(rows: seq<SummaryRow>, prev: seq<Value>, x: Value)
    requires IsSummaryOf(rows, prev)
    requires HasKey(rows, InvestigationKey(x))
    requires forall key :: FirstWithKey(prev, key) < |prev| ==> FirstWithKey(prev + [x], key) == FirstWithKey(prev, key)
    requires forall key :: FirstWithKey(prev, key) == |prev| ==>
               FirstWithKey(prev + [x], key) == if InvestigationKey(x) == key then |prev| else |prev| + 1
    ensures IsSummaryOf(rows, prev + [x])
  {
    var invs := prev + [x];
    forall i | 0 <= i < |rows|
      ensures FirstWithKey(invs, rows[i].key) == FirstWithKey(prev, rows[i].key) < |prev|
      ensures invs[FirstWithKey(invs, rows[i].key)] == prev[FirstWithKey(prev, rows[i].key)]
    {
    }
    forall key
      ensures HasKey(rows, key) <==> FirstWithKey(invs, key) < |invs|
    {
    }
  }

  lemma HasKeyAppend(rows: seq<SummaryRow>, row: SummaryRow, key: string)
    ensures HasKey(rows + [row], key) <==> HasKey(rows, key) || row.key == key
  {
    if HasKey(rows + [row], key) && row.key != key {
      var i :| 0 <= i < |rows| + 1 && (rows + [row])[i].key == key;
      assert rows[i].key == key;
    }
    if HasKey(rows, key) {
      var i :| 0 <= i < |rows| && rows[i].key == key;
      assert (rows + [row])[i].key == key;
    }
    if row.key == key {
      assert (rows + [row])[|rows|].key == key;
    }
  }

  lemma TallyNewKey(rows: seq<SummaryRow>, prev: seq<Value>, x: Value)
    requires IsSummaryOf(rows, prev)
    requires !HasKey(rows, InvestigationKey(x))
    ensures IsSummaryOf(rows + [RowOf(x)], prev + [x])
  {
    NewKeyDistinct(rows, prev, x);
    NewKeyCovers(rows, prev, x);
    NewKeyRowsAndOrder(rows, prev, x);
  }

  lemma NewKeyDistinct(rows: seq<SummaryRow>, prev: seq<Value>, x: Value)
    requires DistinctKeys(rows)
    requires !HasKey(rows, InvestigationKey(x))
    ensures DistinctKeys(rows + [RowOf(x)])
  {
    var rows' := rows + [RowOf(x)];
    forall i, j | 0 <= i < j < |rows'|
      ensures rows'[i].key != rows'[j].key
    {
      if j == |rows| {
        assert rows'[i] == rows[i];
        assert HasKey(rows, rows[i].key);
      } else {
        assert rows'[i] == rows[i] && rows'[j] == rows[j];
      }
    }
  }

  lemma NewKeyCovers(rows: seq<SummaryRow>, prev: seq<Value>, x: Value)
    requires CoversKeys(rows, prev)
    requires !HasKey(rows, InvestigationKey(x))
    ensures CoversKeys(rows + [RowOf(x)], prev + [x])
  {
    var invs := prev + [x];
    var k := InvestigationKey(x);
    FirstWithKeyAppend(prev, x);
    forall key
      ensures HasKey(rows + [RowOf(x)], key) <==> FirstWithKey(invs, key) < |invs|
    {
      HasKeyAppend(rows, RowOf(x), key);
      if key == k {
        assert FirstWithKey(invs, key) == |prev|;
      } else if FirstWithKey(prev, key) < |prev| {
        assert HasKey(rows, key);
      } else {
        assert !HasKey(rows, key);
        assert FirstWithKey(invs, key) == |invs|;
      }
    }
  }

  lemma NewKeyRowsAndOrder(rows: seq<SummaryRow>, prev: seq<Value>, x: Value)
    requires CoversKeys(rows, prev) && FirstSeenRows(rows, prev) && FirstSeenOrder(rows, prev)
    requires !HasKey(rows, InvestigationKey(x))
    ensures FirstSeenRows(rows + [RowOf(x)], prev + [x])
    ensures FirstSeenOrder(rows + [RowOf(x)], prev + [x])
  {
    KeptPositions(rows, prev, x);
    assert FirstWithKey(prev, InvestigationKey(x)) == |prev|;
    assert FirstWithKey(prev + [x], InvestigationKey(x)) == |prev| by {
      FirstWithKeyAppend(prev, x);
    }
    NewKeyRows(rows, prev, prev + [x], x);
    NewKeyOrder(rows, prev, prev + [x], RowOf(x));
  }

  /** The rows made so far keep their first positions after an append. */
  lemma KeptPositions(rows: seq<SummaryRow>, prev: seq<Value>, x: Value)
    requires FirstSeenRows(rows, prev)
    ensures forall i :: 0 <= i < |rows| ==>
              FirstWithKey(prev + [x], rows[i].key) == FirstWithKey(prev, rows[i].key) < |prev|
  {
    FirstWithKeyAppend(prev, x);
  }

  lemma NewKeyRows(rows: seq<SummaryRow>, prev: seq<Value>, invs: seq<Value>, x: Value)
    requires FirstSeenRows(rows, prev)
    requires |invs| == |prev| + 1 && invs[|prev|] == x
    requires forall p :: 0 <= p < |prev| ==> invs[p] == prev[p]
    requires forall i :: 0 <= i < |rows| ==>
               FirstWithKey(invs, rows[i].key) == FirstWithKey(prev, rows[i].key) < |prev|
    requires FirstWithKey(invs, InvestigationKey(x)) == |prev|
    ensures FirstSeenRows(rows + [RowOf(x)], invs)
  {
    var rows' := rows + [RowOf(x)];
    forall i | 0 <= i < |rows'|
      ensures FirstWithKey(invs, rows'[i].key) < |invs| && rows'[i] == RowOf(invs[FirstWithKey(invs, rows'[i].key)])
    {
      if i < |rows| {
        assert rows'[i] == rows[i];
        assert invs[FirstWithKey(prev, rows[i].key)] == prev[FirstWithKey(prev, rows[i].key)];
      } else {
        assert rows'[i].key == InvestigationKey(x);
      }
    }
  }

  lemma NewKeyOrder(rows: seq<SummaryRow>, prev: seq<Value>, invs: seq<Value>, row: SummaryRow)
    requires FirstSeenOrder(rows, prev)
    requires forall i :: 0 <= i < |rows| ==>
               FirstWithKey(invs, rows[i].key) == FirstWithKey(prev, rows[i].key) < |prev|
    requires FirstWithKey(invs, row.key) == |prev|
    ensures FirstSeenOrder(rows + [row], invs)
  {
    var rows' := rows + [row];
    forall i, j | 0 <= i < j < |rows'|
      ensures FirstWithKey(invs, rows'[i].key) < FirstWithKey(invs, rows'[j].key)
    {
      assert rows'[i] == rows[i];
      if j < |rows| {
        assert rows'[j] == rows[j];
      } else {
        assert rows'[j] == row;
      }
    }
  }

  /** Two different name/category pairs can share a key: an investigation
      named `a_b` in category `c` and one named `a` in category `b_c` fold
      into one summary row. */
  lemma SummaryKeyCollision()
    ensures var first := Obj(map["test_name" := Str("a_b"), "category" := Str("c"), "price" := Num(1)]);
            var second := Obj(map["test_name" := Str("a"), "category" := Str("b_c"), "price" := Num(2)]);
            Summarize([first, second]) == [RowOf(first)]
  {
    var first := Obj(map["test_name" := Str("a_b"), "category" := Str("c"), "price" := Num(1)]);
    var second := Obj(map["test_name" := Str("a"), "category" := Str("b_c"), "price" := Num(2)]);
    assert [first, second][..1] == [first];
    assert [first][..0] == [];
    assert Summarize([first]) == [RowOf(first)];
    assert ToStr(Str("a_b")) + "_" + ToStr(Str("c")) == "a_b_c";
    assert ToStr(Str("a")) + "_" + ToStr(Str("b_c")) == "a_b_c";
    assert [RowOf(first)][0].key == InvestigationKey(second);
  }

  /** A summary row as the booking stores it. */
  function EmitRow(row: SummaryRow): Value {
    Obj(map["test_name" := row.testName, "category" := row.category, "price" := row.price])
  }

  function EmitSummary(rows: seq<SummaryRow>): (r: seq<Value>)
    ensures |r| == |rows| && forall i :: 0 <= i < |rows| ==> r[i] == EmitRow(rows[i])
  {
    seq(|rows|, i requires 0 <= i < |rows| => EmitRow(rows[i]))
  }

  /** The position of a key among the rows. */
  function IndexOfKey(rows: seq<SummaryRow>, key: string): (r: Option<nat>)
    ensures r.Some? ==> r.value < |rows| && rows[r.value].key == key
    ensures r.None? <==> !HasKey(rows, key)
    decreases |rows|
  {
    if rows == [] then None
    else if rows[0].key == key then Some(0)
    else match IndexOfKey(rows[1..], key)
      case None => (assert forall i :: 1 <= i < |rows| ==> rows[i] == rows[1..][i - 1]; None)
      case Some(k) => Some(k + 1)
  }

  lemma SummarizeSnoc(seen: seq<Value>, x: Value)
    ensures Summarize(seen + [x]) == Tally(Summarize(seen), x)
  {
    assert (seen + [x])[..|seen|] == seen;
  }

  lemma AllInvestigationsSnoc(staff: seq<Value>, i: nat)
    requires i < |staff|
    ensures AllInvestigations(staff[..i + 1]) == AllInvestigations(staff[..i]) + InvestigationsOf(staff[i])
  {
    assert staff[..i + 1][..i] == staff[..i];
  }

  /** The inner summary loop over one staff entry's investigations: each
      key is looked up in the map and a row is added for a key not seen
      before. */
  method TallyAll(rows: seq<SummaryRow>, ghost seen: seq<Value>, invs: seq<Value>) returns (out: seq<SummaryRow>)
    requires rows == Summarize(seen)
    ensures out == Summarize(seen + invs)
  {
    out := rows;
    var j := 0;
    assert seen + invs[..0] == seen;
    while j < |invs|
      invariant 0 <= j <= |invs|
      invariant out == Summarize(seen + invs[..j])
    {
      SummarizeSnoc(seen + invs[..j], invs[j]);
      assert seen + invs[..j + 1] == (seen + invs[..j]) + [invs[j]];
      var found := IndexOfKey(out, InvestigationKey(invs[j]));
      if found.None? {
        out := out + [RowOf(invs[j])];
      }
      j := j + 1;
    }
    assert invs[..j] == invs;
  }

  /** The summary loop over the staff entries that have an array of
      investigations. */
  method BuildSummary(staff: seq<Value>) returns (investigations: seq<Value>)
    ensures investigations == EmitSummary(Summarize(AllInvestigations(staff)))
  {
    var rows: seq<SummaryRow> := [];
    var i := 0;
    while i < |staff|
      invariant 0 <= i <= |staff|
      invariant rows == Summarize(AllInvestigations(staff[..i]))
    {
      rows := TallyAll(rows, AllInvestigations(staff[..i]), InvestigationsOf(staff[i]));
      AllInvestigationsSnoc(staff, i);
      i := i + 1;
    }
    assert staff[..i] == staff;
    investigations := EmitSummary(rows);
  }

  // ---------------------------------------------------------------------
  // The creation total

  /** `Number(staff.individual_cost) || 0` for one entry. */
  function IndividualCost(staff: Value): int {
    NumberOr0(Prop(staff, "individual_cost"))
  }

  /** The sum of the individual costs of the staff entries. */
  function IndividualCostSum(staff: seq<Value>): int
    decreases |staff|
  {
    if staff == [] then 0 else IndividualCostSum(staff[..|staff| - 1]) + IndividualCost(staff[|staff| - 1])
  }

  /** The creation total reads nothing but the individual costs: two staff
      lists that agree on those have the same total, whatever their
      investigations and prices. */
  lemma {:induction false} CreationTotalIgnoresInvestigations(a: seq<Value>, b: seq<Value>)
    requires |a| == |b|
    requires forall i :: 0 <= i < |a| ==> IndividualCost(a[i]) == IndividualCost(b[i])
    ensures IndividualCostSum(a) == IndividualCostSum(b)
    decreases |a|
  {
    if a != [] {
      CreationTotalIgnoresInvestigations(a[..|a| - 1], b[..|b| - 1]);
    }
  }

  /** Storing a staff entry as a sub-document keeps its individual cost:
      the schema default 0 stands in only for a cost that was absent. */
  lemma StoredStaffCost(staff: Value)
    ensures IndividualCost(StoredStaff(staff)) == IndividualCost(staff)
  {
    var fields := Spread(staff);
    var doc := Construct(fields, StaffSchema());
    if Field(fields, "individual_cost") == Undefined {
      assert doc["individual_cost"] == Num(0);
    }
  }

  lemma {:induction false} StoredStaffCostSum(staff: seq<Value>)
    ensures IndividualCostSum(StoredStaffList(staff)) == IndividualCostSum(staff)
  {
    forall i | 0 <= i < |staff|
      ensures IndividualCost(StoredStaffList(staff)[i]) == IndividualCost(staff[i])
    {
      StoredStaffCost(staff[i]);
    }
    CreationTotalIgnoresInvestigations(StoredStaffList(staff), staff);
  }

  /** The creation loop: `total += Number(staff.individual_cost) || 0`. */
  method SumIndividualCosts(staff: seq<Value>) returns (total: int)
    ensures total == IndividualCostSum(staff)
  {
    total := 0;
    var i := 0;
    while i < |staff|
      invariant 0 <= i <= |staff|
      invariant total == IndividualCostSum(staff[..i])
    {
      assert staff[..i + 1][..i] == staff[..i];
      total := total + IndividualCost(staff[i]);
      i := i + 1;
    }
    assert staff[..i] == staff;
  }

  // ---------------------------------------------------------------------
  // The new booking

  /** What a creation request stores, with the `staff_count` it computes. */
  datatype NewBooking = NewBooking(doc: Record, staffCount: nat)

  /** `body.organization_id || ('ORG' + six digits)` */
  function OrganizationId(body: Record, draw: real): (r: Value)
    requires 0.0 <= draw < 1.0
    ensures Truthy(r)
    ensures Truthy(Field(body, "organization_id")) ==> r == Field(body, "organization_id")
    ensures !Truthy(Field(body, "organization_id")) ==> r == Str(Identifiers.OrgNumericId(draw))
  {
    var generated := Identifiers.OrgNumericId(draw);
    assert generated != "";
    Or(Field(body, "organization_id"), Str(generated))
  }

  /** The fields the creation request passes to the model. */
  function BookingFields(body: Record, staff: seq<Value>, orgId: Value, investigations: seq<Value>): (r: Record)
    ensures "status" !in r && "total_investigation_cost" !in r && "created_at" !in r
  {
    map[
      "organization_id" := orgId,
      "company_name" := Field(body, "company_name"),
      "contact_person" := Field(body, "contact_person"),
      "company_email" := Field(body, "company_email"),
      "contact_phone" := Or(Field(body, "company_phone"), Field(body, "contact_phone")),
      "department" := Or(Field(body, "service_type"), Field(body, "department")),
      "number_of_employees" := Or(Field(body, "estimated_employees"), Field(body, "number_of_employees")),
      "additional_info" := Or(Field(body, "message"), Field(body, "additional_info")),
      "staff_members" := Arr(StoredStaffList(staff)),
      "investigations" := Arr(investigations)]
  }

  /** The booking a creation request stores, or the throw that aborts it. */
  function CreateBooking(body: Record, draw: real, now: int): Eval<NewBooking>
    requires 0.0 <= draw < 1.0
  {
    match NormalisedStaff(body)
    case TypeError => TypeError
    case Ok(staff) =>
      var doc := Construct(BookingFields(body, staff, OrganizationId(body, draw), EmitSummary(Summarize(AllInvestigations(staff)))), CorporateSchema(now));
      Ok(NewBooking(doc["total_investigation_cost" := Num(IndividualCostSum(StoredStaffList(staff)))], |staff|))
  }

  /** Normalising an entry keeps its individual cost. */
  lemma NormaliseStaffCost(staff: Value)
    requires NormaliseStaff(staff).Ok?
    ensures IndividualCost(NormaliseStaff(staff).value) == IndividualCost(staff)
  {
  }

  lemma {:induction false} NormalisedStaffCostSum(body: Record)
    requires NormalisedStaff(body).Ok?
    ensures IndividualCostSum(NormalisedStaff(body).value) == IndividualCostSum(StaffSource(body))
  {
    var source := StaffSource(body);
    var staff := NormalisedStaff(body).value;
    forall i | 0 <= i < |source|
      ensures IndividualCost(staff[i]) == IndividualCost(source[i])
    {
      assert NormaliseStaff(source[i]) == Ok(staff[i]);
      NormaliseStaffCost(source[i]);
    }
    CreationTotalIgnoresInvestigations(staff, source);
  }

  /** The creation total is the sum of `Number(individual_cost) || 0` over
      the request's staff entries, investigation prices play no part, and
      `staff_count` is the number of entries. */
  lemma CreateBookingTotal(body: Record, draw: real, now: int)
    requires 0.0 <= draw < 1.0
    requires CreateBooking(body, draw, now).Ok?
    ensures var b := CreateBooking(body, draw, now).value;
            && b.doc["total_investigation_cost"] == Num(IndividualCostSum(StaffSource(body)))
            && b.staffCount == |StaffSource(body)|
  {
    var staff := NormalisedStaff(body).value;
    StoredStaffCostSum(staff);
    NormalisedStaffCostSum(body);
  }

  /** The document a successful creation stores, spelled out. */
  lemma CreateBookingDoc(body: Record, draw: real, now: int)
    requires 0.0 <= draw < 1.0
    requires CreateBooking(body, draw, now).Ok?
    ensures var staff := NormalisedStaff(body).value;
            CreateBooking(body, draw, now).value.doc ==
              Construct(BookingFields(body, staff, OrganizationId(body, draw), EmitSummary(Summarize(AllInvestigations(staff)))), CorporateSchema(now))
                ["total_investigation_cost" := Num(IndividualCostSum(StoredStaffList(staff)))]
  {
  }

  /** The stored organisation ID is the one `OrganizationId` picks: the
      body's when truthy, else `ORG` with six digits. */
  lemma CreateBookingIdentity(body: Record, draw: real, now: int)
    requires 0.0 <= draw < 1.0
    requires CreateBooking(body, draw, now).Ok?
    ensures var b := CreateBooking(body, draw, now).value;
            "organization_id" in b.doc && b.doc["organization_id"] == OrganizationId(body, draw)
  {
    var staff := NormalisedStaff(body).value;
    var orgId := OrganizationId(body, draw);
    var fields := BookingFields(body, staff, orgId, EmitSummary(Summarize(AllInvestigations(staff))));
    var total := IndividualCostSum(StoredStaffList(staff));
    assert CreateBooking(body, draw, now).value.doc == Construct(fields, CorporateSchema(now))["total_investigation_cost" := Num(total)] by {
      CreateBookingDoc(body, draw, now);
    }
    assert "organization_id" in fields && fields["organization_id"] == orgId by {
      BookingFieldsOrganization(body, staff, orgId, EmitSummary(Summarize(AllInvestigations(staff))));
    }
    StoredOrganizationId(fields, orgId, now, total);
  }

  lemma BookingFieldsOrganization(body: Record, staff: seq<Value>, orgId: Value, investigations: seq<Value>)
    ensures var fields := BookingFields(body, staff, orgId, investigations);
            "organization_id" in fields && fields["organization_id"] == orgId
  {
  }

  lemma StoredOrganizationId(fields: Record, orgId: Value, now: int, total: int)
    requires "organization_id" in fields && fields["organization_id"] == orgId && Truthy(orgId)
    ensures var doc := Construct(fields, CorporateSchema(now))["total_investigation_cost" := Num(total)];
            "organization_id" in doc && doc["organization_id"] == orgId
  {
    ConstructedField(fields, now, total, "organization_id");
  }

  /** A new booking's status starts `pending`. */
  lemma CreateBookingStatus(body: Record, draw: real, now: int)
    requires 0.0 <= draw < 1.0
    requires CreateBooking(body, draw, now).Ok?
    ensures var b := CreateBooking(body, draw, now).value;
            "status" in b.doc && b.doc["status"] == Str("pending")
  {
    var staff := NormalisedStaff(body).value;
    var fields := BookingFields(body, staff, OrganizationId(body, draw), EmitSummary(Summarize(AllInvestigations(staff))));
    CreateBookingDoc(body, draw, now);
    ConstructedDefault(fields, now, IndividualCostSum(StoredStaffList(staff)), "status");
  }

  lemma ConstructedField(fields: Record, now: int, total: int, k: string)
    requires k in fields && fields[k] != Undefined && k in CorporateSchema(now).paths && k != "total_investigation_cost"
    ensures var doc := Construct(fields, CorporateSchema(now))["total_investigation_cost" := Num(total)];
            k in doc && doc[k] == fields[k]
  {
  }

  lemma ConstructedDefault(fields: Record, now: int, total: int, k: string)
    requires Field(fields, k) == Undefined && k in CorporateSchema(now).defaults && k != "total_investigation_cost"
    ensures var doc := Construct(fields, CorporateSchema(now))["total_investigation_cost" := Num(total)];
            k in doc && doc[k] == CorporateSchema(now).defaults[k]
  {
  }

  /** The stored investigations are the summary of every staff entry's
      normalised investigations. */
  lemma CreateBookingSummary(body: Record, draw: real, now: int)
    requires 0.0 <= draw < 1.0
    requires CreateBooking(body, draw, now).Ok?
    ensures var b := CreateBooking(body, draw, now).value;
            var staff := NormalisedStaff(body).value;
            && "investigations" in b.doc
            && b.doc["investigations"] == Arr(EmitSummary(Summarize(AllInvestigations(staff))))
            && IsSummaryOf(Summarize(AllInvestigations(staff)), AllInvestigations(staff))
  {
    var staff := NormalisedStaff(body).value;
    var fields := BookingFields(body, staff, OrganizationId(body, draw), EmitSummary(Summarize(AllInvestigations(staff))));
    assert fields["investigations"] != Undefined;
    SummarizeIsSummary(AllInvestigations(staff));
  }
}
