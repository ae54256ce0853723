/**
 * The pivot inside the HTTP server's `compare_foods`: for every fetched food a summary
 * of its key nutrients, and one table with a row per key nutrient heading collecting
 * `{food, amount, unit}` from every matching record of every food.
 */
module ComparisonPivot {
  import opened Wrappers
  import opened Fields
  import opened Dicts
  import opened FoodData

  /** The eight nutrient ids a comparison looks at, with their display labels. */
  const KeyNutrients: map<int, string> := map[
    1008 := "Energy (kcal)", 1003 := "Protein", 1004 := "Total Fat", 1005 := "Carbohydrate",
    1079 := "Fiber", 1087 := "Calcium", 1089 := "Iron", 1162 := "Vitamin C"]

  const ComparisonNotes: seq<string> := [
    "Values shown are per 100g unless otherwise specified",
    "Use this data to compare foods for your dietary goals"]

  /** One cell of a table row: `{"food": ..., "amount": ..., "unit": ...}`. */
  datatype ComparisonEntry = ComparisonEntry(food: Option<string>, amount: Option<Amount>, unit: Option<string>)

  /** `food_summary`: the food's identity and its key nutrients by heading. */
  datatype FoodSummary = FoodSummary(
    fdcId: Option<int>,
    description: Option<string>,
    dataType: Option<string>,
    nutrients: Dict<string, AmountUnit>)

  /** The `comparison` object, with `summary` flattened into its two fields. */
  datatype Comparison = Comparison(
    foods: seq<FoodSummary>,
    nutrientComparison: Dict<string, seq<ComparisonEntry>>,
    totalFoodsCompared: nat,
    comparisonNotes: seq<string>)

  /**
   * The heading and value a record contributes when its id is a key nutrient; a missing
   * amount reads as 0 and a missing unit as the empty string (a stored null stays None).
   */
  function KeyWrite(r: NutrientRecord): Option<(string, AmountUnit)> {
    var id := r.id.Get();
    if id.Some? && id.value in KeyNutrients then
      Some((KeyNutrients[id.value], AmountUnit(r.amount.GetOr(ZeroAmount), r.unitName.GetOr(""))))
    else None
  }

  function Summary(food: Food): FoodSummary {
    FoodSummary(food.fdcId.Get(), food.description.Get(), food.dataType.Get(), PutEach(NutrientsOf(food), KeyWrite))
  }

  /** Each record of one food, paired with that food's description. */
  function Tagged(desc: Option<string>, ns: seq<NutrientRecord>): (t: seq<(Option<string>, NutrientRecord)>)
    ensures |t| == |ns| && forall k :: 0 <= k < |ns| ==> t[k] == (desc, ns[k])
  {
    seq(|ns|, k requires 0 <= k < |ns| => (desc, ns[k]))
  }

  /** The records of all foods in food order, each paired with its food's description. */
  function Matches(foods: seq<Food>): seq<(Option<string>, NutrientRecord)> {
    if foods == [] then []
    else
      var f := foods[|foods| - 1];
      Matches(foods[..|foods| - 1]) + Tagged(f.description.Get(), NutrientsOf(f))
  }

  /** The table cell a described record appends, under its heading. */
  function RowWrite(p: (Option<string>, NutrientRecord)): Option<(string, ComparisonEntry)> {
    match KeyWrite(p.1)
    case None => None
    case Some(w) => Some((w.0, ComparisonEntry(p.0, w.1.amount, w.1.unit)))
  }

  /**
   * The comparison the pivot builds: one summary per food in order, and the table that
   * appending each key-nutrient record's cell to its heading's row produces.
   */
  function ComparisonOf(foods: seq<Food>): (c: Comparison)
    ensures |c.foods| == |foods| == c.totalFoodsCompared
    ensures forall k :: 0 <= k < |foods| ==> c.foods[k].description == foods[k].description.Get()
  {
    Comparison(
      Summaries(foods),
      AppendEach(Matches(foods), RowWrite),
      |foods|,
      ComparisonNotes)
  }

  /** One summary per food, in order. */
  function Summaries(foods: seq<Food>): (s: seq<FoodSummary>)
    ensures |s| == |foods| && forall k :: 0 <= k < |foods| ==> s[k] == Summary(foods[k])
  {
    seq(|foods|, k requires 0 <= k < |foods| => Summary(foods[k]))
  }

  lemma SummariesSnoc(foods: seq<Food>, i: nat)
    requires i < |foods|
    ensures Summaries(foods[..i + 1]) == Summaries(foods[..i]) + [Summary(foods[i])]
  {
    assert Summaries(foods[..i + 1]) == Summaries(foods[..i]) + [Summary(foods[i])];
  }

  lemma TaggedSnoc(desc: Option<string>, ns: seq<NutrientRecord>, j: nat)
    requires j < |ns|
    ensures Tagged(desc, ns[..j + 1]) == Tagged(desc, ns[..j]) + [(desc, ns[j])]
  {
  }

  lemma MatchesSnoc(foods: seq<Food>, i: nat)
    requires i < |foods|
    ensures Matches(foods[..i + 1]) == Matches(foods[..i]) + Tagged(foods[i].description.Get(), NutrientsOf(foods[i]))
  {
    assert foods[..i + 1][..i] == foods[..i];
  }

  /**
   * Python's row update: create the row if its heading is new, then append to it. This is
   * the same as one `Append`.
   */
  lemma CreateThenAppend<V>(t: Dict<string, seq<V>>, heading: string, v: V)
    ensures var t1 := if Get(t, heading).None? then Put(t, heading, []) else t;
      Get(t1, heading).Some? && Put(t1, heading, Get(t1, heading).value + [v]) == Append(t, heading, v)
  {
    if Get(t, heading).None? {
      PutPut(t, heading, [], [v]);
      assert [] + [v] == [v];
    }
  }

  /** `if heading not in t: t[heading] = []` followed by `t[heading].append(e)`. */
  method AppendRow(t: Dict<string, seq<ComparisonEntry>>, heading: string, e: ComparisonEntry)
    returns (t': Dict<string, seq<ComparisonEntry>>)
    ensures t' == Append(t, heading, e)
  {
    CreateThenAppend(t, heading, e);
    t' := t;
    if Get(t', heading).None? {
      t' := Put(t', heading, []);
    }
    t' := Put(t', heading, Get(t', heading).value + [e]);
  }

  /** One record more, in the per-food summary and in the table. */
  lemma PivotStep(ns: seq<NutrientRecord>, j: nat, desc: Option<string>, seen: seq<(Option<string>, NutrientRecord)>)
    requires j < |ns|
    ensures PutEach(ns[..j + 1], KeyWrite) ==
      match KeyWrite(ns[j]) case None => PutEach(ns[..j], KeyWrite) case Some(w) => Put(PutEach(ns[..j], KeyWrite), w.0, w.1)
    ensures AppendEach(seen + Tagged(desc, ns[..j + 1]), RowWrite) ==
      match KeyWrite(ns[j])
      case None => AppendEach(seen + Tagged(desc, ns[..j]), RowWrite)
      case Some(w) => Append(AppendEach(seen + Tagged(desc, ns[..j]), RowWrite), w.0, ComparisonEntry(desc, w.1.amount, w.1.unit))
  {
    var r := ns[j];
    PutEachStep(ns, j, KeyWrite);
    TaggedSnoc(desc, ns, j);
    AppendEachSnoc(seen + Tagged(desc, ns[..j]), (desc, r), RowWrite);
    assert seen + Tagged(desc, ns[..j + 1]) == (seen + Tagged(desc, ns[..j])) + [(desc, r)];
  }

  /**
   * The inner loop of the pivot for one food: fills the food's `nutrients` and appends
   * its key-nutrient cells to `table`, which holds what the earlier records `seen` built.
   */
  method PivotFood(food: Food, table: Dict<string, seq<ComparisonEntry>>, ghost seen: seq<(Option<string>, NutrientRecord)>)
    returns (nutrients: Dict<string, AmountUnit>, table': Dict<string, seq<ComparisonEntry>>)
    requires table == AppendEach(seen, RowWrite)
    ensures nutrients == Summary(food).nutrients
    ensures table' == AppendEach(seen + Tagged(food.description.Get(), NutrientsOf(food)), RowWrite)
  {
    var desc := food.description.Get();
    var ns := NutrientsOf(food);
    nutrients := [];
    table' := table;
    var j := 0;
    assert seen + Tagged(desc, ns[..0]) == seen;
    while j < |ns|
      invariant 0 <= j <= |ns|
      invariant nutrients == PutEach(ns[..j], KeyWrite)
      invariant table' == AppendEach(seen + Tagged(desc, ns[..j]), RowWrite)
    {
      PivotStep(ns, j, desc, seen);
      var r := ns[j];
      var id := r.id.Get();
      if id.Some? && id.value in KeyNutrients {
        var heading := KeyNutrients[id.value];
        var amount := r.amount.GetOr(ZeroAmount);
        var unit := r.unitName.GetOr("");
        nutrients := Put(nutrients, heading, AmountUnit(amount, unit));
        table' := AppendRow(table', heading, ComparisonEntry(desc, amount, unit));
      }
      j := j + 1;
    }
    assert ns[..j] == ns;
  }

  /** The pivot loop of `compare_foods` over the foods that were fetched. */
  method BuildComparison(foods: seq<Food>) returns (c: Comparison)
    ensures c == ComparisonOf(foods)
  {
    var summaries: seq<FoodSummary> := [];
    var table: Dict<string, seq<ComparisonEntry>> := [];
    var i := 0;
    while i < |foods|
      invariant 0 <= i <= |foods|
      invariant summaries == Summaries(foods[..i])
      invariant table == AppendEach(Matches(foods[..i]), RowWrite)
    {
      SummariesSnoc(foods, i);
      MatchesSnoc(foods, i);
      var food := foods[i];
      var nutrients;
      nutrients, table := PivotFood(food, table, Matches(foods[..i]));
      summaries := summaries + [FoodSummary(food.fdcId.Get(), food.description.Get(), food.dataType.Get(), nutrients)];
      i := i + 1;
    }
    assert foods[..i] == foods;
    c := Comparison(summaries, table, |foods|, ComparisonNotes);
  }

  /** The heading record `r` is listed under, if its id is one of the key nutrients. */
  predicate Labelled(r: NutrientRecord, heading: string) {
    r.id.Get().Some? && r.id.Get().value in KeyNutrients && KeyNutrients[r.id.Get().value] == heading
  }

  /** The cell `r` contributes, for the food described by `desc`. */
  function Cell(desc: Option<string>, r: NutrientRecord): ComparisonEntry {
    ComparisonEntry(desc, r.amount.GetOr(ZeroAmount), r.unitName.GetOr(""))
  }

  /** The cells of the records of one food that are labelled `heading`, in record order. */
  function FoodCells(desc: Option<string>, ns: seq<NutrientRecord>, heading: string): seq<ComparisonEntry> {
    if ns == [] then []
    else
      var cells := FoodCells(desc, ns[..|ns| - 1], heading);
      if Labelled(ns[|ns| - 1], heading) then cells + [Cell(desc, ns[|ns| - 1])] else cells
  }

  /** The row `heading` as it should read: every food's cells, food after food. */
  function Row(foods: seq<Food>, heading: string): seq<ComparisonEntry> {
    if foods == [] then []
    else
      var f := foods[|foods| - 1];
      Row(foods[..|foods| - 1], heading) + FoodCells(f.description.Get(), NutrientsOf(f), heading)
  }

  lemma {:induction false} TaggedCells(desc: Option<string>, ns: seq<NutrientRecord>, heading: string)
    ensures WrittenValues(Tagged(desc, ns), RowWrite, heading) == FoodCells(desc, ns, heading)
  {
    if ns != [] {
      var n := |ns| - 1;
      TaggedCells(desc, ns[..n], heading);
      TaggedSnoc(desc, ns, n);
      assert ns[..n + 1] == ns;
      var t := Tagged(desc, ns);
      assert t[..|t| - 1] == Tagged(desc, ns[..n]);
    }
  }

  lemma {:induction false} MatchesRow(foods: seq<Food>, heading: string)
    ensures WrittenValues(Matches(foods), RowWrite, heading) == Row(foods, heading)
  {
    if foods != [] {
      var n := |foods| - 1;
      var f := foods[n];
      MatchesRow(foods[..n], heading);
      WrittenValuesAppend(Matches(foods[..n]), Tagged(f.description.Get(), NutrientsOf(f)), RowWrite, heading);
      TaggedCells(f.description.Get(), NutrientsOf(f), heading);
    }
  }

  /**
   * The table has a row `heading` exactly when some record of some food is labelled
   * `heading`, and the row holds one cell per such record, in food order and within a
   * food in record order: a repeated id appends again.
   */
  lemma TableRow(foods: seq<Food>, heading: string)
    ensures Get(ComparisonOf(foods).nutrientComparison, heading) ==
      if Row(foods, heading) == [] then None else Some(Row(foods, heading))
  {
    AppendEachGet(Matches(foods), RowWrite, heading);
    NeverWrittenIff(Matches(foods), RowWrite, heading);
    MatchesRow(foods, heading);
  }

  /**
   * A row is created when its heading first occurs, so the table's rows follow the
   * order in which their headings first appear across the foods' records.
   */
  lemma TableOrder(foods: seq<Food>)
    ensures Keys(ComparisonOf(foods).nutrientComparison) == Dedup(WrittenKeys(Matches(foods), RowWrite))
  {
    AppendEachKeys(Matches(foods), RowWrite);
  }

  /** Rows exist only for the eight key nutrient labels. */
  lemma TableHeadings(foods: seq<Food>, heading: string)
    ensures heading in Keys(ComparisonOf(foods).nutrientComparison) ==> heading in KeyNutrients.Values
  {
    var xs := Matches(foods);
    AppendEachGet(xs, RowWrite, heading);
    if !NeverWritten(xs, RowWrite, heading) {
      var i :| 0 <= i < |xs| && Writes(RowWrite(xs[i]), heading);
      var id := xs[i].1.id.Get().value;
      assert KeyNutrients[id] == heading;
    }
  }

  /**
   * A food's summary lists a heading exactly when one of its records is labelled with
   * it, and holds the amount and unit of the last such record: a repeated id overwrites.
   */
  lemma SummaryEntry(food: Food, heading: string)
    ensures var ns := NutrientsOf(food);
      && (Get(Summary(food).nutrients, heading).None? <==> forall i :: 0 <= i < |ns| ==> !Labelled(ns[i], heading))
      && (Get(Summary(food).nutrients, heading).Some? ==>
        exists i :: 0 <= i < |ns| && Labelled(ns[i], heading)
          && Get(Summary(food).nutrients, heading) == Some(AmountUnit(ns[i].amount.GetOr(ZeroAmount), ns[i].unitName.GetOr("")))
          && forall j :: i < j < |ns| ==> !Labelled(ns[j], heading))
  {
    var ns := NutrientsOf(food);
    PutEachGet(ns, KeyWrite, heading);
    assert forall i :: 0 <= i < |ns| ==> (Writes(KeyWrite(ns[i]), heading) <==> Labelled(ns[i], heading));
    if Get(Summary(food).nutrients, heading).Some? {
      var i :| LastWrite(ns, KeyWrite, heading, i) && Get(PutEach(ns, KeyWrite), heading) == Some(KeyWrite(ns[i]).value.1);
      assert Labelled(ns[i], heading);
    }
  }
}
