/**
 * The three data tools of the HTTP server: `search_foods`, `get_food_nutrition` and
 * `compare_foods`. Each answers with the uniform envelope; an exception raised inside a
 * handler becomes a failed envelope whose error names the tool's failure. What the
 * USDA client returns or raises is a parameter: a payload, or the text of the exception.
 */
module HttpServer {
  import opened Wrappers
  import opened Fields
  import opened Text
  import opened FoodData
  import opened Responses
  import opened NutrientClassifier
  import opened ComparisonPivot
  import opened RequestModels

  // ---------------------------------------------------------------- search_foods

  /** How many foods one search response carries at most. */
  const SearchResponseCap: nat := 10

  /** One food of a search response, with the upstream keys renamed. */
  datatype FormattedFood = FormattedFood(
    fdcId: Option<int>,
    description: Option<string>,
    dataType: Option<string>,
    foodCategory: Option<string>,
    brandOwner: Option<string>,
    ingredients: Option<string>)

  /**
   * The inner `data` of a search response: the found foods, or
   * `{"success": false, "error": "No foods found", "foods": []}`.
   */
  datatype SearchData =
    | Found(totalResults: int, currentPage: Option<int>, foods: seq<FormattedFood>, message: string)
    | NoFoods(error: string)

  function Formatted(f: Food): FormattedFood {
    FormattedFood(f.fdcId.Get(), f.description.Get(), f.dataType.Get(), f.foodCategory.Get(), f.brandOwner.Get(), f.ingredients.Get())
  }

  /** The name Python gives the type of a number that may be None, in a `TypeError`. */
  function TypeName(o: Option<int>): string {
    if o.None? then "NoneType" else "int"
  }

  /**
   * `totalPages * pageSize`, each defaulting to 0 when missing; a stored null makes the
   * product raise `TypeError`, whose text is the error.
   */
  function TotalResults(p: SearchPayload): (r: Result<int, string>)
    ensures r.Success? <==> !p.totalPages.Null? && !p.pageSize.Null?
    ensures r.Success? ==> r.value == p.totalPages.GetOr(0).value * p.pageSize.GetOr(0).value
  {
    var tp, ps := p.totalPages.GetOr(0), p.pageSize.GetOr(0);
    if tp.Some? && ps.Some? then Success(tp.value * ps.value)
    else Failure("unsupported operand type(s) for *: '" + TypeName(tp) + "' and '" + TypeName(ps) + "'")
  }

  /** The `search_foods` handler, given what the client's search returned or raised. */
  method SearchFoods(query: string, upstream: Result<SearchPayload, string>) returns (resp: MCPResponse<SearchData>)
    ensures resp.tool == Some("search_foods") && resp.message == None
    ensures upstream.Failure? ==> resp == Failed("Search failed: " + upstream.error, "search_foods")
    ensures upstream.Success? && !(upstream.value.foods.Present? && upstream.value.foods.value != []) ==>
      resp == Succeeded(NoFoods("No foods found"), "search_foods", None)
    ensures upstream.Success? && upstream.value.foods.Present? && upstream.value.foods.value != [] ==>
      var p := upstream.value;
      var fs := p.foods.value;
      match TotalResults(p)
      case Failure(e) => resp == Failed("Search failed: " + e, "search_foods")
      case Success(total) =>
        && resp.success && resp.data.Some? && resp.data.value.Found?
        && var d := resp.data.value;
        && |d.foods| == (if |fs| < SearchResponseCap then |fs| else SearchResponseCap)
        && (forall k :: 0 <= k < |d.foods| ==> d.foods[k] == Formatted(fs[k]))
        && d.totalResults == total
        && d.currentPage == p.currentPage.GetOr(1)
        && d.message == "Found " + NatToString(|d.foods|) + " foods matching '" + query + "'"
  {
    if upstream.Failure? {
      return Failed("Search failed: " + upstream.error, "search_foods");
    }
    var result := upstream.value;
    var data: SearchData;
    if result.foods.Present? && result.foods.value != [] {
      var fs := result.foods.value;
      var n := if |fs| < SearchResponseCap then |fs| else SearchResponseCap;
      var formatted: seq<FormattedFood> := [];
      var i := 0;
      while i < n
        invariant 0 <= i <= n
        invariant |formatted| == i && forall k :: 0 <= k < i ==> formatted[k] == Formatted(fs[k])
      {
        var food := fs[i];
        formatted := formatted + [FormattedFood(
          food.fdcId.Get(), food.description.Get(), food.dataType.Get(),
          food.foodCategory.Get(), food.brandOwner.Get(), food.ingredients.Get())];
        i := i + 1;
      }
      var total := TotalResults(result);
      if total.Failure? {
        return Failed("Search failed: " + total.error, "search_foods");
      }
      data := Found(total.value, result.currentPage.GetOr(1), formatted,
        "Found " + NatToString(|formatted|) + " foods matching '" + query + "'");
    } else {
      data := NoFoods("No foods found");
    }
    resp := Succeeded(data, "search_foods", None);
  }

  // ---------------------------------------------------------------- get_food_nutrition

  /** `food_info` of a nutrition summary. */
  datatype FoodInfo = FoodInfo(
    fdcId: Option<int>,
    description: Option<string>,
    dataType: Option<string>,
    foodCategory: Option<string>,
    brandOwner: Option<string>,
    servingSize: Option<Amount>,
    servingSizeUnit: Option<string>)

  datatype NutritionSummary = NutritionSummary(foodInfo: FoodInfo, nutrition: Nutrition)

  function InfoOf(f: Food): FoodInfo {
    FoodInfo(f.fdcId.Get(), f.description.Get(), f.dataType.Get(), f.foodCategory.Get(),
      f.brandOwner.Get(), f.servingSize.Get(), f.servingSizeUnit.Get())
  }

  /** The `get_food_nutrition` handler, given what the client's detail request returned or raised. */
  method GetFoodNutrition(upstream: Result<Food, string>) returns (resp: MCPResponse<NutritionSummary>)
    ensures upstream.Failure? ==> resp == Failed("Failed to get nutrition data: " + upstream.error, "get_food_nutrition")
    ensures upstream.Success? ==>
      var f := upstream.value;
      resp == Succeeded(
        NutritionSummary(InfoOf(f), Classified(NutrientsOf(f))),
        "get_food_nutrition",
        Some("Retrieved nutrition data for " + ShowStr(f.description.GetOr("food item"))))
  {
    if upstream.Failure? {
      return Failed("Failed to get nutrition data: " + upstream.error, "get_food_nutrition");
    }
    var result := upstream.value;
    var info := FoodInfo(result.fdcId.Get(), result.description.Get(), result.dataType.Get(),
      result.foodCategory.Get(), result.brandOwner.Get(), result.servingSize.Get(), result.servingSizeUnit.Get());
    var nutrition := ClassifyNutrients(NutrientsOf(result));
    resp := Succeeded(NutritionSummary(info, nutrition), "get_food_nutrition",
      Some("Retrieved nutrition data for " + ShowStr(result.description.GetOr("food item"))));
  }

  // ---------------------------------------------------------------- compare_foods

  /**
   * The foods whose fetch succeeded, in the order of their ids; `outcomes[i]` is what the
   * detail request for the i-th id returned, so a repeated id may fare differently.
   */
  function Fetched(outcomes: seq<Result<Food, string>>): (fs: seq<Food>)
    ensures |fs| <= |outcomes|
    ensures fs == [] <==> forall i :: 0 <= i < |outcomes| ==> outcomes[i].Failure?
    ensures (forall i :: 0 <= i < |outcomes| ==> outcomes[i].Success?) ==>
      |fs| == |outcomes| && forall i :: 0 <= i < |outcomes| ==> fs[i] == outcomes[i].value
  {
    if outcomes == [] then []
    else
      var n := |outcomes| - 1;
      var fs := Fetched(outcomes[..n]);
      assert forall i :: 0 <= i < n ==> outcomes[..n][i] == outcomes[i];
      match outcomes[n]
      case Success(f) => fs + [f]
      case Failure(_) => fs
  }

  /** The foods fetched for the first `i` ids are the first foods fetched for all of them. */
  lemma {:induction false} FetchedPrefix(outcomes: seq<Result<Food, string>>, i: nat)
    requires i <= |outcomes|
    ensures |Fetched(outcomes[..i])| <= |Fetched(outcomes)|
    ensures Fetched(outcomes[..i]) == Fetched(outcomes)[..|Fetched(outcomes[..i])|]
    decreases |outcomes| - i
  {
    if i == |outcomes| {
      assert outcomes[..i] == outcomes;
    } else {
      var n := |outcomes| - 1;
      var p := outcomes[..n];
      FetchedPrefix(p, i);
      assert p[..i] == outcomes[..i];
      var fp := Fetched(p);
      assert Fetched(outcomes)[..|fp|] == fp;
    }
  }

  /** Where the i-th id's food lands: after the foods of the ids before it. */
  function Position(outcomes: seq<Result<Food, string>>, i: nat): nat
    requires i <= |outcomes|
  {
    |Fetched(outcomes[..i])|
  }

  /** Every successful fetch contributes its food, at its position. */
  lemma FetchedComplete(outcomes: seq<Result<Food, string>>, i: nat)
    requires i < |outcomes| && outcomes[i].Success?
    ensures Position(outcomes, i) < |Fetched(outcomes)|
    ensures Fetched(outcomes)[Position(outcomes, i)] == outcomes[i].value
  {
    assert outcomes[..i + 1][..i] == outcomes[..i];
    assert Fetched(outcomes[..i + 1]) == Fetched(outcomes[..i]) + [outcomes[i].value];
    FetchedPrefix(outcomes, i + 1);
  }

  /** A successful fetch's food comes before the food of every later successful fetch. */
  lemma FetchedOrder(outcomes: seq<Result<Food, string>>, i: nat, j: nat)
    requires i < j < |outcomes| && outcomes[i].Success?
    ensures Position(outcomes, i) < Position(outcomes, j)
  {
    var oj := outcomes[..j];
    assert oj[..i + 1] == outcomes[..i + 1];
    assert outcomes[..i + 1][..i] == outcomes[..i];
    assert Fetched(outcomes[..i + 1]) == Fetched(outcomes[..i]) + [outcomes[i].value];
    FetchedPrefix(oj, i + 1);
  }

  /** The fetch that produced the k-th food: successful, and at position k. */
  ghost predicate FetchedAt(outcomes: seq<Result<Food, string>>, k: nat, i: nat) {
    && i < |outcomes| && k < |Fetched(outcomes)|
    && outcomes[i] == Success(Fetched(outcomes)[k])
    && Position(outcomes, i) == k
  }

  /** The k-th fetched food is the food of some successful fetch at position k. */
  ghost predicate FromSomeFetch(outcomes: seq<Result<Food, string>>, k: nat) {
    exists i: nat :: FetchedAt(outcomes, k, i)
  }

  /** Every fetched food is the food of a successful fetch at its position. */
  lemma {:induction false} FetchedFromOutcomes(outcomes: seq<Result<Food, string>>)
    ensures forall k :: 0 <= k < |Fetched(outcomes)| ==> FromSomeFetch(outcomes, k)
  {
    if outcomes != [] {
      var n := |outcomes| - 1;
      var p := outcomes[..n];
      var fs := Fetched(outcomes);
      FetchedFromOutcomes(p);
      forall k | 0 <= k < |fs| ensures FromSomeFetch(outcomes, k) {
        if k < |Fetched(p)| {
          assert FromSomeFetch(p, k);
          var i: nat :| FetchedAt(p, k, i);
          assert p[..i] == outcomes[..i];
          assert fs[k] == Fetched(p)[k];
          assert FetchedAt(outcomes, k, i);
        } else {
          assert FetchedAt(outcomes, k, n);
        }
      }
    }
  }

  /**
   * The `compare_foods` handler. `outcomes[i]` stands for what the client's abridged
   * detail request for the i-th id returned; `calls` lists the ids it was asked for, in order.
   * Every one of these requests uses the fixed format "abridged": unlike `get_food_nutrition`,
   * the handler forwards no format of its own, so only the ids are recorded.
   */
  method CompareFoods(fdcIds: seq<int>, outcomes: seq<Result<Food, string>>)
    returns (resp: MCPResponse<Comparison>, calls: seq<int>)
    requires |outcomes| == |fdcIds|
    ensures |fdcIds| > MaxCompare ==>
      calls == [] && resp == Failed("Failed to compare foods: 400: Maximum 5 foods can be compared", "compare_foods")
    ensures |fdcIds| <= MaxCompare ==> calls == fdcIds
    ensures |fdcIds| <= MaxCompare && Fetched(outcomes) == [] ==>
      resp == Failed("No valid food data found for comparison", "compare_foods")
    ensures |fdcIds| <= MaxCompare && Fetched(outcomes) != [] ==>
      var fs := Fetched(outcomes);
      resp == Succeeded(ComparisonOf(fs), "compare_foods", Some("Successfully compared " + NatToString(|fs|) + " foods"))
  {
    calls := [];
    if |fdcIds| > 5 {
      return Failed("Failed to compare foods: 400: Maximum 5 foods can be compared", "compare_foods"), calls;
    }
    var foodsData: seq<Food> := [];
    var i := 0;
    while i < |fdcIds|
      invariant 0 <= i <= |fdcIds|
      invariant calls == fdcIds[..i]
      invariant foodsData == Fetched(outcomes[..i])
    {
      var foodResult := outcomes[i];
      calls := calls + [fdcIds[i]];
      if foodResult.Success? {
        foodsData := foodsData + [foodResult.value];
      }
      assert outcomes[..i + 1][..i] == outcomes[..i];
      assert fdcIds[..i + 1] == fdcIds[..i] + [fdcIds[i]];
      i := i + 1;
    }
    assert fdcIds[..i] == fdcIds;
    assert outcomes[..i] == outcomes;
    if foodsData == [] {
      return Failed("No valid food data found for comparison", "compare_foods"), calls;
    }
    var comparison := BuildComparison(foodsData);
    resp := Succeeded(comparison, "compare_foods", Some("Successfully compared " + NatToString(|foodsData|) + " foods"));
  }

  /**
   * A comparison compares exactly the foods that were fetched: one summary each, in id
   * order, and `total_foods_compared` counts them.
   */
  lemma ComparedFoods(outcomes: seq<Result<Food, string>>)
    requires Fetched(outcomes) != []
    ensures var fs := Fetched(outcomes);
      var c := ComparisonOf(fs);
      && c.totalFoodsCompared == |c.foods| == |fs| <= |outcomes|
      && (forall k :: 0 <= k < |fs| ==> c.foods[k] == Summary(fs[k]) && FromSomeFetch(outcomes, k))
      && forall i :: 0 <= i < |outcomes| && outcomes[i].Success? ==>
           Position(outcomes, i) < |fs| && c.foods[Position(outcomes, i)] == Summary(outcomes[i].value)
  {
    FetchedFromOutcomes(outcomes);
    forall i | 0 <= i < |outcomes| && outcomes[i].Success?
      ensures Position(outcomes, i) < |Fetched(outcomes)|
        && ComparisonOf(Fetched(outcomes)).foods[Position(outcomes, i)] == Summary(outcomes[i].value)
    {
      FetchedComplete(outcomes, i);
    }
  }

  /** Parameters that passed validation never reach the handler's own five-food limit. */
  lemma ValidatedCompareWithinLimit(i: CompareFoodsInput)
    requires ParseCompareFoods(i).Success?
    ensures |ParseCompareFoods(i).value.fdcIds| <= MaxCompare
  {
  }
}
