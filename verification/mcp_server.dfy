/**
 * The stdio MCP server's tools: each obtains the shared client (creating it on first
 * use), answers `{"error": ...}` when the client has no key, and otherwise forwards to
 * the client. `get_multiple_foods` and `analyze_nutrition` refuse too many ids before
 * touching the client; `analyze_nutrition` reshapes the foods it gets back.
 */
module McpServer {
  import opened Wrappers
  import opened Fields
  import opened Dicts
  import opened FoodData
  import opened UsdaClient

  /** The tools' default arguments, used when the caller omits them (None). */
  const DefaultPageSize: int := 25
  const DefaultPageNumber: int := 1
  const DefaultFormat: string := "abridged"

  const NotConfiguredMessage: string := "USDA API key not configured. Please set FDC_API_KEY environment variable."

  /** The most ids `get_multiple_foods` and `analyze_nutrition` accept. */
  const MaxRequestedFoods: nat := 20
  const MaxAnalyzedFoods: nat := 10

  /** What a tool returns: its result, or `{"error": message}`. */
  datatype ToolResult<D> = Data(data: D) | ErrorDict(error: string)

  /** `{"foods": result}` */
  datatype FoodsWrap<J> = FoodsWrap(foods: J)

  /** One element of `comparison`: the food's name, id and selected nutrients by name. */
  datatype FoodAnalysis = FoodAnalysis(name: Option<string>, fdcId: Option<int>, nutrients: Dict<string, AmountUnit>)

  /** The analysis; its `summary` is always the empty object and is not represented. */
  datatype Analysis = Analysis(foodsAnalyzed: nat, comparison: seq<FoodAnalysis>)

  /** `not nutrients_of_interest or name in nutrients_of_interest` */
  predicate Wanted(interest: Option<seq<string>>, name: string) {
    !SeqTruthy(interest) || name in interest.value
  }

  /** The entry a record adds to a food's analysis: only a non-empty name that is wanted. */
  function Picked(r: NutrientRecord, interest: Option<seq<string>>): Option<(string, AmountUnit)> {
    var name := r.name.Get();
    if StrTruthy(name) && Wanted(interest, name.value) then
      Some((name.value, AmountUnit(r.amount.Get(), r.unitName.Get())))
    else None
  }

  function Picker(interest: Option<seq<string>>): NutrientRecord -> Option<(string, AmountUnit)> {
    r => Picked(r, interest)
  }

  /** A food's analysis: its name ("Unknown" when missing), its id, and its picked nutrients by name. */
  function Analyzed(food: Food, interest: Option<seq<string>>): FoodAnalysis {
    FoodAnalysis(food.description.GetOr("Unknown"), food.fdcId.Get(), PutEach(NutrientsOf(food), Picker(interest)))
  }

  /** The nutrient loop for one food. */
  method AnalyzeFood(food: Food, interest: Option<seq<string>>) returns (a: FoodAnalysis)
    ensures a == Analyzed(food, interest)
  {
    var nutrients: Dict<string, AmountUnit> := [];
    if food.foodNutrients.Some? {
      var ns := food.foodNutrients.value;
      var j := 0;
      while j < |ns|
        invariant 0 <= j <= |ns|
        invariant nutrients == PutEach(ns[..j], Picker(interest))
      {
        PutEachStep(ns, j, Picker(interest));
        assert Picker(interest)(ns[j]) == Picked(ns[j], interest);
        var r := ns[j];
        var name := r.name.Get();
        if StrTruthy(name) && (!SeqTruthy(interest) || name.value in interest.value) {
          nutrients := Put(nutrients, name.value, AmountUnit(r.amount.Get(), r.unitName.Get()));
        }
        j := j + 1;
      }
      assert ns[..j] == ns;
    }
    a := FoodAnalysis(food.description.GetOr("Unknown"), food.fdcId.Get(), nutrients);
  }

  /** The reshaping loop of `analyze_nutrition`: one analysis per returned food, in order. */
  method AnalyzeFoods(foods: seq<Food>, interest: Option<seq<string>>) returns (analysis: Analysis)
    ensures analysis.foodsAnalyzed == |foods| == |analysis.comparison|
    ensures forall k :: 0 <= k < |foods| ==> analysis.comparison[k] == Analyzed(foods[k], interest)
  {
    var comparison: seq<FoodAnalysis> := [];
    var i := 0;
    while i < |foods|
      invariant 0 <= i <= |foods|
      invariant |comparison| == i && forall k :: 0 <= k < i ==> comparison[k] == Analyzed(foods[k], interest)
    {
      var a := AnalyzeFood(foods[i], interest);
      comparison := comparison + [a];
      i := i + 1;
    }
    analysis := Analysis(|foods|, comparison);
  }

  /** Record `r` has the non-empty name `name`, and `name` is wanted. */
  predicate PicksAs(r: NutrientRecord, interest: Option<seq<string>>, name: string) {
    r.name.Get() == Some(name) && name != "" && Wanted(interest, name)
  }

  /**
   * A food's analysis lists `name` exactly when some record carries that non-empty name
   * and the name is wanted; the entry is the last such record's amount and unit.
   */
  lemma AnalyzedEntry(food: Food, interest: Option<seq<string>>, name: string)
    ensures var ns := NutrientsOf(food);
      var e := Get(Analyzed(food, interest).nutrients, name);
      && (e.None? <==> forall i :: 0 <= i < |ns| ==> !PicksAs(ns[i], interest, name))
      && (e.Some? ==>
        exists i :: 0 <= i < |ns| && PicksAs(ns[i], interest, name)
          && e == Some(AmountUnit(ns[i].amount.Get(), ns[i].unitName.Get()))
          && forall j :: i < j < |ns| ==> !PicksAs(ns[j], interest, name))
  {
    var ns := NutrientsOf(food);
    var sel := Picker(interest);
    PutEachGet(ns, sel, name);
    assert forall i :: 0 <= i < |ns| ==> (Writes(sel(ns[i]), name) <==> PicksAs(ns[i], interest, name));
    if Get(PutEach(ns, sel), name).Some? {
      var i :| LastWrite(ns, sel, name, i) && Get(PutEach(ns, sel), name) == Some(sel(ns[i]).value.1);
      assert PicksAs(ns[i], interest, name);
    }
  }

  /** Without a filter list every named nutrient is kept; a food without nutrients gets none. */
  lemma AnalyzedUnfiltered(food: Food, name: string)
    ensures var ns := NutrientsOf(food);
      Get(Analyzed(food, None).nutrients, name).Some? <==>
        name != "" && exists i :: 0 <= i < |ns| && ns[i].name.Get() == Some(name)
    ensures food.foodNutrients.None? ==> Analyzed(food, None).nutrients == []
  {
    AnalyzedEntry(food, None, name);
    var ns := NutrientsOf(food);
    assert forall i :: 0 <= i < |ns| ==> (PicksAs(ns[i], None, name) <==> ns[i].name.Get() == Some(name) && name != "");
  }

  /** The process-wide state of the server: the shared client, created on first use. */
  class ToolServer {
    var client: UsdaClient?

    constructor()
      ensures client == null
    {
      client := null;
    }

    /** `get_client`: builds and initialises the client once, then returns the same one. */
    method GetClient(envKey: Option<string>) returns (c: UsdaClient)
      modifies this
      ensures client == c
      ensures old(client) != null ==> c == old(client)
      ensures old(client) == null ==> fresh(c) && (c.IsConfigured() <==> StrTruthy(envKey))
    {
      if client == null {
        client := StartClient(envKey);
      }
      c := client;
    }

    /** The `search_foods` tool, with the reply the API would send; an omitted page size is 25 and an omitted page 1. */
    method SearchFoodsTool<J>(envKey: Option<string>, query: string, dataType: Option<seq<string>>,
                              pageSize: Option<int>, pageNumber: Option<int>, reply: Reply<J>)
      returns (res: ToolResult<J>, sent: seq<Request>)
      modifies this
      ensures client != null && (old(client) != null ==> client == old(client))
      ensures !client.IsConfigured() ==> res == ErrorDict(NotConfiguredMessage) && sent == []
      ensures client.IsConfigured() ==>
        && sent == [Request(HttpPost, "/foods/search",
             SearchJson(query, ClampPageSize(Some(pageSize.GetOr(DefaultPageSize))).value,
               Some(pageNumber.GetOr(DefaultPageNumber)), if SeqTruthy(dataType) then dataType else None))]
        && (pageSize.None? ==> sent[0].payload.pageSize == 25)
        && (pageNumber.None? ==> sent[0].payload.pageNumber == Some(1))
        && res == match Outcome(reply) case Success(j) => Data(j) case Failure(e) => ErrorDict("Search failed: " + e)
    {
      var c := GetClient(envKey);
      if !c.IsConfigured() {
        return ErrorDict(NotConfiguredMessage), [];
      }
      var result;
      result, sent := c.SearchFoods(query, dataType, Some(pageSize.GetOr(DefaultPageSize)), Some(pageNumber.GetOr(DefaultPageNumber)), reply);
      if result.Failure? {
        return ErrorDict("Search failed: " + result.error), sent;
      }
      res := Data(result.value);
    }

    /** The `get_food_details` tool; an omitted format is "abridged". */
    method GetFoodDetailsTool<J>(envKey: Option<string>, fdcId: int, format: Option<string>, reply: Reply<J>)
      returns (res: ToolResult<J>, sent: seq<Request>)
      modifies this
      ensures client != null && (old(client) != null ==> client == old(client))
      ensures !client.IsConfigured() ==> res == ErrorDict(NotConfiguredMessage) && sent == []
      ensures client.IsConfigured() ==>
        && sent == [Request(HttpGet, "/food/" + Text.IntToString(fdcId),
             FormatParams(if format.GetOr(DefaultFormat) != "" then Some(format.GetOr(DefaultFormat)) else None))]
        && (format.None? ==> sent[0].payload == FormatParams(Some("abridged")))
        && res == match Outcome(reply) case Success(j) => Data(j) case Failure(e) => ErrorDict("Failed to get food details: " + e)
    {
      var c := GetClient(envKey);
      if !c.IsConfigured() {
        return ErrorDict(NotConfiguredMessage), [];
      }
      var result;
      result, sent := c.GetFoodDetails(fdcId, Some(format.GetOr(DefaultFormat)), reply);
      if result.Failure? {
        return ErrorDict("Failed to get food details: " + result.error), sent;
      }
      res := Data(result.value);
    }

    /**
     * The `get_multiple_foods` tool: more than 20 ids are refused before the client is
     * touched; an omitted format is "abridged".
     */
    method GetMultipleFoodsTool<J>(envKey: Option<string>, fdcIds: seq<int>, format: Option<string>, reply: Reply<J>)
      returns (res: ToolResult<FoodsWrap<J>>, sent: seq<Request>)
      modifies this
      ensures |fdcIds| > MaxRequestedFoods ==>
        res == ErrorDict("Maximum 20 foods can be requested at once") && sent == [] && client == old(client)
      ensures |fdcIds| <= MaxRequestedFoods ==> client != null && (old(client) != null ==> client == old(client))
      ensures |fdcIds| <= MaxRequestedFoods && !client.IsConfigured() ==> res == ErrorDict(NotConfiguredMessage) && sent == []
      ensures |fdcIds| <= MaxRequestedFoods && client.IsConfigured() ==>
        && sent == [Request(HttpPost, "/foods", FoodsJson(fdcIds, Some(format.GetOr(DefaultFormat))))]
        && (format.None? ==> sent[0].payload.format == Some("abridged"))
        && res == match Outcome(reply)
          case Success(j) => Data(FoodsWrap(j))
          case Failure(e) => ErrorDict("Failed to get multiple foods: " + e)
    {
      if |fdcIds| > 20 {
        return ErrorDict("Maximum 20 foods can be requested at once"), [];
      }
      var c := GetClient(envKey);
      if !c.IsConfigured() {
        return ErrorDict(NotConfiguredMessage), [];
      }
      var result;
      result, sent := c.GetMultipleFoods(fdcIds, Some(format.GetOr(DefaultFormat)), reply);
      if result.Failure? {
        return ErrorDict("Failed to get multiple foods: " + result.error), sent;
      }
      res := Data(FoodsWrap(result.value));
    }

    /** The `analyze_nutrition` tool: more than 10 ids are refused before the client is touched. */
    method AnalyzeNutritionTool(envKey: Option<string>, fdcIds: seq<int>, interest: Option<seq<string>>, reply: Reply<seq<Food>>)
      returns (res: ToolResult<Analysis>, sent: seq<Request>)
      modifies this
      ensures |fdcIds| > MaxAnalyzedFoods ==>
        res == ErrorDict("Maximum 10 foods can be analyzed at once") && sent == [] && client == old(client)
      ensures |fdcIds| <= MaxAnalyzedFoods ==> client != null && (old(client) != null ==> client == old(client))
      ensures |fdcIds| <= MaxAnalyzedFoods && !client.IsConfigured() ==> res == ErrorDict(NotConfiguredMessage) && sent == []
      ensures |fdcIds| <= MaxAnalyzedFoods && client.IsConfigured() ==>
        && sent == [Request(HttpPost, "/foods", FoodsJson(fdcIds, Some("full")))]
        && match Outcome(reply)
          case Failure(e) => res == ErrorDict("Nutrition analysis failed: " + e)
          case Success(foods) =>
            && res.Data? && res.data.foodsAnalyzed == |foods| == |res.data.comparison|
            && forall k :: 0 <= k < |foods| ==> res.data.comparison[k] == Analyzed(foods[k], interest)
    {
      if |fdcIds| > 10 {
        return ErrorDict("Maximum 10 foods can be analyzed at once"), [];
      }
      var c := GetClient(envKey);
      if !c.IsConfigured() {
        return ErrorDict(NotConfiguredMessage), [];
      }
      var foods;
      foods, sent := c.GetMultipleFoods(fdcIds, Some("full"), reply);
      if foods.Failure? {
        return ErrorDict("Nutrition analysis failed: " + foods.error), sent;
      }
      var analysis := AnalyzeFoods(foods.value, interest);
      res := Data(analysis);
    }
  }
}
