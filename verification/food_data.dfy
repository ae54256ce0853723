/**
 * The parts of FoodData Central's JSON payloads that the servers read. Scalars keep the
 * missing / null / value distinction; list-valued keys are either missing or a list.
 * Amounts are numbers upstream; the model keeps them as their decimal text.
 */
module FoodData {
  import opened Wrappers
  import opened Fields

  type Amount = string

  /** The amount `0` that `nutrient.get("amount", 0)` falls back to. */
  const ZeroAmount: Amount := "0"

  /**
   * One element of `foodNutrients`: `id`, `name` and `unitName` come from its nested
   * `nutrient` object (all missing when that object is), `amount` from the element itself.
   */
  datatype NutrientRecord = NutrientRecord(
    id: Field<int>,
    name: Field<string>,
    unitName: Field<string>,
    amount: Field<Amount>)

  datatype Food = Food(
    fdcId: Field<int>,
    description: Field<string>,
    dataType: Field<string>,
    foodCategory: Field<string>,
    brandOwner: Field<string>,
    ingredients: Field<string>,
    servingSize: Field<Amount>,
    servingSizeUnit: Field<string>,
    foodNutrients: Option<seq<NutrientRecord>>)

  /** The body of a `/foods/search` reply. */
  datatype SearchPayload = SearchPayload(
    foods: Field<seq<Food>>,
    totalPages: Field<int>,
    pageSize: Field<int>,
    currentPage: Field<int>)

  /** `{"amount": ..., "unit": ...}` as the servers build it. */
  datatype AmountUnit = AmountUnit(amount: Option<Amount>, unit: Option<string>)

  /** `food.get("foodNutrients", [])` */
  function NutrientsOf(food: Food): seq<NutrientRecord> {
    food.foodNutrients.GetOr([])
  }
}
