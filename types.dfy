/** The records the tracker stores and charts (types.ts). */
module Types {

  datatype Option<T> = None | Some(value: T)

  /** One estimate returned by the nutrition estimator. Quantities are kept as
      whole numbers: the rounding of JavaScript numbers is not modelled. */
  datatype NutritionData = NutritionData(
    name: string,
    calories: int,
    protein: int,
    carbs: int,
    fats: int,
    sugars: int,
    emoji: string,
    briefDescription: Option<string>)

  /** An accepted estimate, stamped with an identifier and the time it was logged
      (milliseconds since the epoch). */
  datatype FoodEntry = FoodEntry(data: NutritionData, id: string, timestamp: int)

  /** The ranges the dashboard type admits; only three of them are charted. */
  datatype TimeRange = OneDay | OneWeek | OneMonth | OneYear

  /** The five quantities every chart bucket sums. */
  datatype Nutrient = Calories | Protein | Carbs | Fats | Sugars

  function Amount(e: FoodEntry, n: Nutrient): int
  {
    match n
    case Calories => e.data.calories
    case Protein => e.data.protein
    case Carbs => e.data.carbs
    case Fats => e.data.fats
    case Sugars => e.data.sugars
  }

  /** Every quantity of the entry is at least zero. */
  predicate NonNegative(e: FoodEntry)
  {
    forall n: Nutrient :: Amount(e, n) >= 0
  }
}
