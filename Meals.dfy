/**
 * Meal records as the meal collection stores them, their nutrient values,
 * and the portion rescaling of `adjust_portion`.
 */
module Meals {
  import opened Wrappers

  /** `datetime.now()` when the meal was saved, supplied by the caller. */
  type Timestamp = int

  /** The body of a `/api/meal/save` request (`MealEntry`). */
  datatype MealEntry = MealEntry(
    mealId: string,
    userId: string,
    date: string,
    time: string,
    foodName: string,
    portionSize: real,
    calories: real,
    protein: real,
    carbs: real,
    fats: real,
    imageBase64: Option<string>)

  /** A stored meal document: the entry's fields plus `created_at`. */
  datatype Meal = Meal(
    mealId: string,
    userId: string,
    date: string,
    time: string,
    foodName: string,
    portionSize: real,
    calories: real,
    protein: real,
    carbs: real,
    fats: real,
    imageBase64: Option<string>,
    createdAt: Timestamp)

  /** The document `save_meal` inserts. */
  function Stamped(e: MealEntry, now: Timestamp): Meal {
    Meal(e.mealId, e.userId, e.date, e.time, e.foodName, e.portionSize,
         e.calories, e.protein, e.carbs, e.fats, e.imageBase64, now)
  }

  /** The four nutrient values of a meal, or their totals over several meals. */
  datatype Nutrients = Nutrients(calories: real, protein: real, carbs: real, fats: real)

  const Zero: Nutrients := Nutrients(0.0, 0.0, 0.0, 0.0)

  function Plus(a: Nutrients, b: Nutrients): Nutrients {
    Nutrients(a.calories + b.calories, a.protein + b.protein, a.carbs + b.carbs, a.fats + b.fats)
  }

  function NutrientsOf(m: Meal): Nutrients {
    Nutrients(m.calories, m.protein, m.carbs, m.fats)
  }

  /** True when `x` is a whole number of tenths. */
  predicate IsTenths(x: real) {
    (x * 10.0).Floor as real == x * 10.0
  }

  /**
   * `round(x, 1)`: the nearest multiple of a tenth, ties going up. The result
   * is a whole number of tenths within half a tenth of `x`.
   */
  function Round1(x: real): (r: real)
    ensures IsTenths(r)
    ensures r - 0.05 <= x < r + 0.05
  {
    var n := (x * 10.0 + 0.5).Floor;
    assert n as real * 10.0 / 10.0 == n as real;
    n as real / 10.0
  }

  /** The rounding is the only whole number of tenths that near `x`. */
  lemma Round1Unique(x: real, t: real)
    requires IsTenths(t) && t - 0.05 <= x < t + 0.05
    ensures Round1(x) == t
  {
    var b := (t * 10.0).Floor;
    var y := x * 10.0 + 0.5;
    assert b as real <= y < b as real + 1.0;
    assert y.Floor == b;
  }

  /** A value already given in tenths is left as it is. */
  lemma Round1OfTenths(x: real)
    requires IsTenths(x)
    ensures Round1(x) == x
  {
    Round1Unique(x, x);
  }

  /** The five values `adjust_portion` writes and returns. */
  datatype UpdatedValues = UpdatedValues(portionSize: real, calories: real, protein: real, carbs: real, fats: real)

  /** `updated_values` for a meal whose stored portion is not zero. */
  function Rescale(m: Meal, newPortionSize: real): (u: UpdatedValues)
    requires m.portionSize != 0.0
    ensures u.portionSize == newPortionSize
    ensures IsTenths(u.calories) && IsTenths(u.protein) && IsTenths(u.carbs) && IsTenths(u.fats)
    ensures u.calories - 0.05 <= m.calories * newPortionSize / m.portionSize < u.calories + 0.05
    ensures u.protein - 0.05 <= m.protein * newPortionSize / m.portionSize < u.protein + 0.05
    ensures u.carbs - 0.05 <= m.carbs * newPortionSize / m.portionSize < u.carbs + 0.05
    ensures u.fats - 0.05 <= m.fats * newPortionSize / m.portionSize < u.fats + 0.05
  {
    var factor := newPortionSize / m.portionSize;
    assert m.calories * factor == m.calories * newPortionSize / m.portionSize;
    assert m.protein * factor == m.protein * newPortionSize / m.portionSize;
    assert m.carbs * factor == m.carbs * newPortionSize / m.portionSize;
    assert m.fats * factor == m.fats * newPortionSize / m.portionSize;
    UpdatedValues(
      newPortionSize,
      Round1(m.calories * factor),
      Round1(m.protein * factor),
      Round1(m.carbs * factor),
      Round1(m.fats * factor))
  }

  /** `$set` of the updated values on a stored meal: only those five fields change. */
  function Apply(m: Meal, u: UpdatedValues): (r: Meal)
    ensures r.(portionSize := m.portionSize, calories := m.calories, protein := m.protein,
               carbs := m.carbs, fats := m.fats) == m
    ensures r.portionSize == u.portionSize && r.calories == u.calories && r.protein == u.protein
      && r.carbs == u.carbs && r.fats == u.fats
  {
    m.(portionSize := u.portionSize, calories := u.calories, protein := u.protein,
       carbs := u.carbs, fats := u.fats)
  }

  /** Re-applying the stored portion to a meal given in tenths leaves it unchanged. */
  lemma RescaleToSamePortion(m: Meal)
    requires m.portionSize != 0.0
    requires IsTenths(m.calories) && IsTenths(m.protein) && IsTenths(m.carbs) && IsTenths(m.fats)
    ensures Apply(m, Rescale(m, m.portionSize)) == m
  {
    var factor := m.portionSize / m.portionSize;
    assert factor == 1.0;
    assert m.calories * factor == m.calories && m.protein * factor == m.protein;
    assert m.carbs * factor == m.carbs && m.fats * factor == m.fats;
    Round1OfTenths(m.calories);
    Round1OfTenths(m.protein);
    Round1OfTenths(m.carbs);
    Round1OfTenths(m.fats);
  }

  /** 200 kcal, 10 g protein, 20 g carbs and 5 g fat at 100 g become 300, 15, 30 and 7.5 at 150 g. */
  lemma RescaleExample(m: Meal)
    requires m.portionSize == 100.0 && NutrientsOf(m) == Nutrients(200.0, 10.0, 20.0, 5.0)
    ensures Rescale(m, 150.0) == UpdatedValues(150.0, 300.0, 15.0, 30.0, 7.5)
  {
    assert 150.0 / 100.0 == 1.5;
    Round1OfTenths(300.0);
    Round1OfTenths(15.0);
    Round1OfTenths(30.0);
    Round1OfTenths(7.5);
  }
}
