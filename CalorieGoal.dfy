/**
 * The daily calorie goal of a user profile: the Harris-Benedict basal
 * metabolic rate (BMR), scaled by an activity multiplier into the total daily
 * energy expenditure (TDEE), then offset by the weight goal.
 * Python floats are modelled as exact reals; the decimal constants are exact.
 */
module CalorieGoal {

  /** Python's `str.lower()` on one character, for the ASCII letters. */
  function LowerChar(c: char): char {
    if 'A' <= c <= 'Z' then (c as int + 32) as char else c
  }

  /** Python's `str.lower()`: every character lower-cased, nothing else changed. */
  function Lower(s: string): (r: string)
    ensures |r| == |s|
    ensures forall i :: 0 <= i < |s| ==> r[i] == LowerChar(s[i])
  {
    if s == [] then [] else [LowerChar(s[0])] + Lower(s[1..])
  }

  lemma {:induction false} LowerIdempotent(s: string)
    ensures Lower(Lower(s)) == Lower(s)
  {
    var l := Lower(s);
    assert |Lower(l)| == |l|;
    forall i | 0 <= i < |l| ensures Lower(l)[i] == l[i] {
      assert l[i] == LowerChar(s[i]);
    }
  }

  /** The one gender string that selects the male formula, after lower-casing. */
  const Male: string := "masculino"

  /** Harris-Benedict (revised) BMR for men. */
  function MaleBmr(weight: real, height: real, age: int): real {
    88.362 + 13.397 * weight + 4.799 * height - 5.677 * (age as real)
  }

  /** Harris-Benedict (revised) BMR for women, also used for every other gender string. */
  function FemaleBmr(weight: real, height: real, age: int): real {
    447.593 + 9.247 * weight + 3.098 * height - 4.330 * (age as real)
  }

  /** `calculate_bmr`. */
  function Bmr(weight: real, height: real, age: int, gender: string): real {
    if Lower(gender) == Male then MaleBmr(weight, height, age) else FemaleBmr(weight, height, age)
  }

  /** The male formula is used exactly for the strings that lower-case to "masculino". */
  lemma BmrFormulaChoice(weight: real, height: real, age: int, gender: string)
    ensures Lower(gender) == Male ==> Bmr(weight, height, age, gender) == MaleBmr(weight, height, age)
    ensures Lower(gender) != Male ==> Bmr(weight, height, age, gender) == FemaleBmr(weight, height, age)
  {
  }

  /** Upper-case or mixed-case spellings select the same formula as the lower-case one. */
  lemma {:induction false} BmrIgnoresCase(weight: real, height: real, age: int, gender: string)
    ensures Bmr(weight, height, age, gender) == Bmr(weight, height, age, Lower(gender))
  {
    LowerIdempotent(gender);
  }

  /** Lower-casing "Masculino" gives the key of the male formula. */
  lemma LowerMasculino()
    ensures Lower("Masculino") == Male
  {
    var l := Lower("Masculino");
    assert |l| == |Male|;
    assert l[0] == 'm' && l[1] == 'a' && l[2] == 's' && l[3] == 'c' && l[4] == 'u';
    assert l[5] == 'l' && l[6] == 'i' && l[7] == 'n' && l[8] == 'o';
  }

  /** "Masculino" selects the male formula; "feminino" and "male" select the female one. */
  lemma BmrExamples(weight: real, height: real, age: int)
    ensures Bmr(weight, height, age, "Masculino") == MaleBmr(weight, height, age)
    ensures Bmr(weight, height, age, "feminino") == FemaleBmr(weight, height, age)
    ensures Bmr(weight, height, age, "male") == FemaleBmr(weight, height, age)
  {
    LowerMasculino();
    assert |Lower("feminino")| != |Male|;
    assert |Lower("male")| != |Male|;
  }

  /** Both formulas grow with weight and height and fall with age. */
  lemma BmrMonotone(w1: real, h1: real, a1: int, w2: real, h2: real, a2: int, gender: string)
    requires w1 <= w2 && h1 <= h2 && a2 <= a1
    ensures Bmr(w1, h1, a1, gender) <= Bmr(w2, h2, a2, gender)
  {
  }

  /** The activity-multiplier table of `calculate_tdee`. */
  const ActivityMultipliers: map<string, real> := map[
    "sedentario" := 1.2,
    "leve" := 1.375,
    "moderado" := 1.55,
    "intenso" := 1.725,
    "muito_intenso" := 1.9
  ]

  /** The table entry for an already lower-cased level, 1.2 for a level not in the table. */
  function TableMultiplier(key: string): (r: real)
    ensures key in ActivityMultipliers ==> r == ActivityMultipliers[key]
    ensures key !in ActivityMultipliers ==> r == 1.2
    ensures 1.2 <= r <= 1.9
  {
    if key in ActivityMultipliers then ActivityMultipliers[key] else 1.2
  }

  /** `activity_multipliers.get(activity_level.lower(), 1.2)`. */
  function Multiplier(activityLevel: string): real {
    TableMultiplier(Lower(activityLevel))
  }

  /** `calculate_tdee`. */
  function Tdee(bmr: real, activityLevel: string): real {
    bmr * Multiplier(activityLevel)
  }

  /** A known level uses its table entry, any other level the sedentary 1.2. */
  lemma TdeeLookup(bmr: real, activityLevel: string)
    ensures Lower(activityLevel) == "sedentario" ==> Tdee(bmr, activityLevel) == 1.2 * bmr
    ensures Lower(activityLevel) == "leve" ==> Tdee(bmr, activityLevel) == 1.375 * bmr
    ensures Lower(activityLevel) == "moderado" ==> Tdee(bmr, activityLevel) == 1.55 * bmr
    ensures Lower(activityLevel) == "intenso" ==> Tdee(bmr, activityLevel) == 1.725 * bmr
    ensures Lower(activityLevel) == "muito_intenso" ==> Tdee(bmr, activityLevel) == 1.9 * bmr
    ensures Lower(activityLevel) !in ActivityMultipliers ==> Tdee(bmr, activityLevel) == 1.2 * bmr
  {
  }

  /** For a non-negative BMR the TDEE lies between 1.2 and 1.9 times it. */
  lemma TdeeBounds(bmr: real, activityLevel: string)
    requires bmr >= 0.0
    ensures 1.2 * bmr <= Tdee(bmr, activityLevel) <= 1.9 * bmr
  {
  }

  /** Upper-case or mixed-case spellings of a level select the same multiplier. */
  lemma {:induction false} MultiplierIgnoresCase(activityLevel: string)
    ensures Multiplier(activityLevel) == Multiplier(Lower(activityLevel))
  {
    LowerIdempotent(activityLevel);
  }

  /** Deficit applied when the goal weight is below the current weight. */
  const LoseOffset: real := 500.0
  /** Surplus applied when the goal weight is above the current weight. */
  const GainOffset: real := 300.0

  /**
   * `calculate_daily_calorie_goal`: the goal lies below the TDEE exactly when
   * the user wants to lose weight, above it exactly when they want to gain,
   * and equals it exactly when the two weights are equal.
   */
  function DailyCalorieGoal(tdee: real, currentWeight: real, goalWeight: real): (r: real)
    ensures r == tdee - LoseOffset || r == tdee + GainOffset || r == tdee
    ensures r < tdee <==> goalWeight < currentWeight
    ensures r > tdee <==> goalWeight > currentWeight
    ensures r == tdee <==> goalWeight == currentWeight
    ensures goalWeight < currentWeight ==> r == tdee - LoseOffset
    ensures goalWeight > currentWeight ==> r == tdee + GainOffset
  {
    if goalWeight < currentWeight then tdee - LoseOffset
    else if goalWeight > currentWeight then tdee + GainOffset
    else tdee
  }

  /**
   * The chain `create_or_update_profile` runs before rounding: a user who keeps
   * their weight gets exactly BMR times the activity multiplier.
   */
  lemma {:induction false} MaintenanceGoalIsTdee(weight: real, height: real, age: int, gender: string, activityLevel: string)
    ensures DailyCalorieGoal(Tdee(Bmr(weight, height, age, gender), activityLevel), weight, weight)
         == Bmr(weight, height, age, gender) * Multiplier(activityLevel)
  {
  }
}
