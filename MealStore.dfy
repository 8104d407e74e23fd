/**
 * The meal collection as an in-memory sequence of stored meals, in the order
 * the collection returns them, with the three endpoints that change it:
 * `save_meal`, `adjust_portion` and `delete_meal`.
 */
module MealStore {
  import opened Wrappers
  import opened Meals
  import opened Aggregation

  /** The body of a `/api/meal/adjust` request (`PortionAdjustment`). */
  datatype PortionAdjustment = PortionAdjustment(mealId: string, newPortionSize: real)

  /** The reply of a successful save. */
  datatype SaveReply = SaveReply(message: string, mealId: string)

  const SavedMessage: string := "Refeição salva com sucesso"
  const DeletedMessage: string := "Refeição deletada com sucesso"
  const MealNotFound: HttpError := HttpError(404, "Refeição não encontrada")
  /** What `str(e)` gives for the ZeroDivisionError of a zero stored portion. */
  const DivisionByZero: HttpError := HttpError(500, "float division by zero")

  /**
   * The position of the first stored meal with that id, the one `find_one`,
   * `update_one` and `delete_one` act on; None when no meal has it.
   */
  function FindMeal(ms: seq<Meal>, mealId: string): (r: Option<nat>)
    ensures r.None? <==> forall j :: 0 <= j < |ms| ==> ms[j].mealId != mealId
    ensures r.Some? ==>
      && r.value < |ms|
      && ms[r.value].mealId == mealId
      && (forall j :: 0 <= j < r.value ==> ms[j].mealId != mealId)
  {
    if ms == [] then None
    else if ms[0].mealId == mealId then Some(0)
    else match FindMeal(ms[1..], mealId)
      case None => None
      case Some(k) => Some(k + 1)
  }

  function RemoveAt(ms: seq<Meal>, i: nat): seq<Meal>
    requires i < |ms|
  {
    ms[..i] + ms[i + 1..]
  }

  /** How many stored meals carry the id. */
  function CountId(ms: seq<Meal>, mealId: string): nat {
    if ms == [] then 0 else (if ms[0].mealId == mealId then 1 else 0) + CountId(ms[1..], mealId)
  }

  class MealCollection {
    var meals: seq<Meal>

    constructor ()
      ensures meals == []
    {
      meals := [];
    }

    /** `save_meal`: the entry is inserted with its `created_at`; ids are not checked for uniqueness. */
    method SaveMeal(entry: MealEntry, now: Timestamp) returns (reply: SaveReply)
      modifies this
      ensures meals == old(meals) + [Stamped(entry, now)]
      ensures reply == SaveReply(SavedMessage, entry.mealId)
    {
      meals := meals + [Stamped(entry, now)];
      reply := SaveReply(SavedMessage, entry.mealId);
    }

    /**
     * `adjust_portion`: 404 and no change when no meal has the id, 500 and no
     * change when its stored portion is zero; otherwise that one meal gets the
     * new portion and its nutrients rescaled, and nothing else changes.
     */
    method AdjustPortion(adjustment: PortionAdjustment) returns (r: Result<UpdatedValues, HttpError>)
      modifies this
      ensures FindMeal(old(meals), adjustment.mealId).None? ==>
        r == Failure(MealNotFound) && meals == old(meals)
      ensures FindMeal(old(meals), adjustment.mealId).Some? ==>
        var i := FindMeal(old(meals), adjustment.mealId).value;
        if old(meals)[i].portionSize == 0.0 then
          r == Failure(DivisionByZero) && meals == old(meals)
        else
          && r == Success(Rescale(old(meals)[i], adjustment.newPortionSize))
          && meals == old(meals)[i := Apply(old(meals)[i], r.value)]
    {
      match FindMeal(meals, adjustment.mealId)
      case None =>
        r := Failure(MealNotFound);
      case Some(i) =>
        var meal := meals[i];
        if meal.portionSize == 0.0 {
          r := Failure(DivisionByZero);
        } else {
          var updatedValues := Rescale(meal, adjustment.newPortionSize);
          meals := meals[i := Apply(meal, updatedValues)];
          r := Success(updatedValues);
        }
    }

    /** `delete_meal`: 404 and no change when no meal has the id, otherwise the first such meal is removed. */
    method DeleteMeal(mealId: string) returns (r: Result<string, HttpError>)
      modifies this
      ensures FindMeal(old(meals), mealId).None? ==> r == Failure(MealNotFound) && meals == old(meals)
      ensures FindMeal(old(meals), mealId).Some? ==>
        r == Success(DeletedMessage) && meals == RemoveAt(old(meals), FindMeal(old(meals), mealId).value)
    {
      match FindMeal(meals, mealId)
      case None =>
        r := Failure(MealNotFound);
      case Some(i) =>
        meals := RemoveAt(meals, i);
        r := Success(DeletedMessage);
    }
  }

  // ----- what the three operations do to the collection and its day totals -----

  lemma {:induction false} CountIdAppend(xs: seq<Meal>, ys: seq<Meal>, mealId: string)
    ensures CountId(xs + ys, mealId) == CountId(xs, mealId) + CountId(ys, mealId)
  {
    if xs == [] {
      assert xs + ys == ys;
    } else {
      assert (xs + ys)[0] == xs[0];
      assert (xs + ys)[1..] == xs[1..] + ys;
      CountIdAppend(xs[1..], ys, mealId);
    }
  }

  lemma {:induction false} SumWhereAppend(xs: seq<Meal>, ys: seq<Meal>, s: Selector)
    ensures SumWhere(xs + ys, s) == Plus(SumWhere(xs, s), SumWhere(ys, s))
    ensures CountWhere(xs + ys, s) == CountWhere(xs, s) + CountWhere(ys, s)
  {
    if xs == [] {
      assert xs + ys == ys;
    } else {
      assert (xs + ys)[0] == xs[0];
      assert (xs + ys)[1..] == xs[1..] + ys;
      SumWhereAppend(xs[1..], ys, s);
    }
  }

  lemma PlusExchange(a: Nutrients, x: Nutrients, y: Nutrients, b: Nutrients)
    ensures Plus(Plus(a, Plus(x, b)), y) == Plus(Plus(a, Plus(y, b)), x)
  {
  }

  /** Splits the conditional sums of a collection at position `i`. */
  lemma SumWhereAround(ms: seq<Meal>, i: nat, s: Selector)
    requires i < |ms|
    ensures SumWhere(ms, s) == Plus(SumWhere(ms[..i], s), Plus(ContributionTo(s, ms[i]), SumWhere(ms[i + 1..], s)))
    ensures CountWhere(ms, s) == CountWhere(ms[..i], s) + (if Selects(s, ms[i]) then 1 else 0) + CountWhere(ms[i + 1..], s)
  {
    assert ms == ms[..i] + ([ms[i]] + ms[i + 1..]);
    SumWhereAppend(ms[..i], [ms[i]] + ms[i + 1..], s);
    assert ([ms[i]] + ms[i + 1..])[1..] == ms[i + 1..];
  }

  lemma CountIdAround(ms: seq<Meal>, i: nat, mealId: string)
    requires i < |ms|
    ensures CountId(RemoveAt(ms, i), mealId) + (if ms[i].mealId == mealId then 1 else 0) == CountId(ms, mealId)
  {
    assert ms == ms[..i] + ([ms[i]] + ms[i + 1..]);
    assert ([ms[i]] + ms[i + 1..])[1..] == ms[i + 1..];
    CountIdAppend(ms[..i], [ms[i]] + ms[i + 1..], mealId);
    CountIdAppend(ms[..i], ms[i + 1..], mealId);
  }

  lemma RemoveAtMultiset(ms: seq<Meal>, i: nat)
    requires i < |ms|
    ensures multiset(RemoveAt(ms, i)) + multiset{ms[i]} == multiset(ms)
  {
    var a, b := ms[..i], ms[i + 1..];
    assert ms == a + [ms[i]] + b;
    assert multiset(ms) == multiset(a) + multiset([ms[i]]) + multiset(b);
    assert multiset(RemoveAt(ms, i)) == multiset(a) + multiset(b);
  }

  /** Removing position `i` takes one copy of that meal out and lowers only its id's count. */
  lemma RemoveAtCounts(ms: seq<Meal>, i: nat)
    requires i < |ms|
    ensures multiset(RemoveAt(ms, i)) + multiset{ms[i]} == multiset(ms)
    ensures CountId(RemoveAt(ms, i), ms[i].mealId) + 1 == CountId(ms, ms[i].mealId)
    ensures forall other :: other != ms[i].mealId ==> CountId(RemoveAt(ms, i), other) == CountId(ms, other)
  {
    RemoveAtMultiset(ms, i);
    forall id ensures CountId(RemoveAt(ms, i), id) + (if ms[i].mealId == id then 1 else 0) == CountId(ms, id) {
      CountIdAround(ms, i, id);
    }
  }

  /** A delete removes one meal with the id, and no meal with any other id. */
  lemma DeleteRemovesExactlyOne(ms: seq<Meal>, mealId: string)
    requires FindMeal(ms, mealId).Some?
    ensures var i := FindMeal(ms, mealId).value;
      && multiset(RemoveAt(ms, i)) + multiset{ms[i]} == multiset(ms)
      && CountId(RemoveAt(ms, i), mealId) + 1 == CountId(ms, mealId)
      && forall other :: other != mealId ==> CountId(RemoveAt(ms, i), other) == CountId(ms, other)
  {
    var i := FindMeal(ms, mealId).value;
    RemoveAtCounts(ms, i);
  }

  /**
   * The day totals read after a save are the ones read before plus the saved
   * meal, when it belongs to that user and day; the count grows with it.
   */
  lemma SaveUpdatesDayTotals(ms: seq<Meal>, m: Meal, userId: string, date: string)
    ensures MealsByDate(ms + [m], userId, date).totals
         == Plus(MealsByDate(ms, userId, date).totals, ContributionTo(OfUserOnDate(userId, date), m))
    ensures MealsByDate(ms + [m], userId, date).mealsCount
         == MealsByDate(ms, userId, date).mealsCount + (if m.userId == userId && m.date == date then 1 else 0)
  {
    SumWhereAppend(ms, [m], OfUserOnDate(userId, date));
    assert [m][1..] == [];
  }

  /**
   * The day totals read after a delete, plus the removed meal when it belonged
   * to that user and day, are the ones read before.
   */
  lemma DeleteUpdatesDayTotals(ms: seq<Meal>, i: nat, userId: string, date: string)
    requires i < |ms|
    ensures Plus(MealsByDate(RemoveAt(ms, i), userId, date).totals, ContributionTo(OfUserOnDate(userId, date), ms[i]))
         == MealsByDate(ms, userId, date).totals
    ensures MealsByDate(RemoveAt(ms, i), userId, date).mealsCount + (if ms[i].userId == userId && ms[i].date == date then 1 else 0)
         == MealsByDate(ms, userId, date).mealsCount
  {
    var s := OfUserOnDate(userId, date);
    RemoveAtSums(ms, i, s);
    assert MealsByDate(RemoveAt(ms, i), userId, date).totals == SumWhere(RemoveAt(ms, i), s);
    assert MealsByDate(ms, userId, date).totals == SumWhere(ms, s);
  }

  lemma RemoveAtSums(ms: seq<Meal>, i: nat, s: Selector)
    requires i < |ms|
    ensures Plus(SumWhere(RemoveAt(ms, i), s), ContributionTo(s, ms[i])) == SumWhere(ms, s)
    ensures CountWhere(RemoveAt(ms, i), s) + (if Selects(s, ms[i]) then 1 else 0) == CountWhere(ms, s)
  {
    var a, b := SumWhere(ms[..i], s), SumWhere(ms[i + 1..], s);
    var c := ContributionTo(s, ms[i]);
    assert SumWhere(ms, s) == Plus(a, Plus(c, b)) by {
      SumWhereAround(ms, i, s);
    }
    assert SumWhere(RemoveAt(ms, i), s) == Plus(a, b) by {
      SumWhereAppend(ms[..i], ms[i + 1..], s);
    }
    assert CountWhere(RemoveAt(ms, i), s) + (if Selects(s, ms[i]) then 1 else 0) == CountWhere(ms, s) by {
      SumWhereAround(ms, i, s);
      SumWhereAppend(ms[..i], ms[i + 1..], s);
    }
  }

  /**
   * An adjust swaps the adjusted meal's old contribution to its day totals for
   * its new one, and keeps the day's meal count.
   */
  lemma AdjustUpdatesDayTotals(ms: seq<Meal>, i: nat, u: UpdatedValues, userId: string, date: string)
    requires i < |ms|
    ensures var after := ms[i := Apply(ms[i], u)];
      var s := OfUserOnDate(userId, date);
      && Plus(MealsByDate(after, userId, date).totals, ContributionTo(s, ms[i]))
         == Plus(MealsByDate(ms, userId, date).totals, ContributionTo(s, Apply(ms[i], u)))
      && MealsByDate(after, userId, date).mealsCount == MealsByDate(ms, userId, date).mealsCount
  {
    var after := ms[i := Apply(ms[i], u)];
    var s := OfUserOnDate(userId, date);
    AdjustUpdatesSums(ms, i, u, s);
    assert MealsByDate(after, userId, date).totals == SumWhere(after, s);
    assert MealsByDate(ms, userId, date).totals == SumWhere(ms, s);
  }

  /** Splits the conditional sums of a collection after replacing the meal at `i`. */
  lemma SumWhereReplace(ms: seq<Meal>, i: nat, m: Meal, s: Selector)
    requires i < |ms|
    ensures SumWhere(ms[i := m], s) == Plus(SumWhere(ms[..i], s), Plus(ContributionTo(s, m), SumWhere(ms[i + 1..], s)))
    ensures CountWhere(ms[i := m], s) == CountWhere(ms[..i], s) + (if Selects(s, m) then 1 else 0) + CountWhere(ms[i + 1..], s)
  {
    var after := ms[i := m];
    assert after[..i] == ms[..i];
    assert after[i + 1..] == ms[i + 1..];
    SumWhereAround(after, i, s);
  }

  lemma AdjustUpdatesSums(ms: seq<Meal>, i: nat, u: UpdatedValues, s: Selector)
    requires i < |ms|
    ensures var after := ms[i := Apply(ms[i], u)];
      && Plus(SumWhere(after, s), ContributionTo(s, ms[i])) == Plus(SumWhere(ms, s), ContributionTo(s, after[i]))
      && CountWhere(after, s) == CountWhere(ms, s)
  {
    var m := Apply(ms[i], u);
    var a, b := SumWhere(ms[..i], s), SumWhere(ms[i + 1..], s);
    var before, now := ContributionTo(s, ms[i]), ContributionTo(s, m);
    assert Selects(s, m) == Selects(s, ms[i]) by {
      assert m.userId == ms[i].userId && m.date == ms[i].date;
    }
    assert SumWhere(ms, s) == Plus(a, Plus(before, b)) by {
      SumWhereAround(ms, i, s);
    }
    assert SumWhere(ms[i := m], s) == Plus(a, Plus(now, b)) by {
      SumWhereReplace(ms, i, m, s);
    }
    PlusExchange(a, now, before, b);
    assert CountWhere(ms[i := m], s) == CountWhere(ms, s) by {
      SumWhereAround(ms, i, s);
      SumWhereReplace(ms, i, m, s);
    }
  }

  /** Changing fields other than the id leaves every lookup by id where it was. */
  lemma {:induction false} FindMealIgnoresOtherFields(ms: seq<Meal>, ms': seq<Meal>, mealId: string)
    requires |ms| == |ms'| && forall j :: 0 <= j < |ms| ==> ms[j].mealId == ms'[j].mealId
    ensures FindMeal(ms', mealId) == FindMeal(ms, mealId)
  {
    if ms != [] {
      FindMealIgnoresOtherFields(ms[1..], ms'[1..], mealId);
    }
  }

  /** After an adjust, every id still leads to the same position, so the same meal is found again. */
  lemma AdjustKeepsLookups(ms: seq<Meal>, i: nat, u: UpdatedValues, mealId: string)
    requires i < |ms|
    ensures FindMeal(ms[i := Apply(ms[i], u)], mealId) == FindMeal(ms, mealId)
  {
    FindMealIgnoresOtherFields(ms, ms[i := Apply(ms[i], u)], mealId);
  }
}
