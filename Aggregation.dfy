/**
 * The read side of the meal collection: the meals of one user on one day with
 * their totals (`get_meals_by_date`), and the grouping of a user's fetched
 * meals by date (`get_meal_history`).
 */
module Aggregation {
  import opened Meals

  /** The filter a query applies to the stored meals. */
  datatype Selector = OnDate(date: string) | OfUserOnDate(userId: string, date: string)

  predicate Selects(s: Selector, m: Meal) {
    match s
    case OnDate(d) => m.date == d
    case OfUserOnDate(u, d) => m.userId == u && m.date == d
  }

  /** The meals the selector keeps, in their stored order. */
  function Select(ms: seq<Meal>, s: Selector): (r: seq<Meal>)
    ensures |r| <= |ms|
    ensures forall m :: m in r <==> m in ms && Selects(s, m)
  {
    if ms == [] then [] else (if Selects(s, ms[0]) then [ms[0]] else []) + Select(ms[1..], s)
  }

  lemma {:induction false} SelectAppend(xs: seq<Meal>, ys: seq<Meal>, s: Selector)
    ensures Select(xs + ys, s) == Select(xs, s) + Select(ys, s)
  {
    if xs == [] {
      assert xs + ys == ys;
    } else {
      assert (xs + ys)[0] == xs[0];
      assert (xs + ys)[1..] == xs[1..] + ys;
      SelectAppend(xs[1..], ys, s);
    }
  }

  /** Adding one meal at the end adds it to the selection exactly when it is selected. */
  lemma SelectSnoc(ms: seq<Meal>, m: Meal, s: Selector)
    ensures Select(ms + [m], s) == Select(ms, s) + (if Selects(s, m) then [m] else [])
  {
    SelectAppend(ms, [m], s);
    assert [m][1..] == [];
  }

  /** The selection keeps every copy of a selected meal and no copy of any other. */
  lemma {:induction false} SelectMultiplicity(ms: seq<Meal>, s: Selector, m: Meal)
    ensures multiset(Select(ms, s))[m] == if Selects(s, m) then multiset(ms)[m] else 0
  {
    if ms != [] {
      assert ms == [ms[0]] + ms[1..];
      assert multiset(ms) == multiset([ms[0]]) + multiset(ms[1..]);
      SelectMultiplicity(ms[1..], s, m);
    }
  }

  /** The element-wise sum of the nutrients of the meals. */
  function Sum(ms: seq<Meal>): Nutrients {
    if ms == [] then Zero else Plus(NutrientsOf(ms[0]), Sum(ms[1..]))
  }

  lemma {:induction false} SumAppend(xs: seq<Meal>, ys: seq<Meal>)
    ensures Sum(xs + ys) == Plus(Sum(xs), Sum(ys))
  {
    if xs == [] {
      assert xs + ys == ys;
    } else {
      assert (xs + ys)[0] == xs[0];
      assert (xs + ys)[1..] == xs[1..] + ys;
      SumAppend(xs[1..], ys);
    }
  }

  lemma SumSnoc(ms: seq<Meal>, m: Meal)
    ensures Sum(ms + [m]) == Plus(Sum(ms), NutrientsOf(m))
  {
    SumAppend(ms, [m]);
    assert [m][1..] == [];
  }

  /** The contribution of one meal to a conditional sum. */
  function ContributionTo(s: Selector, m: Meal): Nutrients {
    if Selects(s, m) then NutrientsOf(m) else Zero
  }

  /** Reference definition of a query's totals: every stored meal contributes when it is selected. */
  function SumWhere(ms: seq<Meal>, s: Selector): Nutrients {
    if ms == [] then Zero else Plus(ContributionTo(s, ms[0]), SumWhere(ms[1..], s))
  }

  /** Reference definition of a query's count. */
  function CountWhere(ms: seq<Meal>, s: Selector): nat {
    if ms == [] then 0 else (if Selects(s, ms[0]) then 1 else 0) + CountWhere(ms[1..], s)
  }

  /** Summing the selection is the conditional sum over all stored meals. */
  lemma {:induction false} SumOfSelect(ms: seq<Meal>, s: Selector)
    ensures Sum(Select(ms, s)) == SumWhere(ms, s)
  {
    if ms != [] {
      var head := if Selects(s, ms[0]) then [ms[0]] else [];
      assert Select(ms, s) == head + Select(ms[1..], s);
      SumAppend(head, Select(ms[1..], s));
      assert Sum(head) == ContributionTo(s, ms[0]) by {
        if Selects(s, ms[0]) {
          assert head[1..] == [];
        }
      }
      SumOfSelect(ms[1..], s);
    }
  }

  /** The size of the selection is the number of stored meals selected. */
  lemma {:induction false} CountOfSelect(ms: seq<Meal>, s: Selector)
    ensures |Select(ms, s)| == CountWhere(ms, s)
  {
    if ms != [] {
      CountOfSelect(ms[1..], s);
    }
  }

  /** The `totals` of `get_meals_by_date`, with the matching meals. */
  datatype DayView = DayView(meals: seq<Meal>, totals: Nutrients, mealsCount: nat)

  /**
   * `get_meals_by_date`: exactly the stored meals of that user on that date,
   * in stored order, their four totals and their number.
   */
  function MealsByDate(stored: seq<Meal>, userId: string, date: string): (r: DayView)
    ensures r.meals == Select(stored, OfUserOnDate(userId, date))
    ensures forall m :: m in r.meals <==> m in stored && m.userId == userId && m.date == date
    ensures r.totals == SumWhere(stored, OfUserOnDate(userId, date))
    ensures r.mealsCount == |r.meals| == CountWhere(stored, OfUserOnDate(userId, date))
    ensures r.meals == [] ==> r.totals == Zero && r.mealsCount == 0
  {
    var meals := Select(stored, OfUserOnDate(userId, date));
    SumOfSelect(stored, OfUserOnDate(userId, date));
    CountOfSelect(stored, OfUserOnDate(userId, date));
    DayView(meals, Sum(meals), |meals|)
  }

  // ----- history -----

  /** The `date` of every meal, in input order. */
  function DatesOf(ms: seq<Meal>): (r: seq<string>)
    ensures |r| == |ms| && forall i :: 0 <= i < |ms| ==> r[i] == ms[i].date
  {
    seq(|ms|, i requires 0 <= i < |ms| => ms[i].date)
  }

  predicate Distinct(s: seq<string>) {
    forall i, j :: 0 <= i < j < |s| ==> s[i] != s[j]
  }

  /** The values of `s` without repetitions, each at the place it first occurs. */
  function FirstOccurrences(s: seq<string>): (r: seq<string>)
    ensures forall x :: x in r <==> x in s
    ensures Distinct(r)
    decreases |s|
  {
    if s == [] then []
    else
      var p := FirstOccurrences(s[..|s| - 1]);
      var x := s[|s| - 1];
      assert forall y :: y in s <==> y in s[..|s| - 1] || y == x;
      if x in p then p else p + [x]
  }

  /** The position where `x` first occurs in `s`. */
  function IndexOf(s: seq<string>, x: string): (r: nat)
    requires x in s
    ensures r < |s| && s[r] == x && x !in s[..r]
  {
    if s[0] == x then 0
    else
      assert x in s[1..];
      var r := 1 + IndexOf(s[1..], x);
      assert s[..r] == [s[0]] + s[1..][..r - 1];
      r
  }

  lemma IndexOfPrefix(s: seq<string>, n: nat, x: string)
    requires n <= |s| && x in s[..n]
    ensures IndexOf(s, x) == IndexOf(s[..n], x)
  {
    var j := IndexOf(s[..n], x);
    assert s[..n][..j] == s[..j];
  }

  /** Values come out in the order of their first occurrence. */
  lemma {:induction false} FirstOccurrencesOrdered(s: seq<string>, k: nat, l: nat)
    requires k < l < |FirstOccurrences(s)|
    ensures IndexOf(s, FirstOccurrences(s)[k]) < IndexOf(s, FirstOccurrences(s)[l])
    decreases |s|
  {
    var n := |s| - 1;
    var init := s[..n];
    var p := FirstOccurrences(init);
    var x := s[n];
    var r := FirstOccurrences(s);
    assert r[k] in s && r[l] in s;
    if l < |p| {
      assert r[k] == p[k] && r[l] == p[l];
      FirstOccurrencesOrdered(init, k, l);
      IndexOfPrefix(s, n, p[k]);
      IndexOfPrefix(s, n, p[l]);
    } else {
      assert x !in p && r == p + [x] && r[l] == x;
      assert x !in init;
      assert r[k] == p[k] && p[k] in init;
      IndexOfPrefix(s, n, p[k]);
      var i := IndexOf(s, x);
    }
  }

  /** The group of `history_by_date` for one date. */
  datatype DayGroup = DayGroup(date: string, meals: seq<Meal>, totals: Nutrients)

  /** The group one date gets: its meals in input order and their totals. */
  function GroupOf(ms: seq<Meal>, d: string): DayGroup {
    var meals := Select(ms, OnDate(d));
    DayGroup(d, meals, Sum(meals))
  }

  /** Specification of `get_meal_history`: one group per distinct date, in order of first occurrence. */
  function Groups(ms: seq<Meal>): (h: seq<DayGroup>)
    ensures |h| == |FirstOccurrences(DatesOf(ms))|
  {
    var ds := FirstOccurrences(DatesOf(ms));
    seq(|ds|, k requires 0 <= k < |ds| => GroupOf(ms, ds[k]))
  }

  lemma NoMealsOnOtherDates(ms: seq<Meal>, d: string)
    requires d !in DatesOf(ms)
    ensures Select(ms, OnDate(d)) == []
  {
  }

  /** One more meal leaves every other date's group as it was and extends its own date's group. */
  lemma GroupOfSnoc(ms: seq<Meal>, m: Meal, d: string)
    ensures GroupOf(ms + [m], d) == if m.date == d
      then DayGroup(d, GroupOf(ms, d).meals + [m], Plus(GroupOf(ms, d).totals, NutrientsOf(m)))
      else GroupOf(ms, d)
  {
    var before := Select(ms, OnDate(d));
    SelectSnoc(ms, m, OnDate(d));
    if m.date == d {
      assert Select(ms + [m], OnDate(d)) == before + [m];
      SumSnoc(before, m);
    } else {
      assert Select(ms + [m], OnDate(d)) == before;
    }
  }

  /** One more meal adds its date at the end of the distinct dates, unless the date is already there. */
  lemma FirstOccurrencesSnoc(ms: seq<Meal>, m: Meal)
    ensures FirstOccurrences(DatesOf(ms + [m])) == if m.date in FirstOccurrences(DatesOf(ms))
      then FirstOccurrences(DatesOf(ms))
      else FirstOccurrences(DatesOf(ms)) + [m.date]
  {
    var s := DatesOf(ms + [m]);
    assert s[..|s| - 1] == DatesOf(ms);
  }

  /** The dictionary and its insertion order after the loop has seen the meals `done`. */
  ghost predicate GroupedSoFar(done: seq<Meal>, byDate: map<string, DayGroup>, order: seq<string>) {
    && order == FirstOccurrences(DatesOf(done))
    && (forall d :: d in byDate <==> d in order)
    && (forall d :: d in byDate ==> byDate[d] == GroupOf(done, d))
  }

  /** One pass of the grouping loop: open the date's group when it is new, then append the meal. */
  lemma GroupingStep(done: seq<Meal>, meal: Meal, byDate: map<string, DayGroup>, order: seq<string>,
                     byDate': map<string, DayGroup>, order': seq<string>)
    requires GroupedSoFar(done, byDate, order)
    requires order' == if meal.date in byDate then order else order + [meal.date]
    requires var group := if meal.date in byDate then byDate[meal.date] else DayGroup(meal.date, [], Zero);
      byDate' == byDate[meal.date := DayGroup(meal.date, group.meals + [meal], Plus(group.totals, NutrientsOf(meal)))]
    ensures GroupedSoFar(done + [meal], byDate', order')
  {
    FirstOccurrencesSnoc(done, meal);
    assert forall d :: d in byDate' <==> d in order';
    if meal.date !in byDate {
      NoMealsOnOtherDates(done, meal.date);
      assert meal.date !in order;
    }
    forall d | d in byDate' ensures byDate'[d] == GroupOf(done + [meal], d) {
      GroupOfSnoc(done, meal, d);
      if d != meal.date {
        assert byDate'[d] == byDate[d];
      }
    }
  }

  /** Reading the dictionary's values in insertion order gives the specified groups. */
  lemma GroupedHistory(meals: seq<Meal>, byDate: map<string, DayGroup>, order: seq<string>, history: seq<DayGroup>)
    requires GroupedSoFar(meals, byDate, order)
    requires |history| == |order| && forall k :: 0 <= k < |order| ==> order[k] in byDate && history[k] == byDate[order[k]]
    ensures history == Groups(meals)
  {
  }

  /**
   * The grouping loop of `get_meal_history`: `byDate` is the dictionary and
   * `order` its insertion order, which `list(history_by_date.values())` follows.
   */
  method MealHistory(meals: seq<Meal>) returns (history: seq<DayGroup>)
    ensures history == Groups(meals)
  {
    var byDate: map<string, DayGroup> := map[];
    var order: seq<string> := [];
    for i := 0 to |meals|
      invariant GroupedSoFar(meals[..i], byDate, order)
    {
      var meal := meals[i];
      var mealDate := meal.date;
      ghost var byDate0, order0 := byDate, order;
      if mealDate !in byDate {
        byDate := byDate[mealDate := DayGroup(mealDate, [], Zero)];
        order := order + [mealDate];
      }
      var group := byDate[mealDate];
      byDate := byDate[mealDate := DayGroup(mealDate, group.meals + [meal], Plus(group.totals, NutrientsOf(meal)))];
      GroupingStep(meals[..i], meal, byDate0, order0, byDate, order);
      assert meals[..i + 1] == meals[..i] + [meal];
    }
    assert meals[..|meals|] == meals;
    history := seq(|order|, k requires 0 <= k < |order| => byDate[order[k]]);
    GroupedHistory(meals, byDate, order, history);
  }

  /** Each group's totals are the sums over that group's meals. */
  lemma HistoryTotals(meals: seq<Meal>, k: nat)
    requires k < |Groups(meals)|
    ensures Groups(meals)[k].totals == Sum(Groups(meals)[k].meals)
  {
  }

  /** Groups come in the order in which their dates first occur in the input. */
  lemma HistoryOrder(meals: seq<Meal>, k: nat, l: nat)
    requires k < l < |Groups(meals)|
    ensures Groups(meals)[k].date in DatesOf(meals) && Groups(meals)[l].date in DatesOf(meals)
    ensures IndexOf(DatesOf(meals), Groups(meals)[k].date) < IndexOf(DatesOf(meals), Groups(meals)[l].date)
  {
    FirstOccurrencesOrdered(DatesOf(meals), k, l);
  }

  /** No two groups have the same date. */
  lemma HistoryDatesDistinct(meals: seq<Meal>, k: nat, l: nat)
    requires k < l < |Groups(meals)|
    ensures Groups(meals)[k].date != Groups(meals)[l].date
  {
  }

  /** A group holds exactly the input meals of its date, in input order. */
  lemma HistoryGroupMeals(meals: seq<Meal>, k: nat)
    requires k < |Groups(meals)|
    ensures Groups(meals)[k].meals == Select(meals, OnDate(Groups(meals)[k].date))
    ensures forall m :: m in Groups(meals)[k].meals <==> m in meals && m.date == Groups(meals)[k].date
  {
  }

  /** Every input meal's date has a group. */
  lemma HistoryCovers(meals: seq<Meal>, i: nat)
    requires i < |meals|
    ensures exists k :: 0 <= k < |Groups(meals)| && Groups(meals)[k].date == meals[i].date
  {
    var ds := FirstOccurrences(DatesOf(meals));
    assert DatesOf(meals)[i] == meals[i].date;
    assert meals[i].date in ds;
    var k :| 0 <= k < |ds| && ds[k] == meals[i].date;
    assert Groups(meals)[k].date == meals[i].date;
  }

  /**
   * The groups partition the input: every input meal lies, with all its
   * copies, in the group of its date, and in no other group.
   */
  lemma HistoryPartition(meals: seq<Meal>, m: Meal, k: nat)
    requires k < |Groups(meals)|
    ensures Groups(meals)[k].date == m.date ==> multiset(Groups(meals)[k].meals)[m] == multiset(meals)[m]
    ensures Groups(meals)[k].date != m.date ==> m !in Groups(meals)[k].meals
  {
    var g := Groups(meals)[k];
    assert g.meals == Select(meals, OnDate(g.date));
    SelectMultiplicity(meals, OnDate(g.date), m);
  }
}
