/**
 * What the food-analysis endpoint does with the JSON value the language model
 * returned: a list of foods is merged into one, and the fields the response
 * needs are filled with defaults where the model left them out.
 * The model call, the fence stripping and `json.loads` are not modelled: the
 * parsed value is the input.
 */
module FoodAnalysis {
  import opened Wrappers

  /** One JSON object describing a food; each key may be missing. */
  datatype FoodItem = FoodItem(
    foodName: Option<string>,
    portionSize: Option<real>,
    calories: Option<real>,
    protein: Option<real>,
    carbs: Option<real>,
    fats: Option<real>,
    confidence: Option<string>)

  /** The value `json.loads` produced: an object, a list of objects, or a scalar of the named Python type. */
  datatype Parsed = JsonObject(item: FoodItem) | JsonArray(items: seq<FoodItem>) | JsonScalar(typeName: string)

  /** The numeric keys the merge adds up. */
  datatype Quantity = PortionSize | Calories | Protein | Carbs | Fats

  /** `item.get(key, 0)` for a numeric key. */
  function Amount(item: FoodItem, q: Quantity): real {
    match q
    case PortionSize => item.portionSize.GetOr(0.0)
    case Calories => item.calories.GetOr(0.0)
    case Protein => item.protein.GetOr(0.0)
    case Carbs => item.carbs.GetOr(0.0)
    case Fats => item.fats.GetOr(0.0)
  }

  /** `sum(item.get(key, 0) for item in items)`. */
  function Total(items: seq<FoodItem>, q: Quantity): real {
    if items == [] then 0.0 else Amount(items[0], q) + Total(items[1..], q)
  }

  lemma {:induction false} TotalAppend(xs: seq<FoodItem>, ys: seq<FoodItem>, q: Quantity)
    ensures Total(xs + ys, q) == Total(xs, q) + Total(ys, q)
  {
    if xs == [] {
      assert xs + ys == ys;
    } else {
      assert (xs + ys)[1..] == xs[1..] + ys;
      TotalAppend(xs[1..], ys, q);
    }
  }

  /** `[item.get('food_name', '') for item in items]`. */
  function Names(items: seq<FoodItem>): (r: seq<string>)
    ensures |r| == |items|
    ensures forall i :: 0 <= i < |items| ==> r[i] == items[i].foodName.GetOr("")
  {
    if items == [] then [] else [items[0].foodName.GetOr("")] + Names(items[1..])
  }

  const Separator: string := " + "

  /** `' + '.join(names)`. */
  function Join(names: seq<string>): string {
    if |names| == 0 then ""
    else if |names| == 1 then names[0]
    else names[0] + Separator + Join(names[1..])
  }

  /** Joining two non-empty lists puts one separator between their joins. */
  lemma {:induction false} JoinAppend(xs: seq<string>, ys: seq<string>)
    requires |xs| > 0 && |ys| > 0
    ensures Join(xs + ys) == Join(xs) + Separator + Join(ys)
  {
    assert (xs + ys)[0] == xs[0];
    assert (xs + ys)[1..] == xs[1..] + ys;
    if |xs| > 1 {
      JoinAppend(xs[1..], ys);
    } else {
      assert xs[1..] + ys == ys;
    }
  }

  lemma {:induction false} NamesAppend(xs: seq<FoodItem>, ys: seq<FoodItem>)
    ensures Names(xs + ys) == Names(xs) + Names(ys)
  {
    var l, r := Names(xs + ys), Names(xs) + Names(ys);
    assert |l| == |r|;
    forall i | 0 <= i < |l| ensures l[i] == r[i] {
      if i < |xs| {
        assert (xs + ys)[i] == xs[i];
      } else {
        assert (xs + ys)[i] == ys[i - |xs|];
      }
    }
  }

  const NoFoodIdentified: string := "Nenhum alimento identificado na resposta"

  /**
   * The list case of `analyze_food_with_ai`: an empty list is an error, one
   * item is passed through unchanged, and several items give one item whose
   * name joins theirs in list order, whose numeric keys are their sums, and
   * whose remaining key (the confidence) is the first item's.
   */
  function Merged(items: seq<FoodItem>): (r: Result<FoodItem, string>)
    ensures r.Failure? <==> |items| == 0
    ensures r.Failure? ==> r.error == NoFoodIdentified
    ensures |items| == 1 ==> r == Success(items[0])
    ensures |items| > 1 ==>
      && r.Success?
      && r.value.foodName == Some(Join(Names(items)))
      && r.value.confidence == items[0].confidence
      && r.value.portionSize == Some(Total(items, PortionSize))
      && r.value.calories == Some(Total(items, Calories))
      && r.value.protein == Some(Total(items, Protein))
      && r.value.carbs == Some(Total(items, Carbs))
      && r.value.fats == Some(Total(items, Fats))
      && (forall q :: Amount(r.value, q) == Total(items, q))
  {
    if |items| == 0 then Failure(NoFoodIdentified)
    else if |items| == 1 then Success(items[0])
    else Success(items[0].(
      foodName := Some(Join(Names(items))),
      portionSize := Some(Total(items, PortionSize)),
      calories := Some(Total(items, Calories)),
      protein := Some(Total(items, Protein)),
      carbs := Some(Total(items, Carbs)),
      fats := Some(Total(items, Fats))))
  }

  /**
   * The merge as the source performs it: take the first item, then overwrite
   * its name and its five numeric keys one after the other.
   */
  method MergeList(items: seq<FoodItem>) returns (r: Result<FoodItem, string>)
    ensures r == Merged(items)
  {
    if |items| > 0 {
      var food := items[0];
      if |items| > 1 {
        var allNames := Names(items);
        food := food.(foodName := Some(Join(allNames)));
        food := food.(portionSize := Some(Total(items, PortionSize)));
        food := food.(calories := Some(Total(items, Calories)));
        food := food.(protein := Some(Total(items, Protein)));
        food := food.(carbs := Some(Total(items, Carbs)));
        food := food.(fats := Some(Total(items, Fats)));
      }
      r := Success(food);
    } else {
      r := Failure(NoFoodIdentified);
    }
  }

  /**
   * Merging is associative: merging the merged results of two non-empty lists
   * gives the same item as merging the two lists joined together.
   */
  lemma {:induction false} MergeAssociative(xs: seq<FoodItem>, ys: seq<FoodItem>)
    requires |xs| > 0 && |ys| > 0
    ensures Merged(xs).Success? && Merged(ys).Success?
    ensures Merged([Merged(xs).value, Merged(ys).value]) == Merged(xs + ys)
  {
    var mx, my := Merged(xs).value, Merged(ys).value;
    var pair := [mx, my];
    assert Names(pair) == [Join(Names(xs)), Join(Names(ys))];
    assert Join(Names(pair)) == Join(Names(xs)) + Separator + Join(Names(ys));
    NamesAppend(xs, ys);
    JoinAppend(Names(xs), Names(ys));
    forall q ensures Total(pair, q) == Total(xs + ys, q) {
      if |xs| == 1 { assert xs[1..] == []; }
      if |ys| == 1 { assert ys[1..] == []; }
      assert Amount(mx, q) == Total(xs, q);
      assert Amount(my, q) == Total(ys, q);
      assert pair[1..] == [my];
      assert pair[1..][1..] == [];
      assert Total([my], q) == Amount(my, q) + Total([], q);
      assert Total(pair, q) == Amount(mx, q) + Total([my], q);
      TotalAppend(xs, ys, q);
    }
    assert (xs + ys)[0] == xs[0];
    var l, r := Merged(pair).value, Merged(xs + ys).value;
    assert Amount(l, PortionSize) == Amount(r, PortionSize);
    assert Amount(l, Calories) == Amount(r, Calories);
    assert Amount(l, Protein) == Amount(r, Protein);
    assert Amount(l, Carbs) == Amount(r, Carbs);
    assert Amount(l, Fats) == Amount(r, Fats);
  }

  /** The body of a successful `/api/food/analyze` response. */
  datatype AnalyzeResponse = AnalyzeResponse(
    mealId: string,
    foodName: string,
    portionSize: real,
    calories: real,
    protein: real,
    carbs: real,
    fats: real,
    confidence: string)

  const DefaultFoodName: string := "Alimento não identificado"
  const DefaultPortionSize: real := 100.0
  const DefaultConfidence: string := "média"

  /**
   * The response of `analyze_food`: every key the analysis left out gets its
   * default, every key it gave is copied unchanged.
   */
  function WithDefaults(food: FoodItem, mealId: string): (r: AnalyzeResponse)
    ensures r.mealId == mealId
    ensures food.foodName.Some? ==> r.foodName == food.foodName.value
    ensures food.foodName.None? ==> r.foodName == DefaultFoodName
    ensures food.portionSize.Some? ==> r.portionSize == food.portionSize.value
    ensures food.portionSize.None? ==> r.portionSize == DefaultPortionSize
    ensures forall q :: q != PortionSize ==> ResponseAmount(r, q) == Amount(food, q)
    ensures food.confidence.Some? ==> r.confidence == food.confidence.value
    ensures food.confidence.None? ==> r.confidence == DefaultConfidence
  {
    AnalyzeResponse(
      mealId,
      food.foodName.GetOr(DefaultFoodName),
      food.portionSize.GetOr(DefaultPortionSize),
      food.calories.GetOr(0.0),
      food.protein.GetOr(0.0),
      food.carbs.GetOr(0.0),
      food.fats.GetOr(0.0),
      food.confidence.GetOr(DefaultConfidence))
  }

  /** A numeric key of the response. */
  function ResponseAmount(r: AnalyzeResponse, q: Quantity): real {
    match q
    case PortionSize => r.portionSize
    case Calories => r.calories
    case Protein => r.protein
    case Carbs => r.carbs
    case Fats => r.fats
  }

  /** The response read back as a food object, with every key present. */
  function AsFoodItem(r: AnalyzeResponse): FoodItem {
    FoodItem(Some(r.foodName), Some(r.portionSize), Some(r.calories), Some(r.protein),
             Some(r.carbs), Some(r.fats), Some(r.confidence))
  }

  predicate Complete(food: FoodItem) {
    food.foodName.Some? && food.portionSize.Some? && food.calories.Some? && food.protein.Some?
    && food.carbs.Some? && food.fats.Some? && food.confidence.Some?
  }

  /** Filling defaults loses nothing from a complete object and is undone by reading the response back. */
  lemma DefaultsRoundTrip(food: FoodItem, r: AnalyzeResponse)
    ensures Complete(food) ==> AsFoodItem(WithDefaults(food, r.mealId)) == food
    ensures WithDefaults(AsFoodItem(r), r.mealId) == r
  {
  }

  const UserNotFound: HttpError := HttpError(404, "Usuário não encontrado")
  const AnalysisErrorPrefix: string := "Erro ao analisar alimento: "
  const ProcessingErrorPrefix: string := "Erro ao processar imagem: "

  /** The text of the AttributeError raised by `.get` on a value that is not a dictionary. */
  function NoAttributeGet(typeName: string): string {
    "'" + typeName + "' object has no attribute 'get'"
  }

  /**
   * `analyze_food`, given whether the user exists, the parsed model answer and
   * the generated meal id: 404 for an unknown user, 500 when the list was
   * empty or the answer is not an object, otherwise the default-filled response.
   */
  function AnalyzeFood(userExists: bool, parsed: Parsed, mealId: string): (r: Result<AnalyzeResponse, HttpError>)
    ensures !userExists ==> r == Failure(UserNotFound)
    ensures userExists && parsed.JsonArray? && parsed.items == [] ==>
      r == Failure(HttpError(500, AnalysisErrorPrefix + NoFoodIdentified))
    ensures userExists && parsed.JsonScalar? ==>
      r == Failure(HttpError(500, ProcessingErrorPrefix + NoAttributeGet(parsed.typeName)))
    ensures userExists && parsed.JsonObject? ==> r == Success(WithDefaults(parsed.item, mealId))
    ensures userExists && parsed.JsonArray? && parsed.items != [] ==>
      r == Success(WithDefaults(Merged(parsed.items).value, mealId))
  {
    if !userExists then Failure(UserNotFound)
    else match parsed
      case JsonObject(item) => Success(WithDefaults(item, mealId))
      case JsonArray(items) =>
        (match Merged(items)
         case Success(item) => Success(WithDefaults(item, mealId))
         case Failure(e) => Failure(HttpError(500, AnalysisErrorPrefix + e)))
      case JsonScalar(typeName) =>
        Failure(HttpError(500, ProcessingErrorPrefix + NoAttributeGet(typeName)))
  }

  /**
   * A merged answer whose items all leave out `portion_size` reports a portion
   * of 0 grams, where a single such item would have reported the default 100.
   */
  lemma {:induction false} MergedMissingPortionIsZero(items: seq<FoodItem>, mealId: string)
    requires |items| > 1
    requires forall i :: 0 <= i < |items| ==> items[i].portionSize.None?
    ensures AnalyzeFood(true, JsonArray(items), mealId).value.portionSize == 0.0
  {
    forall i | 0 <= i < |items| ensures Amount(items[i], PortionSize) == 0.0 {
    }
    TotalOfZeros(items, PortionSize);
  }

  lemma {:induction false} TotalOfZeros(items: seq<FoodItem>, q: Quantity)
    requires forall i :: 0 <= i < |items| ==> Amount(items[i], q) == 0.0
    ensures Total(items, q) == 0.0
  {
    if items != [] {
      assert Amount(items[0], q) == 0.0;
      TotalOfZeros(items[1..], q);
    }
  }
}
