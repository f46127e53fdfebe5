/**
 * The entry points of the meal-planning assistant: the single-day request,
 * the choice between the single-day and the seven-day plan, the two-step
 * recommendations (basic meals, then a recipe for each), the basic-meals
 * reply, and the shopping list. Each is a function over the provider's
 * script, and a method that runs it against a `Provider`.
 */
module Pipeline {
  import opened Wrappers
  import opened Json
  import opened Oracle
  import opened JsonReply
  import opened ResponseText
  import opened MealPlan
  import opened MealBatches
  import opened MultiDay
  import opened Recipes
  import opened Shopping

  // ------------------------------------------------------------ single day

  /**
   * `_generate_single_day_meals`: one request for the whole day; no reply
   * gives nothing, and otherwise the parsed reply is returned whatever its
   * shape.
   */
  function SingleDayRun(mealsPerDay: int, replies: Replies, loads: string -> Option<Json>): Run<Option<Json>> {
    var reply := Next(replies);
    if !Usable(reply) then Run(None, Rest(replies), [SingleDayPrompt(mealsPerDay)])
    else
      var parsed := ParseRun(reply.value, Rest(replies), loads);
      Run(parsed.result, parsed.rest, [SingleDayPrompt(mealsPerDay)] + parsed.prompts)
  }

  /**
   * The day is asked for once, and repaired at most once; a result needs a
   * usable reply, and a reply that parses as it stands is returned as
   * parsed, without a repair request.
   */
  lemma SingleDaySpec(mealsPerDay: int, replies: Replies, loads: string -> Option<Json>)
    ensures var run := SingleDayRun(mealsPerDay, replies, loads);
      && 1 <= |run.prompts| <= 2
      && run.prompts[0] == SingleDayPrompt(mealsPerDay)
      && run.rest == Skip(replies, |run.prompts|)
      && (run.result.Some? ==> Usable(Next(replies)))
      && (Usable(Next(replies)) ==>
            (|run.prompts| == 1 <==> ParseLocally(Next(replies).value, loads).Some?))
      && (|run.prompts| == 1 && run.result.Some? ==> run.result == ParseLocally(Next(replies).value, loads))
  {
    if Usable(Next(replies)) {
      SingleDayAsked(mealsPerDay, replies, loads);
      SingleDayLeaves(mealsPerDay, replies, loads);
      ParseRunRequests(Next(replies).value, Rest(replies), loads);
    } else {
      SkipSteps(replies, 1, 0);
    }
  }

  /** With a usable reply, the request and the repair, if any, consume one reply each. */
  lemma SingleDayLeaves(mealsPerDay: int, replies: Replies, loads: string -> Option<Json>)
    requires Usable(Next(replies))
    ensures var run := SingleDayRun(mealsPerDay, replies, loads);
      |run.prompts| <= 2 && run.rest == Skip(replies, |run.prompts|)
  {
    SingleDayAsked(mealsPerDay, replies, loads);
    ParseRunConsumes(Next(replies).value, Rest(replies), loads);
    AfterRequest(replies, ParseRun(Next(replies).value, Rest(replies), loads));
  }

  lemma SingleDayAsked(mealsPerDay: int, replies: Replies, loads: string -> Option<Json>)
    requires Usable(Next(replies))
    ensures var run := SingleDayRun(mealsPerDay, replies, loads);
      var parsed := ParseRun(Next(replies).value, Rest(replies), loads);
      run == Run(parsed.result, parsed.rest, [SingleDayPrompt(mealsPerDay)] + parsed.prompts)
  {
  }

  method GenerateSingleDayMeals(provider: Provider, mealsPerDay: int, loads: string -> Option<Json>)
    returns (r: Option<Json>)
    modifies provider
    ensures var run := SingleDayRun(mealsPerDay, old(provider.replies), loads);
      r == run.result && provider.replies == run.rest && provider.sent == old(provider.sent) + run.prompts
  {
    var response := provider.Query(SingleDayPrompt(mealsPerDay));
    if !Usable(response) {
      return None;
    }
    ghost var sent := provider.sent;
    r := ParseSimpleJsonResponse(provider, response.value, loads);
    SentGrouped(old(provider.sent), [SingleDayPrompt(mealsPerDay)], provider.sent[|sent|..]);
  }

  // ------------------------------------------------------------ basic structure

  /** `_generate_basic_meal_structure`: the seven-day plan, as a list, or the single day. */
  function BasicRun(mealsPerDay: int, replies: Replies, loads: string -> Option<Json>): Run<Option<Json>> {
    if IsMultiDay(mealsPerDay) then
      var plan := MultiDayRun(mealsPerDay, replies, loads);
      Run(if plan.result.Some? then Some(JArr(plan.result.value)) else None, plan.rest, plan.prompts)
    else SingleDayRun(mealsPerDay, replies, loads)
  }

  /**
   * The first request tells the two routes apart: the seven-day plan opens
   * with a batch of three for day 1 asking for every meal type and
   * avoiding nothing, the single day with its one request. Every run sends
   * at least one request and consumes one reply per request; the seven-day
   * plan yields a list of meals that are dicts, each with a name, a
   * hashable type and a day.
   */
  lemma BasicRoute(mealsPerDay: int, replies: Replies, loads: string -> Option<Json>)
    ensures var run := BasicRun(mealsPerDay, replies, loads);
      && run.prompts != []
      && run.rest == Skip(replies, |run.prompts|)
      && (IsMultiDay(mealsPerDay) ==>
            run.prompts[0] == BatchPrompt(BatchSize, 1, ["Breakfast", "Lunch", "Dinner", "Snack"], []))
      && (!IsMultiDay(mealsPerDay) ==> run.prompts[0] == SingleDayPrompt(mealsPerDay))
      && (IsMultiDay(mealsPerDay) && run.result.Some? ==>
            run.result.value.JArr? &&
            forall i :: 0 <= i < |run.result.value.items| ==> PlanMeal(run.result.value.items[i]))
  {
    if IsMultiDay(mealsPerDay) {
      MultiDayGathers(mealsPerDay, replies, loads);
      MultiDayOpens(mealsPerDay, replies, loads);
    } else {
      SingleDaySpec(mealsPerDay, replies, loads);
    }
  }

  /** The seven-day plan's first round on day 1 asks for a batch of three of all four types. */
  lemma MultiDayOpens(mealsPerDay: int, replies: Replies, loads: string -> Option<Json>)
    requires IsMultiDay(mealsPerDay)
    ensures var run := MultiDayRun(mealsPerDay, replies, loads);
      run.prompts != [] && run.prompts[0] == BatchPrompt(BatchSize, 1, ["Breakfast", "Lunch", "Dinner", "Snack"], [])
  {
    var batcher := Batcher(loads);
    var types := [Breakfast, Lunch, Dinner, Snack];
    var names := ["Breakfast", "Lunch", "Dinner", "Snack"];
    FirstStep(mealsPerDay);
    PlanRunBatch(batcher, mealsPerDay, 1, [], [], [], replies, BatchSize, types);
    MultiDayStart(mealsPerDay, replies, loads);
    FirstBatch(replies, loads);
    AfterBatchOpens(batcher, mealsPerDay, batcher(BatchSize, 1, names, [], replies));
  }

  /** The plan starts with the first round of day 1, nothing counted and nothing used. */
  lemma MultiDayStart(mealsPerDay: int, replies: Replies, loads: string -> Option<Json>)
    ensures MultiDayRun(mealsPerDay, replies, loads) == PlanRun(Batcher(loads), mealsPerDay, 1, [], [], [], replies)
  {
    var batcher := Batcher(loads);
    assert MultiDayRun(mealsPerDay, replies, loads) == DayPlan(batcher, mealsPerDay, 1, [], [], replies);
    assert DayPlan(batcher, mealsPerDay, 1, [], [], replies) == DayOpen(batcher, mealsPerDay, 1, [], [], replies);
  }

  /** A multi-day plan's first round asks for a full batch of all four types. */
  lemma FirstStep(mealsPerDay: int)
    requires IsMultiDay(mealsPerDay)
    ensures PlanStep(Counted([]), mealsPerDay, 0) == Batch(BatchSize, [Breakfast, Lunch, Dinner, Snack])
    ensures SlotNames([Breakfast, Lunch, Dinner, Snack]) == ["Breakfast", "Lunch", "Dinner", "Snack"]
  {
    assert Counted([]) == Zero;
    assert NeededTypes(Zero, mealsPerDay) == [Breakfast, Lunch, Dinner, Snack];
  }

  /** The first batch opens with its JSON request, with no names to avoid. */
  lemma FirstBatch(replies: Replies, loads: string -> Option<Json>)
    ensures var batch := Batcher(loads)(BatchSize, 1, ["Breakfast", "Lunch", "Dinner", "Snack"], [], replies);
      batch.prompts != [] && batch.prompts[0] == BatchPrompt(BatchSize, 1, ["Breakfast", "Lunch", "Dinner", "Snack"], [])
  {
    var names := ["Breakfast", "Lunch", "Dinner", "Snack"];
    BatchRunSpec(BatchSize, 1, names, [], replies, loads);
    assert AvoidNames([]) == [];
    assert Batcher(loads)(BatchSize, 1, names, [], replies) == BatchRun(BatchSize, 1, names, [], replies, loads);
  }

  /** The day loop sends a batch's requests before any of its own. */
  lemma AfterBatchOpens(batcher: BatchFn, mealsPerDay: int, batch: Run<Option<seq<Json>>>)
    requires 0 < PlanLimit(mealsPerDay)
    ensures var run := AfterBatch(batcher, mealsPerDay, 1, [], [], [], batch);
      batch.prompts != [] ==> run.prompts != [] && run.prompts[0] == batch.prompts[0]
  {
  }

  method GenerateBasicMealStructure(provider: Provider, mealsPerDay: int, loads: string -> Option<Json>)
    returns (r: Option<Json>)
    modifies provider
    ensures var run := BasicRun(mealsPerDay, old(provider.replies), loads);
      r == run.result && provider.replies == run.rest && provider.sent == old(provider.sent) + run.prompts
  {
    if IsMultiDay(mealsPerDay) {
      var plan := GenerateMultiDayMealsBatched(provider, mealsPerDay, loads);
      r := if plan.Some? then Some(JArr(plan.value)) else None;
    } else {
      r := GenerateSingleDayMeals(provider, mealsPerDay, loads);
    }
  }

  // ------------------------------------------------------------ recommendations

  /**
   * What `for meal in basic_meals` visits once `len(basic_meals)` has
   * been taken: the items of a list, the keys of a dict, the characters of
   * a string; `len` raises on any other value.
   */
  function Iterated(v: Json): (items: Option<seq<Json>>)
    ensures items.Some? <==> PyLen(v).Some?
    ensures items.Some? ==> Some(|items.value|) == PyLen(v)
    ensures v.JArr? ==> items == Some(v.items)
  {
    match v
    case JArr(items) => Some(items)
    case JObj(fields) => Some(seq(|fields|, i requires 0 <= i < |fields| => JStr(fields[i].0)))
    case JStr(s) => Some(seq(|s|, i requires 0 <= i < |s| => JStr([s[i]])))
    case _ => None
  }

  /**
   * `generate_meal_recommendations`: normalise the meals per day, build
   * the basic meals, stop on a falsy (or length-less) structure, add a
   * recipe to each meal, and stop on an empty result.
   */
  function RecommendationsRun(setting: Option<string>, replies: Replies, loads: string -> Option<Json>)
    : Run<Option<seq<Json>>>
  {
    RecommendFrom(BasicRun(NormalizeMealsPerDay(setting), replies, loads), loads)
  }

  /** The second step, from the outcome of the first. */
  function RecommendFrom(basic: Run<Option<Json>>, loads: string -> Option<Json>): Run<Option<seq<Json>>> {
    if basic.result.None? || !Truthy(basic.result.value) || Iterated(basic.result.value).None? then
      Run(None, basic.rest, basic.prompts)
    else
      var detailed := DetailedRecipes(Iterated(basic.result.value).value, basic.rest, loads);
      Run(if detailed.result.Some? && detailed.result.value != [] then detailed.result else None,
          detailed.rest, basic.prompts + detailed.prompts)
  }

  /**
   * Recommendations come only from a non-empty list of basic meals, every
   * one a dict with a name, and keep their number and order: the `i`-th
   * is the `i`-th basic meal with its recipe merged in. A dict, a string,
   * a number or a boolean in place of the list yields nothing, and no
   * recipe is asked for.
   */
  lemma RecommendationsSpec(setting: Option<string>, replies: Replies, loads: string -> Option<Json>)
    ensures var basic := BasicRun(NormalizeMealsPerDay(setting), replies, loads);
      var run := RecommendationsRun(setting, replies, loads);
      && (run.result.Some? ==>
            && basic.result.Some? && basic.result.value.JArr?
            && |run.result.value| == |basic.result.value.items| > 0
            && (forall i :: 0 <= i < |basic.result.value.items| ==> Named(basic.result.value.items[i]))
            && run.result == DetailedRecipes(basic.result.value.items, basic.rest, loads).result)
      && (basic.result.Some? && !basic.result.value.JArr? ==> run.result.None? && run.prompts == basic.prompts)
  {
    RecommendFromSpec(BasicRun(NormalizeMealsPerDay(setting), replies, loads), loads);
  }

  lemma RecommendFromSpec(basic: Run<Option<Json>>, loads: string -> Option<Json>)
    ensures var run := RecommendFrom(basic, loads);
      && (run.result.Some? ==>
            && basic.result.Some? && basic.result.value.JArr?
            && |run.result.value| == |basic.result.value.items| > 0
            && (forall i :: 0 <= i < |basic.result.value.items| ==> Named(basic.result.value.items[i]))
            && run.result == DetailedRecipes(basic.result.value.items, basic.rest, loads).result)
      && (basic.result.Some? && !basic.result.value.JArr? ==> run.result.None? && run.prompts == basic.prompts)
  {
    if basic.result.Some? && Truthy(basic.result.value) && Iterated(basic.result.value).Some? {
      if basic.result.value.JArr? {
        RecommendFromList(basic, loads);
      } else {
        RecommendFromOther(basic, loads);
      }
    }
  }

  /** A non-empty list of basic meals gets its recipes. */
  lemma RecommendFromList(basic: Run<Option<Json>>, loads: string -> Option<Json>)
    requires basic.result.Some? && basic.result.value.JArr? && basic.result.value.items != []
    ensures var run := RecommendFrom(basic, loads);
      var detailed := DetailedRecipes(basic.result.value.items, basic.rest, loads);
      && (run.result.Some? ==> run.result == detailed.result && |run.result.value| == |basic.result.value.items|)
      && (run.result.Some? ==> forall i :: 0 <= i < |basic.result.value.items| ==> Named(basic.result.value.items[i]))
  {
    DetailedRecipesSpec(basic.result.value.items, basic.rest, loads);
  }

  /** A dict or a string in place of the list raises on its first entry. */
  lemma RecommendFromOther(basic: Run<Option<Json>>, loads: string -> Option<Json>)
    requires basic.result.Some? && Truthy(basic.result.value) && Iterated(basic.result.value).Some?
    requires !basic.result.value.JArr?
    ensures RecommendFrom(basic, loads).result.None? && RecommendFrom(basic, loads).prompts == basic.prompts
  {
    var meals := Iterated(basic.result.value).value;
    assert !Named(meals[0]);
    assert RecipeRun(meals[0], basic.rest, loads).result.Raised?;
    SentNothing(basic.prompts);
  }

  /**
   * The route follows the normalised meals per day: the first request is a
   * batch request exactly when five or more meals a day are asked for, as
   * with the setting "5+".
   */
  lemma RecommendationsRoute(setting: Option<string>, replies: Replies, loads: string -> Option<Json>)
    ensures var run := RecommendationsRun(setting, replies, loads);
      && run.prompts != []
      && (run.prompts[0].BatchPrompt? <==> IsMultiDay(NormalizeMealsPerDay(setting)))
    ensures setting == Some("5+") ==> RecommendationsRun(setting, replies, loads).prompts[0].BatchPrompt?
  {
    BasicRoute(NormalizeMealsPerDay(setting), replies, loads);
  }

  method GenerateMealRecommendations(provider: Provider, setting: Option<string>, loads: string -> Option<Json>)
    returns (r: Option<seq<Json>>)
    modifies provider
    ensures var run := RecommendationsRun(setting, old(provider.replies), loads);
      r == run.result && provider.replies == run.rest && provider.sent == old(provider.sent) + run.prompts
  {
    var mealsPerDay := NormalizeMealsPerDay(setting);
    var basic := GenerateBasicMealStructure(provider, mealsPerDay, loads);
    if basic.None? || !Truthy(basic.value) {
      return None;
    }
    var meals := Iterated(basic.value);
    if meals.None? {
      return None;
    }
    ghost var sent := provider.sent;
    var detailed := GenerateDetailedRecipes(provider, meals.value, loads);
    SentGrouped(old(provider.sent), sent[|old(provider.sent)|..], provider.sent[|sent|..]);
    if detailed.None? || detailed.value == [] {
      return None;
    }
    return detailed;
  }

  // ------------------------------------------------------------ basic meals

  /** The stored meal-prep profile, as far as the plan depends on it. */
  datatype Profile = Profile(mealsPerDay: Option<string>)

  /** The reply of `generate_basic_meals`, less its record id and timestamp. */
  datatype BasicMeals = BasicMeals(meals: Json, step: string, totalMeals: nat)

  /**
   * `generate_basic_meals`: no profile, no structure, a falsy structure or
   * one without a length gives nothing; otherwise the structure with its
   * length.
   */
  function BasicMealsRun(profile: Option<Profile>, replies: Replies, loads: string -> Option<Json>)
    : Run<Option<BasicMeals>>
  {
    if profile.None? then Run(None, replies, [])
    else
      var basic := BasicRun(NormalizeMealsPerDay(profile.value.mealsPerDay), replies, loads);
      if basic.result.None? || !Truthy(basic.result.value) || PyLen(basic.result.value).None? then
        Run(None, basic.rest, basic.prompts)
      else
        Run(Some(BasicMeals(basic.result.value, "basic_meals", PyLen(basic.result.value).value)), basic.rest, basic.prompts)
  }

  /**
   * The reply holds exactly the basic structure the recommendations start
   * from, tagged `basic_meals`, with `total_meals` its (positive) length;
   * there is a reply exactly when the profile exists and the structure is
   * a non-empty list, dict or string.
   */
  lemma BasicMealsSpec(profile: Option<Profile>, replies: Replies, loads: string -> Option<Json>)
    ensures var run := BasicMealsRun(profile, replies, loads);
      && (profile.None? ==> run.prompts == [] && run.rest == replies)
      && (profile.Some? ==>
            var basic := BasicRun(NormalizeMealsPerDay(profile.value.mealsPerDay), replies, loads);
            && run.prompts == basic.prompts && run.rest == basic.rest
            && (run.result.Some? <==>
                  basic.result.Some? && Truthy(basic.result.value) &&
                  (basic.result.value.JArr? || basic.result.value.JObj? || basic.result.value.JStr?))
            && (run.result.Some? ==>
                  && run.result.value.meals == basic.result.value
                  && run.result.value.step == "basic_meals"
                  && run.result.value.totalMeals > 0
                  && PyLen(run.result.value.meals) == Some(run.result.value.totalMeals)))
  {
  }

  method GenerateBasicMeals(provider: Provider, profile: Option<Profile>, loads: string -> Option<Json>)
    returns (r: Option<BasicMeals>)
    modifies provider
    ensures var run := BasicMealsRun(profile, old(provider.replies), loads);
      r == run.result && provider.replies == run.rest && provider.sent == old(provider.sent) + run.prompts
  {
    if profile.None? {
      SentNothing(provider.sent);
      return None;
    }
    var basic := GenerateBasicMealStructure(provider, NormalizeMealsPerDay(profile.value.mealsPerDay), loads);
    if basic.None? || !Truthy(basic.value) {
      return None;
    }
    var total := PyLen(basic.value);
    if total.None? {
      return None;
    }
    return Some(BasicMeals(basic.value, "basic_meals", total.value));
  }

  // ------------------------------------------------------------ shopping list

  /**
   * `generate_shopping_list`: build the context (which may raise), ask
   * once, parse the reply, and keep it only if it is a list.
   */
  function ShoppingRun(meals: seq<Json>, replies: Replies, loads: string -> Option<Json>): Run<Option<seq<Json>>> {
    match ContextSpec(meals)
    case None => Run(None, replies, [])
    case Some(context) => ShoppingAsk(context, replies, loads)
  }

  /** The request for the list once the context exists, and the parse of its reply. */
  function ShoppingAsk(context: MealsContext, replies: Replies, loads: string -> Option<Json>): Run<Option<seq<Json>>> {
    var ask := ShoppingPrompt(context, context.SevenDays?);
    var reply := Next(replies);
    if !Usable(reply) then Run(None, Rest(replies), [ask])
    else
      var parsed := ParseRun(reply.value, Rest(replies), loads);
      Run(if parsed.result.Some? && parsed.result.value.JArr? then Some(parsed.result.value.items) else None,
          parsed.rest, [ask] + parsed.prompts)
  }

  /**
   * The list is asked for exactly when the context can be built, and then
   * once, for seven days exactly when some meal has a `day` key; the
   * result is the parsed reply, and only a parsed list is accepted.
   */
  lemma ShoppingListSpec(meals: seq<Json>, replies: Replies, loads: string -> Option<Json>)
    ensures var run := ShoppingRun(meals, replies, loads);
      && (run.prompts == [] <==> ContextSpec(meals).None?)
      && run.rest == Skip(replies, |run.prompts|)
      && (run.prompts != [] ==>
            && |run.prompts| <= 2
            && run.prompts[0] == ShoppingPrompt(ContextSpec(meals).value, ContextSpec(meals).value.SevenDays?)
            && (run.prompts[0].sevenDays <==> exists i :: 0 <= i < |meals| && meals[i].JObj? && HasKey(meals[i].fields, "day")))
      && (run.result.Some? ==>
            Usable(Next(replies)) &&
            ParseRun(Next(replies).value, Rest(replies), loads).result == Some(JArr(run.result.value)))
  {
    SkipSteps(replies, 0, 0);
    if ContextSpec(meals).Some? {
      ContextMode(meals);
      if Usable(Next(replies)) {
        ShoppingParsed(ContextSpec(meals).value, replies, loads);
      } else {
        SkipSteps(replies, 1, 0);
      }
    }
  }

  /** With a context and a usable reply, the list is the parse of that reply after the request. */
  lemma ShoppingParsed(context: MealsContext, replies: Replies, loads: string -> Option<Json>)
    requires Usable(Next(replies))
    ensures var run := ShoppingAsk(context, replies, loads);
      var parsed := ParseRun(Next(replies).value, Rest(replies), loads);
      && run.prompts == [ShoppingPrompt(context, context.SevenDays?)] + parsed.prompts
      && |parsed.prompts| <= 1
      && (run.result.Some? ==> parsed.result == Some(JArr(run.result.value)))
      && run.rest == Skip(replies, |run.prompts|)
  {
    ShoppingAsked(context, replies, loads);
    ParseRunConsumes(Next(replies).value, Rest(replies), loads);
    AfterRequest(replies, ParseRun(Next(replies).value, Rest(replies), loads));
  }

  /**
   * A request whose reply is parsed: the request and the repair, if any,
   * consume one reply each.
   */
  lemma AfterRequest(replies: Replies, parsed: Run<Option<Json>>)
    requires parsed.prompts == [] ==> parsed.rest == Rest(replies)
    requires parsed.prompts != [] ==> |parsed.prompts| == 1 && parsed.rest == Rest(Rest(replies))
    ensures parsed.rest == Skip(replies, 1 + |parsed.prompts|)
  {
    if parsed.prompts == [] {
      SkipOnce(replies);
    } else {
      SkipTwice(replies);
    }
  }

  lemma ShoppingAsked(context: MealsContext, replies: Replies, loads: string -> Option<Json>)
    requires Usable(Next(replies))
    ensures var run := ShoppingAsk(context, replies, loads);
      var parsed := ParseRun(Next(replies).value, Rest(replies), loads);
      && run.prompts == [ShoppingPrompt(context, context.SevenDays?)] + parsed.prompts
      && run.rest == parsed.rest
      && (run.result.Some? ==> parsed.result == Some(JArr(run.result.value)))
  {
  }

  method GenerateShoppingList(provider: Provider, meals: seq<Json>, loads: string -> Option<Json>)
    returns (r: Option<seq<Json>>)
    modifies provider
    ensures var run := ShoppingRun(meals, old(provider.replies), loads);
      r == run.result && provider.replies == run.rest && provider.sent == old(provider.sent) + run.prompts
  {
    var context := BuildContext(meals);
    if context.None? {
      SentNothing(provider.sent);
      return None;
    }
    var ask := ShoppingPrompt(context.value, context.value.SevenDays?);
    var response := provider.Query(ask);
    if !Usable(response) {
      return None;
    }
    ghost var sent := provider.sent;
    var parsed := ParseSimpleJsonResponse(provider, response.value, loads);
    SentGrouped(old(provider.sent), [ask], provider.sent[|sent|..]);
    if parsed.Some? && parsed.value.JArr? {
      return Some(parsed.value.items);
    }
    return None;
  }
}
