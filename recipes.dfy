/**
 * The second step of a recommendation, `_generate_detailed_recipes`: one
 * recipe request per basic meal, in order, and each meal overlaid with the
 * recipe it got (`{**meal, **recipe}`), or with empty `ingredients` and
 * `instructions` when the recipe failed. A meal is never dropped.
 */
module Recipes {
  import opened Wrappers
  import opened Json
  import opened Oracle
  import opened JsonReply

  /** The fields a meal gets when its recipe fails. */
  const EmptyRecipe: Dict := [("ingredients", JArr([])), ("instructions", JArr([]))]

  /**
   * How the recipe step for one meal ended: it raised (the meal is not a
   * dict, or has no `name`), it gave no usable recipe, or it fetched the
   * fields of a parsed object.
   */
  datatype Recipe = Raised | Failed | Fetched(fields: Dict)

  /**
   * `meal.get('name', 'Unknown')` and `meal['name']` both go through: the
   * meal is a dict with a name. Otherwise the step raises and the handler,
   * which formats `meal['name']` again, raises as well.
   */
  predicate Named(meal: Json) {
    meal.JObj? && HasKey(meal.fields, "name")
  }

  /** The request for the recipe of a named meal. */
  function RecipeRequest(meal: Dict): Prompt
    requires HasKey(meal, "name")
  {
    RecipePrompt(Get(meal, "name").value, GetOr(meal, "meal_type", JStr("General")),
                 GetOr(meal, "calories", JStr("Not specified")))
  }

  /**
   * `_generate_single_recipe` over the script: a meal without a name raises
   * before anything is sent; otherwise one request, and the recipe is the
   * parsed reply when that is an object.
   */
  function RecipeRun(meal: Json, replies: Replies, loads: string -> Option<Json>): (run: Run<Recipe>)
    ensures run.result.Raised? <==> !Named(meal)
    ensures run.result.Raised? ==> run.rest == replies && run.prompts == []
    ensures !run.result.Raised? ==> run.prompts != [] && run.prompts[0] == RecipeRequest(meal.fields)
    ensures run.result.Fetched? <==>
      && Named(meal) && Usable(Next(replies))
      && ParseRun(Next(replies).value, Rest(replies), loads).result.Some?
      && ParseRun(Next(replies).value, Rest(replies), loads).result.value.JObj?
    ensures run.result.Fetched? ==>
      ParseRun(Next(replies).value, Rest(replies), loads).result == Some(JObj(run.result.fields))
  {
    if !Named(meal) then Run(Raised, replies, [])
    else
      var prompt := RecipeRequest(meal.fields);
      var reply := Next(replies);
      if !Usable(reply) then Run(Failed, Rest(replies), [prompt])
      else
        var parsed := ParseRun(reply.value, Rest(replies), loads);
        Run(if parsed.result.Some? && parsed.result.value.JObj? then Fetched(parsed.result.value.fields) else Failed,
            parsed.rest, [prompt] + parsed.prompts)
  }

  method GenerateSingleRecipe(provider: Provider, meal: Json, loads: string -> Option<Json>)
    returns (r: Recipe)
    modifies provider
    ensures var run := RecipeRun(meal, old(provider.replies), loads);
      r == run.result && provider.replies == run.rest && provider.sent == old(provider.sent) + run.prompts
  {
    if !Named(meal) {
      SentNothing(provider.sent);
      return Raised;
    }
    ghost var sent0 := provider.sent;
    ghost var before := provider.replies;
    var prompt := RecipeRequest(meal.fields);
    var reply := provider.Query(prompt);
    if !Usable(reply) {
      return Failed;
    }
    ghost var parsed := ParseRun(reply.value, Rest(before), loads);
    var recipe := ParseSimpleJsonResponse(provider, reply.value, loads);
    SentGrouped(sent0, [prompt], parsed.prompts);
    if recipe.Some? && recipe.value.JObj? {
      return Fetched(recipe.value.fields);
    }
    return Failed;
  }

  // ------------------------------------------------------------ the merge

  /**
   * The detailed meal: `{**meal, **recipe}` when the recipe is a non-empty
   * dict (`if recipe_details:`), `{**meal, "ingredients": [], "instructions": []}`
   * otherwise.
   */
  function Merged(meal: Dict, recipe: Recipe): Dict {
    if recipe.Fetched? && recipe.fields != [] then Overlay(meal, recipe.fields) else Overlay(meal, EmptyRecipe)
  }

  /**
   * Every key of a detailed meal reads from the recipe when the recipe has
   * it; a failed recipe gives empty `ingredients` and `instructions`; every
   * other key keeps the meal's value.
   */
  lemma MergedGet(meal: Dict, recipe: Recipe, k: string)
    ensures Get(Merged(meal, recipe), k) ==
      if recipe.Fetched? && recipe.fields != [] then
        (if HasKey(recipe.fields, k) then Get(recipe.fields, k) else Get(meal, k))
      else if k == "ingredients" || k == "instructions" then Some(JArr([]))
      else Get(meal, k)
  {
    if recipe.Fetched? && recipe.fields != [] {
      OverlayGet(meal, recipe.fields, k);
    } else {
      OverlayGet(meal, EmptyRecipe, k);
      assert EmptyRecipe[..1] == [("ingredients", JArr([]))];
    }
  }

  /** The merge keeps every key of the meal, in its place. */
  lemma MergedKeys(meal: Dict, recipe: Recipe)
    ensures |Merged(meal, recipe)| >= |meal|
    ensures forall i :: 0 <= i < |meal| ==> Merged(meal, recipe)[i].0 == meal[i].0
  {
    if recipe.Fetched? && recipe.fields != [] {
      OverlayKeys(meal, recipe.fields);
    } else {
      OverlayKeys(meal, EmptyRecipe);
    }
  }

  /** A recipe step that did not raise. */
  predicate Settled(recipes: seq<Recipe>) {
    forall i :: 0 <= i < |recipes| ==> !recipes[i].Raised?
  }

  /** The detailed meals, one per basic meal, in the same order. */
  function MergeAll(meals: seq<Json>, recipes: seq<Recipe>): (ds: seq<Json>)
    requires |recipes| == |meals| && forall i :: 0 <= i < |meals| ==> meals[i].JObj?
    ensures |ds| == |meals|
    ensures forall i :: 0 <= i < |meals| ==> ds[i] == JObj(Merged(meals[i].fields, recipes[i]))
  {
    seq(|meals|, i requires 0 <= i < |meals| => JObj(Merged(meals[i].fields, recipes[i])))
  }

  // ------------------------------------------------------------ all meals

  /**
   * The recipe steps for `meals`, in order over the script: `None` as soon
   * as one raises.
   */
  function RecipesRun(meals: seq<Json>, replies: Replies, loads: string -> Option<Json>)
    : (run: Run<Option<seq<Recipe>>>)
    ensures run.result.Some? <==> forall i :: 0 <= i < |meals| ==> Named(meals[i])
    ensures run.result.Some? ==> |run.result.value| == |meals| && Settled(run.result.value)
    decreases |meals|
  {
    if meals == [] then Run(Some([]), replies, [])
    else
      var one := RecipeRun(meals[0], replies, loads);
      if one.result.Raised? then Run(None, one.rest, one.prompts)
      else
        var more := RecipesRun(meals[1..], one.rest, loads);
        Run(if more.result.Some? then Some([one.result] + more.result.value) else None,
            more.rest, one.prompts + more.prompts)
  }

  /** `_generate_detailed_recipes` over the script. */
  function DetailedRecipes(meals: seq<Json>, replies: Replies, loads: string -> Option<Json>): Run<Option<seq<Json>>> {
    var run := RecipesRun(meals, replies, loads);
    Run(if run.result.Some? then Some(MergeAll(meals, run.result.value)) else None, run.rest, run.prompts)
  }

  /**
   * The detailed meals keep the number and order of the basic meals: the
   * `i`-th is the `i`-th basic meal overlaid by its recipe, or given empty
   * `ingredients` and `instructions`. The step fails only when some meal
   * is not a dict or has no name.
   */
  lemma DetailedRecipesSpec(meals: seq<Json>, replies: Replies, loads: string -> Option<Json>)
    ensures var run := DetailedRecipes(meals, replies, loads);
      && (run.result.Some? <==> forall i :: 0 <= i < |meals| ==> Named(meals[i]))
      && (run.result.Some? ==> |run.result.value| == |meals|)
      && (run.result.Some? ==> forall i, k :: 0 <= i < |meals| ==>
            run.result.value[i].JObj? &&
            Get(run.result.value[i].fields, k) ==
              (var recipe := RecipesRun(meals, replies, loads).result.value[i];
               if recipe.Fetched? && recipe.fields != [] then
                 (if HasKey(recipe.fields, k) then Get(recipe.fields, k) else Get(meals[i].fields, k))
               else if k == "ingredients" || k == "instructions" then Some(JArr([]))
               else Get(meals[i].fields, k)))
  {
    var run := RecipesRun(meals, replies, loads);
    if run.result.Some? {
      forall i, k | 0 <= i < |meals|
        ensures Get(JObj(Merged(meals[i].fields, run.result.value[i])).fields, k) ==
          (var recipe := run.result.value[i];
           if recipe.Fetched? && recipe.fields != [] then
             (if HasKey(recipe.fields, k) then Get(recipe.fields, k) else Get(meals[i].fields, k))
           else if k == "ingredients" || k == "instructions" then Some(JArr([]))
           else Get(meals[i].fields, k))
      {
        MergedGet(meals[i].fields, run.result.value[i], k);
      }
    }
  }

  /** Dropping the first `i + 1` meals is dropping the first `i`, then one more. */
  lemma RecipesRunStep(meals: seq<Json>, i: nat, replies: Replies, loads: string -> Option<Json>)
    requires i < |meals|
    ensures var one := RecipeRun(meals[i], replies, loads);
      RecipesRun(meals[i..], replies, loads) ==
        if one.result.Raised? then Run(None, one.rest, one.prompts)
        else
          var more := RecipesRun(meals[i + 1..], one.rest, loads);
          Run(if more.result.Some? then Some([one.result] + more.result.value) else None,
              more.rest, one.prompts + more.prompts)
  {
    assert meals[i..][0] == meals[i];
    assert meals[i..][1..] == meals[i + 1..];
  }

  lemma NothingBefore<T>(s: seq<T>)
    ensures [] + s == s
    ensures s + [] == s
  {
  }

  lemma Regrouped<T>(a: seq<T>, x: T, b: seq<T>)
    ensures a + [x] + b == a + ([x] + b)
  {
  }

  /** One more detailed meal: the merge of the next basic meal. */
  lemma MergeAllSnoc(meals: seq<Json>, recipes: seq<Recipe>, i: nat, one: Recipe)
    requires i < |meals| && |recipes| == i
    requires forall j :: 0 <= j <= i ==> meals[j].JObj?
    ensures meals[..i + 1] == meals[..i] + [meals[i]]
    ensures MergeAll(meals[..i + 1], recipes + [one]) ==
      MergeAll(meals[..i], recipes) + [JObj(Merged(meals[i].fields, one))]
  {
    assert meals[..i + 1] == meals[..i] + [meals[i]];
  }

  /**
   * The recipe steps for all meals, started with `sent0` in the log, have
   * come as far as the log `sent` with `recipes` gathered: what remains is
   * `tail`.
   */
  ghost predicate RecipesLeft(whole: Run<Option<seq<Recipe>>>, sent0: seq<Prompt>, sent: seq<Prompt>,
                              recipes: seq<Recipe>, tail: Run<Option<seq<Recipe>>>) {
    && whole.rest == tail.rest
    && sent0 + whole.prompts == sent + tail.prompts
    && whole.result == (if tail.result.Some? then Some(recipes + tail.result.value) else None)
  }

  /** The step for meal `i` that did not raise moves the remaining steps one meal on. */
  lemma RecipesAdvance(meals: seq<Json>, i: nat, replies: Replies, loads: string -> Option<Json>,
                       whole: Run<Option<seq<Recipe>>>, sent0: seq<Prompt>, sent: seq<Prompt>, recipes: seq<Recipe>)
    requires i < |meals|
    requires RecipesLeft(whole, sent0, sent, recipes, RecipesRun(meals[i..], replies, loads))
    requires !RecipeRun(meals[i], replies, loads).result.Raised?
    ensures var one := RecipeRun(meals[i], replies, loads);
      RecipesLeft(whole, sent0, sent + one.prompts, recipes + [one.result], RecipesRun(meals[i + 1..], one.rest, loads))
  {
    var one := RecipeRun(meals[i], replies, loads);
    var more := RecipesRun(meals[i + 1..], one.rest, loads);
    RecipesRunStep(meals, i, replies, loads);
    SentGrouped(sent, one.prompts, more.prompts);
    if more.result.Some? {
      Regrouped(recipes, one.result, more.result.value);
    }
  }

  /** The step for meal `i` that raised ends the recipe steps with nothing more sent. */
  lemma RecipesStop(meals: seq<Json>, i: nat, replies: Replies, loads: string -> Option<Json>,
                    whole: Run<Option<seq<Recipe>>>, sent0: seq<Prompt>, sent: seq<Prompt>, recipes: seq<Recipe>)
    requires i < |meals|
    requires RecipesLeft(whole, sent0, sent, recipes, RecipesRun(meals[i..], replies, loads))
    requires RecipeRun(meals[i], replies, loads).result.Raised?
    ensures whole.result.None? && whole.rest == replies && sent0 + whole.prompts == sent
  {
    RecipesRunStep(meals, i, replies, loads);
    SentNothing(sent);
  }

  /**
   * The loop of `_generate_detailed_recipes` after `i` meals: those meals
   * all have names, their recipes are `recipes`, `detailed` holds them
   * merged, and the remaining steps are what the whole run has left.
   */
  ghost predicate Progress(meals: seq<Json>, loads: string -> Option<Json>, whole: Run<Option<seq<Recipe>>>,
                           sent0: seq<Prompt>, sent: seq<Prompt>, replies: Replies,
                           i: nat, recipes: seq<Recipe>, detailed: seq<Json>) {
    && i <= |meals|
    && |recipes| == i && Settled(recipes)
    && (forall j :: 0 <= j < i ==> Named(meals[j]))
    && detailed == MergeAll(meals[..i], recipes)
    && RecipesLeft(whole, sent0, sent, recipes, RecipesRun(meals[i..], replies, loads))
  }

  /** A recipe step for meal `i` that did not raise keeps the loop's progress. */
  lemma ProgressAdvance(meals: seq<Json>, loads: string -> Option<Json>, whole: Run<Option<seq<Recipe>>>,
                        sent0: seq<Prompt>, sent: seq<Prompt>, replies: Replies,
                        i: nat, recipes: seq<Recipe>, detailed: seq<Json>)
    requires Progress(meals, loads, whole, sent0, sent, replies, i, recipes, detailed)
    requires i < |meals| && !RecipeRun(meals[i], replies, loads).result.Raised?
    ensures var one := RecipeRun(meals[i], replies, loads);
      && meals[i].JObj?
      && Progress(meals, loads, whole, sent0, sent + one.prompts, one.rest, i + 1, recipes + [one.result],
                  detailed + [JObj(Merged(meals[i].fields, one.result))])
  {
    var one := RecipeRun(meals[i], replies, loads);
    RecipesAdvance(meals, i, replies, loads, whole, sent0, sent, recipes);
    MergeAllSnoc(meals, recipes, i, one.result);
  }

  method GenerateDetailedRecipes(provider: Provider, meals: seq<Json>, loads: string -> Option<Json>)
    returns (r: Option<seq<Json>>)
    modifies provider
    ensures var run := DetailedRecipes(meals, old(provider.replies), loads);
      r == run.result && provider.replies == run.rest && provider.sent == old(provider.sent) + run.prompts
  {
    ghost var whole := RecipesRun(meals, provider.replies, loads);
    ghost var sent0 := provider.sent;
    ghost var recipes: seq<Recipe> := [];
    var detailed: seq<Json> := [];
    var i := 0;
    assert meals[0..] == meals;
    SentNothing(sent0);
    if whole.result.Some? {
      NothingBefore(whole.result.value);
    }
    while i < |meals|
      invariant Progress(meals, loads, whole, sent0, provider.sent, provider.replies, i, recipes, detailed)
    {
      var meal := meals[i];
      ghost var before := provider.replies;
      ghost var sentBefore := provider.sent;
      var one := GenerateSingleRecipe(provider, meal, loads);
      if one.Raised? {
        RecipesStop(meals, i, before, loads, whole, sent0, sentBefore, recipes);
        return None;
      }
      ProgressAdvance(meals, loads, whole, sent0, sentBefore, before, i, recipes, detailed);
      detailed := detailed + [JObj(Merged(meal.fields, one))];
      recipes := recipes + [one];
      i := i + 1;
    }
    assert meals[..i] == meals;
    NothingBefore(recipes);
    SentNothing(provider.sent);
    return Some(detailed);
  }
}
