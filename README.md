# CalorIA meal-prep assistant — a Dafny model

CalorIA is a calorie and meal tracker. Its assistant plans meals with a
language model. It reads the profile's meals-per-day setting, then either
asks for a single day at once or builds a seven-day plan in batches of at
most three meals. For each basic meal it asks for a recipe, and it asks
for a shopping list for the meals. Every model reply passes through a
tolerant JSON reader: strip code fences, try `json.loads`, fall back to a
greedy bracket search with trailing-comma repair, and finally ask the
model to repair its own reply. When a batch does not come back as JSON,
the plan falls back to a pipe-separated line format.

This project models that pipeline and the value logic of the record types
(weight and water conversions, meal and day totals, the water goal, the
field validators). It proves what each step promises.

Layout, one module per file:

| module | file | what it holds |
|---|---|---|
| `Wrappers` | wrappers.dfy | `Option` |
| `Text` | text.dfy | `strip`, `split`, `lower`, `int()` on strings |
| `Json` | json.dfy | parsed JSON values, dicts as ordered key lists, `len`, truthiness, dict update and `{**a, **b}` |
| `Shopping` | shopping.dfy | the multi-day test, grouping meals by day and type, the seven-day listing and the single-day names |
| `Oracle` | oracle.dfy | the language model as a scripted `Provider`: each query consumes the next scripted reply and is logged |
| `ResponseText` | response_text.dfy | fence stripping, the greedy `[...]`/`{...}` search, the trailing-comma repair, truncation for repair, the local parse |
| `JsonReply` | json_reply.dfy | `_parse_simple_json_response` and `_repair_json_with_ai` |
| `MealPlan` | meal_plan.dfy | meals-per-day normalisation, the per-day type counters, the needed types and the batch size |
| `MealLines` | meal_lines.dfy | the `name\|calories\|…\|tags` fallback format and its parser |
| `MealBatches` | meal_batches.dfy | one batch: the JSON request, day tagging, the fallback request |
| `MultiDay` | multi_day.dfy | the seven-day batched loop |
| `Recipes` | recipes.dfy | one recipe, and the recipe step over all meals with the merge |
| `Pipeline` | pipeline.dfy | the single-day request, the basic structure, the recommendations, the basic-meals reply, the shopping list |
| `Nutrition` | nutrition.dfy | the value logic of the record types |

Each assistant operation comes in two forms:

- A function `…Run(…, replies, loads)` over the provider's script. It
  returns the result, the replies left over and the prompts sent.
- A method that performs the same steps against a `Provider` object. Its
  `ensures` ties the result and the provider's new state to that
  function.

The lemmas then state the operation's properties in terms of the
function. The loops of the source are methods with loop invariants: the
seven-day loop, the recipe loop, the fallback line loop, the day tagging,
the grouping and the seven-day listing.

Two behaviours of the code are easy to miss:

- The code keeps whatever `day` a reply's dict holds. It adds the current
  day only to a dict that has none (ai_assistant.py lines 332-334), so a
  seven-day plan may hold days outside 1 to 7. `MealBatches.DayTagged`
  does the same.
- A meal without a name does not get the empty-recipe fallback. It makes
  the whole recipe step fail, because the prompt and the exception handler
  of `_generate_single_recipe` both read `meal['name']`. `Recipes.RecipeRun`
  models this as `Raised`.

## Model

| member | source | states |
|---|---|---|
| Text.Trim | CalorIA/mixins/modules/ai_assistant.py:531 | the stripped text has no whitespace at either end and is no longer than the input |
| Text.TrimPadded | CalorIA/mixins/modules/ai_assistant.py:541 | stripping whitespace from around text that has no edge whitespace gives back exactly that text |
| Text.Split | CalorIA/mixins/modules/ai_assistant.py:378 | `split(sep)` gives one piece more than there are separators; no piece holds the separator; joining the pieces with it gives back the input |
| Text.SplitJoin | CalorIA/mixins/modules/ai_assistant.py:382-383 | splitting a join of separator-free pieces gives back the pieces, so `split` and `join` are inverse |
| Text.Lower | CalorIA/mixins/modules/ai_assistant.py:272 | lower-casing keeps the length and maps each character on its own |
| Text.ParseInt | CalorIA/mixins/modules/ai_assistant.py:154-158 | Python's `int()` on text, with the round trip, the whitespace rule and the refusal of non-numbers stated by Text.ParseIntRoundTrip, Text.StripBeforeInt and Text.ParseRejectsNonDigit |
| Text.StripBeforeInt | CalorIA/mixins/modules/ai_assistant.py:390-394 | `int(part.strip())` is `int(part)`: `int` ignores the same surrounding whitespace |
| Text.ParseIntRoundTrip | CalorIA/mixins/modules/ai_assistant.py:390-394 | `int()` reads every printed integer back as itself, negative ones included |
| Text.ParseRejectsNonDigit | CalorIA/mixins/modules/ai_assistant.py:155-158 | text that starts with neither an ASCII digit nor a sign is refused by the model's `int()` (non-ASCII digits: see Left out) |
| ResponseText.DropPrefix | CalorIA/mixins/modules/ai_assistant.py:534-537 | a prefix is removed exactly when the text starts with it; otherwise the text is unchanged |
| ResponseText.DropSuffix | CalorIA/mixins/modules/ai_assistant.py:538-539 | a suffix is removed exactly when the text ends with it; otherwise the text is unchanged |
| ResponseText.StripFences | CalorIA/mixins/modules/ai_assistant.py:530-541 | the cleaned reply has no whitespace at either end and is no longer than the reply |
| ResponseText.StripFencesUnfenced | CalorIA/mixins/modules/ai_assistant.py:530-541 | a reply with no fence at either end is only stripped |
| ResponseText.StripFencesRoundTrip | CalorIA/mixins/modules/ai_assistant.py:530-541 | a bracketed value inside a ```` ```json ```` fence, with any whitespace around it, is cleaned to exactly that value; the value on its own is left unchanged |
| ResponseText.GreedySpanSpec | CalorIA/mixins/modules/ai_assistant.py:548-556 | the greedy DOTALL search matches exactly when an opening bracket comes before a closing one; the match is a slice of the text, with no opening bracket before it and no closing bracket after it |
| ResponseText.DropCommasEssential | CalorIA/mixins/modules/ai_assistant.py:558 | one trailing-comma pass removes only commas and whitespace: every other character survives, in order |
| ResponseText.RepairKeepsEssential | CalorIA/mixins/modules/ai_assistant.py:558-560 | the three `re.sub` passes together keep every character that is neither a comma nor whitespace, in order |
| ResponseText.RepairKeepsSafeText | CalorIA/mixins/modules/ai_assistant.py:558-560 | text in which every comma is followed, after any whitespace, by something other than a closing bracket is left unchanged |
| ResponseText.RepairDropsTrailingComma | CalorIA/mixins/modules/ai_assistant.py:558-560 | a comma followed by whitespace and a closing bracket is removed, keeping the whitespace; the rest of the text is untouched |
| ResponseText.TruncateForRepair | CalorIA/mixins/modules/ai_assistant.py:589 | the text sent for repair is a prefix of the reply of at most 2000 characters, and it is the whole reply when that is no longer |
| ResponseText.ParseFencedAsUnfenced | CalorIA/mixins/modules/ai_assistant.py:530-545 | a fenced reply parses as the bracketed value inside the fence, and as its `json.loads` value when that succeeds |
| ResponseText.ParseLocally | CalorIA/mixins/modules/ai_assistant.py:544-567 | the local attempts in the source's order: the whole cleaned text, then the repaired array span, then the repaired object span; its properties are stated by ResponseText.ParseLocallyByText, ResponseText.ParseFencedAsUnfenced and ResponseText.ParseToleratesTrailingComma |
| ResponseText.ParseLocallyByText | CalorIA/mixins/modules/ai_assistant.py:527-567 | the local parse depends only on the cleaned text, and is `json.loads` of it whenever that succeeds |
| ResponseText.ParseToleratesTrailingComma | CalorIA/mixins/modules/ai_assistant.py:544-563 | an array that `json.loads` refuses only because of a trailing comma is read as the value of the repaired array |
| ResponseText.GreedySpanWhole | CalorIA/mixins/modules/ai_assistant.py:554-556 | text that opens with the opening bracket and ends with the closing one is matched whole |
| JsonReply.RepairJsonWithAi | CalorIA/mixins/modules/ai_assistant.py:585-635 | exactly one request is sent, carrying the reply cut to 2000 characters; the answer, with its fences removed, is read with `json.loads`; no answer gives nothing |
| JsonReply.RepairReadsFencedAnswer | CalorIA/mixins/modules/ai_assistant.py:615-627 | a repaired answer returned inside a ```` ```json ```` fence is read as the stripped text inside the fence |
| JsonReply.ParseSimpleJsonResponse | CalorIA/mixins/modules/ai_assistant.py:527-583 | the method returns the result of the script-level parse, consumes that parse's replies and sends that parse's prompts |
| JsonReply.ParseRunRequests | CalorIA/mixins/modules/ai_assistant.py:544-579 | the model is asked at most once, exactly when every local attempt fails; the request carries a prefix of the cleaned reply of at most 2000 characters |
| JsonReply.ParseRunResult | CalorIA/mixins/modules/ai_assistant.py:572-579 | a result is either the local parse or a truthy value read from the repair answer; a falsy value can only come from the local parse |
| JsonReply.FencedReplyParsesLocally | CalorIA/mixins/modules/ai_assistant.py:530-545 | a well-formed value inside a fence is returned without asking the model again |
| Json.PyLen | CalorIA/mixins/modules/ai_assistant.py:182-185 | `len` is defined exactly on strings, lists and dicts, and is positive exactly when the value is truthy |
| Json.Set | CalorIA/mixins/modules/ai_assistant.py:333-334 | after `d[k] = v`, `k` reads `v` and every other key reads as before; existing keys keep their order; a new key goes last |
| Json.OverlayGet | CalorIA/mixins/modules/ai_assistant.py:467 | in `{**meal, **recipe}` a key reads the recipe's value when the recipe has the key, and the meal's otherwise |
| Json.OverlayKeys | CalorIA/mixins/modules/ai_assistant.py:467 | `{**meal, **recipe}` keeps the meal's keys first and in order; every key after them comes from the recipe |
| MealPlan.NormalizeMealsPerDay | CalorIA/mixins/modules/ai_assistant.py:150-158 | "5+" reads as 5; any other setting that `int()` reads gives that integer, and any other setting that `int()` refuses gives 3 |
| MealPlan.DefaultIsThree | CalorIA/mixins/modules/ai_assistant.py:150-159 | a missing or empty setting gives three meals and a single-day plan |
| MealPlan.NormalizeDecimal | CalorIA/mixins/modules/ai_assistant.py:150-159 | a setting that is a printed integer `n` reads as `n`, and the plan is multi-day exactly when `n >= 5` |
| MealPlan.PlusIsFive | CalorIA/mixins/modules/ai_assistant.py:152-159 | "5+" gives a five-meal, multi-day plan; the word "many" gives three meals |
| MealPlan.WordIsThree | CalorIA/mixins/modules/ai_assistant.py:152-159 | a setting that starts with neither a sign nor an ASCII digit, such as a word, gives three meals and a single-day plan |
| MealPlan.Tally.Bump | CalorIA/mixins/modules/ai_assistant.py:270-271 | counting a meal of one type raises that type's counter and the day total by one and leaves the other types alone |
| MealPlan.NeededTypes | CalorIA/mixins/modules/ai_assistant.py:241-249 | a main type is needed exactly when none of it was generated that day; a snack is needed exactly when more than three meals a day are set and fewer than the extra ones were generated; the types are listed in the fixed order |
| MealPlan.PlanStep | CalorIA/mixins/modules/ai_assistant.py:239-255 | another batch is asked exactly while the day lacks meals, the plan is under its overall limit and some type is needed; its size is between 1 and 3, at most the needed types and at most what the day lacks, and equal to one of those three bounds |
| MealPlan.SlotOf | CalorIA/mixins/modules/ai_assistant.py:269-270 | a meal type is counted exactly when it is one of the four type names, and under that type |
| MealPlan.CountedSnoc | CalorIA/mixins/modules/ai_assistant.py:265-274 | the counters after one more meal are the earlier counters with that meal recorded |
| MealPlan.CountedTotal | CalorIA/mixins/modules/ai_assistant.py:237 | the day total counts at most the meals generated, and all of them exactly when each has one of the four types |
| MealLines.KeepTags | CalorIA/mixins/modules/ai_assistant.py:397 | at most one tag per piece, and no tag is empty |
| MealLines.KeepTagsFromPieces | CalorIA/mixins/modules/ai_assistant.py:397 | every kept tag is one of the pieces, stripped |
| MealLines.KeepTagsKeepsAll | CalorIA/mixins/modules/ai_assistant.py:397 | every piece that is not blank once stripped is kept |
| MealLines.ParseLine | CalorIA/mixins/modules/ai_assistant.py:380-384 | a line is accepted only when, stripped, it holds `\|` and splits into at least eight fields; the meal's name is the first field, stripped |
| MealLines.ParseFieldsSpec | CalorIA/mixins/modules/ai_assistant.py:385-400 | fields are accepted exactly when fields 1 to 5 read as integers; the meal's numbers are then those integers, in order |
| MealLines.MealRecord | CalorIA/mixins/modules/ai_assistant.py:386-398 | the meal dict has the source's eleven keys in the source's order |
| MealLines.MealRecordFields | CalorIA/mixins/modules/ai_assistant.py:387-396 | the meal dict reads the line's name, the requested type, the day and one serving |
| MealLines.PySliceTo | CalorIA/mixins/modules/ai_assistant.py:380 | `lines[:n]` is a prefix of the lines, of length `n` capped at the line count, with Python's meaning for a negative `n` |
| MealLines.ParsedMeals | CalorIA/mixins/modules/ai_assistant.py:380-402 | at most one meal comes from each line, and every meal carries the requested type, the day and one serving |
| MealLines.FallbackMeals | CalorIA/mixins/modules/ai_assistant.py:377-402 | a fallback reply yields at most the requested number of meals |
| MealLines.TagsRoundTrip | CalorIA/mixins/modules/ai_assistant.py:397 | tags joined with commas are read back as the same tags, and the joined field holds no `\|` |
| MealLines.ParseFormattedLine | CalorIA/mixins/modules/ai_assistant.py:363-398 | a meal written in the prompt's `name\|calories\|…\|tags` format is parsed back to itself: the format and the parser are inverse |
| MealLines.ExampleParses | CalorIA/mixins/modules/ai_assistant.py:365 | the prompt's own example line parses as the meal it describes and yields one meal record |
| MealBatches.DayTagged | CalorIA/mixins/modules/ai_assistant.py:332-334 | a dict keeps the day it has and otherwise gets the current day; other elements pass when `'day' in` them holds, and raise otherwise |
| MealBatches.DayTaggedKeeps | CalorIA/mixins/modules/ai_assistant.py:333-334 | tagging a dict changes no key other than `day` |
| MealBatches.TaggedBatch | CalorIA/mixins/modules/ai_assistant.py:332-335 | the batch is tagged exactly when no element raises, and is then the elements tagged one by one, in order |
| MealBatches.TagDays | CalorIA/mixins/modules/ai_assistant.py:332-335 | the tagging loop computes the tagged batch |
| MealBatches.TaggedDicts | CalorIA/mixins/modules/ai_assistant.py:332-335 | after tagging, every dict of the batch has a `day` key |
| MealBatches.AvoidNames | CalorIA/mixins/modules/ai_assistant.py:293 | the names to avoid are the first ten used names, or all of them when there are at most ten |
| MealBatches.FallbackRunSpec | CalorIA/mixins/modules/ai_assistant.py:352-409 | the fallback sends one request for the first needed type and consumes one reply; any meals it returns are between one and the requested number, each of that type, that day and one serving; the result is exactly the meals of the reply's accepted lines, and nothing when there is no reply or no line is accepted |
| MealBatches.GenerateMealBatchFallback | CalorIA/mixins/modules/ai_assistant.py:352-413 | the method returns the fallback's result and leaves the provider as the fallback run says |
| MealBatches.ParseFallbackLines | CalorIA/mixins/modules/ai_assistant.py:377-402 | the line loop collects exactly the meals of the accepted lines, in order |
| MealBatches.BatchRun | CalorIA/mixins/modules/ai_assistant.py:287-350 | `_generate_meal_batch` over the script; a returned batch is never empty, and MealBatches.BatchRunSpec states its requests and outcomes |
| MealBatches.BatchRunSpec | CalorIA/mixins/modules/ai_assistant.py:287-346 | a batch first asks for its size, day, needed types and first ten used names, then sends at most two more requests and consumes one reply per request; every dict it returns carries a day; no reply gives nothing without a fallback; a non-empty list is tagged with the day; any other parse result is followed by the pipe-format request for the primary type, whose meals are the result |
| MealBatches.FallbackHasDays | CalorIA/mixins/modules/ai_assistant.py:386-389 | every meal the fallback returns carries a day |
| MealBatches.GenerateMealBatch | CalorIA/mixins/modules/ai_assistant.py:287-350 | the method returns the batch's result and leaves the provider as the batch run says |
| MultiDay.AddUsed | CalorIA/mixins/modules/ai_assistant.py:272 | adding a name to the used names adds exactly that name and keeps them free of duplicates |
| MultiDay.UsedAfterNames | CalorIA/mixins/modules/ai_assistant.py:268-272 | after a batch, a name is used exactly when it was used before or is the lower-cased name of a meal of the batch |
| MultiDay.RecordBatch | CalorIA/mixins/modules/ai_assistant.py:265-274 | the bookkeeping succeeds exactly when every meal of the batch can be recorded, and then the counters count the day's meals so far and the used names are those after the batch |
| MultiDay.MultiDayRun | CalorIA/mixins/modules/ai_assistant.py:217-285 | the seven-day plan from day 1 with no meals and no used names; MultiDay.MultiDayGathers and Pipeline.MultiDayOpens state its properties |
| MultiDay.MultiDayGathers | CalorIA/mixins/modules/ai_assistant.py:217-281 | the seven-day plan consumes one reply per request, and every meal it returns was recorded by the bookkeeping and carries a day |
| MultiDay.BatchRound | CalorIA/mixins/modules/ai_assistant.py:239-278 | one round of the day loop either records a batch, so that the plan lacks fewer meals, or stops or raises with the meals and used names unchanged; the counters always count the day's meals |
| MultiDay.GenerateDay | CalorIA/mixins/modules/ai_assistant.py:232-278 | the day loop performs the day's part of the plan function |
| MultiDay.GenerateMultiDayMealsBatched | CalorIA/mixins/modules/ai_assistant.py:217-285 | the method returns the seven-day plan's result and leaves the provider as the plan run says |
| Recipes.RecipeRun | CalorIA/mixins/modules/ai_assistant.py:489-525 | a meal that is not a dict with a name raises before any request; otherwise the first request is that meal's recipe request; the recipe is fetched exactly when a reply came and its parse is a dict, and it is then that dict; no reply or a non-dict parse gives no recipe |
| Recipes.GenerateSingleRecipe | CalorIA/mixins/modules/ai_assistant.py:489-525 | the method returns the recipe step's result and leaves the provider as the recipe run says |
| Recipes.Merged | CalorIA/mixins/modules/ai_assistant.py:465-477 | `{**meal, **recipe}` for a non-empty recipe, and the meal with empty `ingredients` and `instructions` otherwise; Recipes.MergedGet states every key's value |
| Recipes.MergedGet | CalorIA/mixins/modules/ai_assistant.py:464-477 | with a non-empty recipe, a merged meal reads the recipe's value for each key the recipe has; without one it reads empty ingredients and instructions; every other key reads the meal's own value |
| Recipes.MergeAll | CalorIA/mixins/modules/ai_assistant.py:459-477 | one merged dict per meal, in order, each the meal merged with its recipe |
| Recipes.RecipesRun | CalorIA/mixins/modules/ai_assistant.py:459-481 | the recipe step succeeds exactly when every meal is a dict with a name, and then yields one settled recipe per meal |
| Recipes.DetailedRecipesSpec | CalorIA/mixins/modules/ai_assistant.py:452-487 | detailed meals exist exactly when every meal has a name; there is one per meal, and each key reads the recipe's value, empty ingredients and instructions when no non-empty recipe came back, or the meal's own value |
| Recipes.GenerateDetailedRecipes | CalorIA/mixins/modules/ai_assistant.py:452-487 | the loop returns the recipe step's result and leaves the provider as the recipe run says |
| Shopping.AnyHasDaySpec | CalorIA/mixins/modules/ai_assistant.py:819 | the plan is multi-day exactly when some meal has a `day`, no earlier meal raising; it is single-day exactly when none has one |
| Shopping.AnyHasDayOfObjects | CalorIA/mixins/modules/ai_assistant.py:819 | for a list of dicts, the plan is multi-day exactly when some dict has a `day` key |
| Shopping.GroupSpec | CalorIA/mixins/modules/ai_assistant.py:823-831 | the `days_meals` grouping; Shopping.GroupSpecDefined, Shopping.GroupedNames, Shopping.GroupedDays and Shopping.GroupSpecWellKeyed state when it succeeds and what it holds |
| Shopping.GroupSpecDefined | CalorIA/mixins/modules/ai_assistant.py:824-831 | grouping succeeds exactly when every meal can be grouped: a dict with a name and with a hashable day and type |
| Shopping.GroupMeals | CalorIA/mixins/modules/ai_assistant.py:821-831 | the grouping loop computes the grouping |
| Shopping.GroupedNames | CalorIA/mixins/modules/ai_assistant.py:824-831 | under a day and a type the grouping lists exactly the names of the meals of that day and type, in the order the meals came |
| Shopping.GroupedDays | CalorIA/mixins/modules/ai_assistant.py:824-831 | a day has a group exactly when some meal is of that day |
| Shopping.GroupSpecWellKeyed | CalorIA/mixins/modules/ai_assistant.py:827-830 | no day and no type within a day is listed twice, and every listed type has a name |
| Shopping.Blocks | CalorIA/mixins/modules/ai_assistant.py:833-839 | the listing of days 1 to 7; Shopping.BlocksSpec and Shopping.BlocksFail state what it shows and when it raises |
| Shopping.BlocksSpec | CalorIA/mixins/modules/ai_assistant.py:833-839 | the listing shows days 1 to 7 in increasing order; a day is shown exactly when it has a group, and under it that day's types with their names |
| Shopping.ListDays | CalorIA/mixins/modules/ai_assistant.py:833-839 | the listing loop computes the seven-day listing |
| Shopping.BlocksFail | CalorIA/mixins/modules/ai_assistant.py:837-838 | a listed day whose names cannot be joined makes the whole listing raise |
| Shopping.SingleDayNames | CalorIA/mixins/modules/ai_assistant.py:840-842 | the single-day listing exists exactly when every meal is a dict with a name, and lists those names in order |
| Shopping.BuildContext | CalorIA/mixins/modules/ai_assistant.py:818-842 | the method computes the meals context, in the source's order of steps |
| Shopping.ContextMode | CalorIA/mixins/modules/ai_assistant.py:819-842 | once a context exists every meal is a dict, and the context is the seven-day one exactly when some meal has a `day` |
| Shopping.SevenDayContext | CalorIA/mixins/modules/ai_assistant.py:819-839 | the seven-day context lists days in increasing order, each of days 1 to 7 exactly when some meal is of it, and under each type the names of that day's meals of that type, in order |
| Pipeline.SingleDaySpec | CalorIA/mixins/modules/ai_assistant.py:415-450 | the single day sends its request, and at most one repair request, consuming one reply per request; a result needs a reply, and is that reply's local parse when no repair was asked |
| Pipeline.GenerateSingleDayMeals | CalorIA/mixins/modules/ai_assistant.py:415-450 | the method returns the single-day result and leaves the provider as the single-day run says |
| Pipeline.BasicRoute | CalorIA/mixins/modules/ai_assistant.py:202-215 | the first request is a batch request exactly for a multi-day plan, and the single-day request otherwise; replies are consumed one per request; a multi-day result is a list of recorded meals with days |
| Pipeline.MultiDayOpens | CalorIA/mixins/modules/ai_assistant.py:226-263 | a multi-day plan opens with a batch of three for day 1, asking for breakfast, lunch, dinner and snack, with no names to avoid |
| Pipeline.GenerateBasicMealStructure | CalorIA/mixins/modules/ai_assistant.py:202-215 | the method returns the basic structure's result and leaves the provider as that run says |
| Pipeline.Iterated | CalorIA/mixins/modules/ai_assistant.py:459 | `enumerate` succeeds exactly on the values `len` is defined on, and yields that many items |
| Pipeline.RecommendationsSpec | CalorIA/mixins/modules/ai_assistant.py:146-200 | recommendations exist only when the basic structure is a non-empty list whose meals all have names; they are then its detailed meals, one per meal; a basic result that is not a list ends the step with no further request |
| Pipeline.RecommendationsRoute | CalorIA/mixins/modules/ai_assistant.py:149-181 | the first request is a batch request exactly when the normalised setting asks for a multi-day plan, so "5+" starts a batched plan |
| Pipeline.GenerateMealRecommendations | CalorIA/mixins/modules/ai_assistant.py:146-200 | the method returns the recommendations' result and leaves the provider as that run says |
| Pipeline.BasicMealsSpec | CalorIA/mixins/modules/ai_assistant.py:637-709 | no profile sends nothing; otherwise a reply exists exactly when the basic structure is non-empty and has a length, and it then holds that structure, the step `basic_meals` and the structure's length |
| Pipeline.GenerateBasicMeals | CalorIA/mixins/modules/ai_assistant.py:637-709 | the method returns the basic-meals reply and leaves the provider as that run says |
| Pipeline.ShoppingListSpec | CalorIA/mixins/modules/ai_assistant.py:815-885 | a request is sent exactly when the meals context can be built, and it says seven days exactly when some meal has a `day`; at most one repair follows; a list comes back only as the parsed reply when that is a list |
| Pipeline.GenerateShoppingList | CalorIA/mixins/modules/ai_assistant.py:815-885 | the method returns the shopping list's result and leaves the provider as that run says |
| Nutrition.NewWeightEntry | CalorIA/types.py:215-244 | an entry is accepted exactly when the weight is positive and any body-fat percentage lies in 0 to 100, and is then stored as given |
| Nutrition.WeightKg | CalorIA/types.py:224-230 | the weight in kilograms is the weight itself for kg, and the weight times 0.45359237 for lbs; it is positive for a positive weight |
| Nutrition.WeightLbs | CalorIA/types.py:232-238 | the weight in pounds is the weight itself for lbs; for kg it is the pound value that converts back to the weight; it is positive for a positive weight |
| Nutrition.WeightReadingsAgree | CalorIA/types.py:224-238 | both readings of an entry describe the same weight |
| Nutrition.WeightRoundTrip | CalorIA/types.py:224-238 | converting kilograms to pounds and back, or pounds to kilograms and back, gives the starting weight |
| Nutrition.CheckTargetWeight | CalorIA/types.py:149-161 | a target weight is accepted exactly when it is absent or positive, and is kept as given |
| Nutrition.AmountMl | CalorIA/types.py:257-269 | an amount in millilitres is the amount times its unit's factor; for ml it is the amount; it is never less than a positive amount |
| Nutrition.WaterUnitsAgree | CalorIA/types.py:257-269 | the total of entries logged in any units equals the total of the same entries rewritten in millilitres |
| Nutrition.TotalMl | CalorIA/types.py:276-277 | `total_ml`, the sum of the entries' millilitres; Nutrition.TotalMlAppend, Nutrition.TotalMlPositive and Nutrition.WaterUnitsAgree state its properties |
| Nutrition.TotalMlAppend | CalorIA/types.py:276-277 | the day's water total of two lists of entries is the sum of their totals |
| Nutrition.TotalMlPositive | CalorIA/types.py:276-277 | with positive amounts, the total is never negative and is positive once there is an entry |
| Nutrition.MeetsGoal | CalorIA/types.py:279-283 | without a goal there is no answer; with one, the goal is met exactly when the total reaches it |
| Nutrition.MeetsGoalMonotone | CalorIA/types.py:279-283 | a goal once met stays met after another positive entry |
| Nutrition.NewFoodItem | CalorIA/types.py:176-189 | a food item is accepted exactly when its calories are positive, and keeps its name and calories |
| Nutrition.MealCalories | CalorIA/types.py:198-199 | `Meal.total_calories`, the sum of the items' calories; Nutrition.MealCaloriesAppend and Nutrition.MealCaloriesBound state its properties |
| Nutrition.MealCaloriesAppend | CalorIA/types.py:198-199 | a meal's calories over two lists of items are the sum of their calories |
| Nutrition.MealCaloriesBound | CalorIA/types.py:198-199 | a meal of valid items has at least one calorie per item, so any non-empty meal has some |
| Nutrition.DailyCalories | CalorIA/types.py:208-209 | `DailyLog.total_calories`, the sum over the meals; Nutrition.DailyCaloriesFlatten relates it to all items taken together |
| Nutrition.DailyCaloriesFlatten | CalorIA/types.py:208-209 | a day's calories are the calories of all its meals' items taken together |

## Left out

- The language model itself is left out (`query_ai`, the OpenAI and Ollama clients, their HTTP calls). It is a script of replies given to the `Provider`.
- Prompt wording is not modelled. The profile context string, with all profile fields other than the meals-per-day setting, is also left out. Prompts are recorded as a datatype holding the values each prompt is built from.
- `json.loads` is a parameter: a partial function from text to a parsed value. JSON numbers are exact reals.
- Python's `re` module is modelled only for the patterns used. These are the greedy DOTALL `\[.*\]` and `\{.*\}` searches and the three trailing-comma substitutions.
- MealBatches.AvoidNames: the source takes the first ten names in a Python set's iteration order, which is unspecified. The model keeps names in first-use order.
- Text.ParseInt accepts ASCII digits only. Python's `int()` also reads the other Unicode decimal digits, so `int('٣')` is 3 and `int('５０')` is 50. The model refuses such text. A meals-per-day setting written that way gives 3 in the model, and a fallback line with such numbers is skipped.
- Text.ParseRejectsNonDigit: the text it refuses may start with a non-ASCII decimal digit, which Python's `int()` would read. This follows from the line above.
- MealPlan.WordIsThree: the setting must not start with an ASCII digit. A setting starting with a non-ASCII decimal digit is outside the model, as the Text.ParseInt line says.
- Text.Lower lowers the ASCII letters only. Unicode case mapping is left out. Text.Trim strips every character Python's `str.isspace` accepts.
- Printing, logging and tracebacks are left out. Exceptions caught by the enclosing `try` are results of `None`, or `Raised` for a recipe.
- The shopping list's context text is not rendered. The model keeps it as a structured value: the seven-day blocks or the single-day names.
- `generate_basic_meals` omits the profile lookup's storage, `create_ai_response_record`, `json.dumps` of the meals, the `record_id` and the `generated_at` timestamp. The profile is a parameter that may be absent.
- The per-day counters of the seven-day plan are a record of four counters for the current day. The dict keyed by day 1 to 7 is left out, because each day reads and writes only its own entry.
- Floating point is exact `real` arithmetic. This affects the unit conversions and the water totals.
- The other assistant entry points and the storage mixins are not part of this model. These include recipe and shopping wrappers over stored profiles and the response history.
