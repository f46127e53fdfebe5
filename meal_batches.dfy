/**
 * One batch of the seven-day plan: the JSON request for a few meals of
 * one day, its `day` tagging, and the fallback request in the
 * pipe-separated line format when the JSON reply is unusable.
 */
module MealBatches {
  import opened Wrappers
  import opened Text
  import opened Json
  import opened ResponseText
  import opened MealPlan
  import opened MealLines
  import opened Shopping
  import opened Oracle
  import opened JsonReply

  /** How many used names the batch prompt lists at most. */
  const AvoidLimit: nat := 10

  // ------------------------------------------------------------ day tags

  /**
   * `if 'day' not in meal: meal['day'] = current_day` for one element of
   * the batch: a dict without a day gets one; a dict, string or list that
   * has one is left alone; anything else raises (`None`), as does item
   * assignment on a string or list.
   */
  function DayTagged(meal: Json, day: int): (r: Option<Json>)
    ensures meal.JObj? ==> r.Some? && r.value.JObj?
    ensures meal.JObj? ==> Get(r.value.fields, "day") == if HasKey(meal.fields, "day") then Get(meal.fields, "day") else Some(Num(day))
    ensures !meal.JObj? ==> (r.Some? <==> HasDayKey(meal) == Some(true)) && (r.Some? ==> r.value == meal)
  {
    match HasDayKey(meal)
    case None => None
    case Some(has) =>
      if has then Some(meal)
      else if meal.JObj? then Some(JObj(Set(meal.fields, "day", Num(day))))
      else None
  }

  /** Tagging a dict changes no other key. */
  lemma DayTaggedKeeps(meal: Json, day: int, k: string)
    requires meal.JObj? && k != "day"
    ensures Get(DayTagged(meal, day).value.fields, k) == Get(meal.fields, k)
  {
  }

  /** The whole batch tagged, or `None` when some element raises. */
  function TaggedBatch(batch: seq<Json>, day: int): (r: Option<seq<Json>>)
    ensures r.Some? <==> forall i :: 0 <= i < |batch| ==> DayTagged(batch[i], day).Some?
    ensures r.Some? ==> |r.value| == |batch|
    ensures r.Some? ==> forall i :: 0 <= i < |batch| ==> r.value[i] == DayTagged(batch[i], day).value
  {
    if forall i :: 0 <= i < |batch| ==> DayTagged(batch[i], day).Some? then
      Some(seq(|batch|, i requires 0 <= i < |batch| => DayTagged(batch[i], day).value))
    else None
  }

  /** Tags the batch in place, meal by meal. */
  method TagDays(batch: seq<Json>, day: int) returns (r: Option<seq<Json>>)
    ensures r == TaggedBatch(batch, day)
  {
    var tagged := batch;
    var i := 0;
    while i < |tagged|
      invariant 0 <= i <= |batch| && |tagged| == |batch|
      invariant forall k :: 0 <= k < i ==> DayTagged(batch[k], day).Some? && tagged[k] == DayTagged(batch[k], day).value
      invariant tagged[i..] == batch[i..]
    {
      assert tagged[i] == batch[i];
      var meal := DayTagged(tagged[i], day);
      if meal.None? {
        return None;
      }
      tagged := tagged[i := meal.value];
      i := i + 1;
    }
    assert tagged == TaggedBatch(batch, day).value;
    return Some(tagged);
  }

  /** In a tagged batch every dict has a `day`. */
  lemma TaggedDicts(batch: seq<Json>, day: int)
    requires TaggedBatch(batch, day).Some?
    ensures forall i :: 0 <= i < |batch| ==>
      (batch[i].JObj? <==> TaggedBatch(batch, day).value[i].JObj?)
    ensures forall i :: 0 <= i < |batch| && batch[i].JObj? ==>
      HasKey(TaggedBatch(batch, day).value[i].fields, "day")
  {
  }

  // ------------------------------------------------------------ used names

  /**
   * `list(used_names)[:10]`: the first ten of the names used so far. The
   * used names are kept in the order they were first used; the order in
   * which a Python set lists them is not modelled.
   */
  function AvoidNames(used: seq<string>): (avoid: seq<string>)
    ensures |avoid| == if |used| < AvoidLimit then |used| else AvoidLimit
    ensures forall i :: 0 <= i < |avoid| ==> avoid[i] == used[i]
    ensures |used| <= AvoidLimit ==> avoid == used
  {
    if |used| < AvoidLimit then used else used[..AvoidLimit]
  }

  // ------------------------------------------------------------ the fallback

  /** `needed_types[0] if needed_types else "General"` */
  function PrimaryType(needed: seq<string>): string {
    if needed != [] then needed[0] else "General"
  }

  /** `_generate_meal_batch_fallback` over the script: one request, and the meals its lines yield. */
  function FallbackRun(count: int, needed: seq<string>, day: int, replies: Replies): (run: Run<Option<seq<Json>>>)
    ensures run.result.Some? ==> run.result.value != []
  {
    var primary := PrimaryType(needed);
    var reply := Next(replies);
    var prompts := [FallbackPrompt(count, primary, day)];
    if !Usable(reply) then Run(None, Rest(replies), prompts)
    else
      var meals := FallbackMeals(reply.value, count, primary, day);
      Run(if meals != [] then Some(meals) else None, Rest(replies), prompts)
  }

  method GenerateMealBatchFallback(provider: Provider, count: int, needed: seq<string>, day: int)
    returns (r: Option<seq<Json>>)
    modifies provider
    ensures var run := FallbackRun(count, needed, day, old(provider.replies));
      r == run.result && provider.replies == run.rest && provider.sent == old(provider.sent) + run.prompts
  {
    var primary := PrimaryType(needed);
    var reply := provider.Query(FallbackPrompt(count, primary, day));
    if !Usable(reply) {
      return None;
    }
    var meals := ParseFallbackLines(PySliceTo(Split(Trim(reply.value), LineSep), count), primary, day);
    if meals != [] {
      return Some(meals);
    }
    return None;
  }

  /** The loop over the examined lines: well-formed lines become meals, the others are skipped. */
  method ParseFallbackLines(lines: seq<string>, primary: string, day: int) returns (meals: seq<Json>)
    ensures meals == ParsedMeals(lines, primary, day)
  {
    meals := [];
    var i := 0;
    while i < |lines|
      invariant 0 <= i <= |lines|
      invariant meals == ParsedMeals(lines[..i], primary, day)
    {
      ParsedMealsStep(lines, i, primary, day);
      meals := meals + LineMeals(lines[i], primary, day);
      i := i + 1;
    }
    assert lines[..i] == lines;
  }

  /**
   * The fallback sends one request and consumes one reply; what it returns
   * is a non-empty list of at most `count` meals, each of the requested
   * type, for the given day, with one serving. It returns exactly the meals
   * of the reply's accepted lines, and nothing when no line is accepted.
   */
  lemma FallbackRunSpec(count: int, needed: seq<string>, day: int, replies: Replies)
    requires count >= 0
    ensures var run := FallbackRun(count, needed, day, replies);
      && run.prompts == [FallbackPrompt(count, PrimaryType(needed), day)]
      && run.rest == Skip(replies, 1)
      && (run.result.Some? ==> 0 < |run.result.value| <= count)
      && (run.result.Some? ==> forall i :: 0 <= i < |run.result.value| ==>
            IsFallbackMeal(run.result.value[i], PrimaryType(needed), day))
    ensures var run := FallbackRun(count, needed, day, replies);
      && (run.result.Some? <==>
            Usable(Next(replies)) && FallbackMeals(Next(replies).value, count, PrimaryType(needed), day) != [])
      && (run.result.Some? ==> run.result.value == FallbackMeals(Next(replies).value, count, PrimaryType(needed), day))
  {
  }

  // ------------------------------------------------------------ one batch

  /**
   * `_generate_meal_batch` over the script: the JSON request; a non-empty
   * list reply is tagged with the day; any other parse result goes to the
   * fallback. No reply at all ends the batch without a fallback.
   */
  function BatchRun(count: int, day: int, needed: seq<string>, used: seq<string>, replies: Replies,
                    loads: string -> Option<Json>): (run: Run<Option<seq<Json>>>)
    ensures run.result.Some? ==> run.result.value != []
  {
    var first := BatchPrompt(count, day, needed, AvoidNames(used));
    var reply := Next(replies);
    if !Usable(reply) then Run(None, Rest(replies), [first])
    else BatchFinish(first, count, day, needed, ParseRun(reply.value, Rest(replies), loads))
  }

  /**
   * The batch once the JSON reply went through `_parse_simple_json_response`
   * (`parsed`): a non-empty list is tagged with the day, anything else goes
   * to the fallback.
   */
  function BatchFinish(first: Prompt, count: int, day: int, needed: seq<string>, parsed: Run<Option<Json>>)
    : (run: Run<Option<seq<Json>>>)
    ensures run.result.Some? ==> run.result.value != []
  {
    if parsed.result.Some? && parsed.result.value.JArr? && parsed.result.value.items != [] then
      Run(TaggedBatch(parsed.result.value.items, day), parsed.rest, [first] + parsed.prompts)
    else
      var fallback := FallbackRun(count, needed, day, parsed.rest);
      Run(fallback.result, fallback.rest, [first] + parsed.prompts + fallback.prompts)
  }

  /** Every dict among `meals` has a `day` key. */
  predicate DictsHaveDays(meals: seq<Json>) {
    forall i :: 0 <= i < |meals| && meals[i].JObj? ==> HasKey(meals[i].fields, "day")
  }

  lemma TaggedHaveDays(items: seq<Json>, day: int)
    requires TaggedBatch(items, day).Some?
    ensures DictsHaveDays(TaggedBatch(items, day).value)
  {
    TaggedDicts(items, day);
  }

  lemma FallbackHasDays(count: int, needed: seq<string>, day: int, replies: Replies)
    requires count >= 0
    ensures var run := FallbackRun(count, needed, day, replies);
      |run.prompts| == 1 && run.rest == Skip(replies, 1) && (run.result.Some? ==> DictsHaveDays(run.result.value))
  {
    FallbackRunSpec(count, needed, day, replies);
  }

  lemma ParseRunSkips(response: string, replies: Replies, loads: string -> Option<Json>)
    ensures var run := ParseRun(response, replies, loads);
      |run.prompts| <= 1 && run.rest == Skip(replies, |run.prompts|)
  {
    ParseRunRequests(response, replies, loads);
    SkipSteps(replies, 0, 1);
  }

  /** What `BatchRunSpec` states about one run of a batch. */
  predicate BatchShape(run: Run<Option<seq<Json>>>, first: Prompt, replies: Replies) {
    && 1 <= |run.prompts| <= 3
    && run.prompts[0] == first
    && run.rest == Skip(replies, |run.prompts|)
    && (run.result.Some? ==> DictsHaveDays(run.result.value))
  }

  /**
   * Which branch a batch takes: no reply ends it after the one request; a
   * non-empty list is tagged with the day; any other parse result is
   * followed by the pipe-format fallback request, whose meals are the result.
   */
  predicate BatchOutcome(run: Run<Option<seq<Json>>>, count: int, day: int, needed: seq<string>,
                         replies: Replies, loads: string -> Option<Json>) {
    if !Usable(Next(replies)) then run.result.None? && |run.prompts| == 1
    else
      var parsed := ParseRun(Next(replies).value, Rest(replies), loads);
      if parsed.result.Some? && parsed.result.value.JArr? && parsed.result.value.items != [] then
        && run.result == TaggedBatch(parsed.result.value.items, day)
        && |run.prompts| == 1 + |parsed.prompts|
      else
        && |run.prompts| == 2 + |parsed.prompts|
        && run.prompts[|run.prompts| - 1] == FallbackPrompt(count, PrimaryType(needed), day)
        && run.result == FallbackRun(count, needed, day, parsed.rest).result
  }

  lemma BatchFinishOutcome(first: Prompt, count: int, day: int, needed: seq<string>, parsed: Run<Option<Json>>)
    requires count >= 0
    ensures var run := BatchFinish(first, count, day, needed, parsed);
      if parsed.result.Some? && parsed.result.value.JArr? && parsed.result.value.items != [] then
        && run.result == TaggedBatch(parsed.result.value.items, day)
        && |run.prompts| == 1 + |parsed.prompts|
      else
        && |run.prompts| == 2 + |parsed.prompts|
        && run.prompts[|run.prompts| - 1] == FallbackPrompt(count, PrimaryType(needed), day)
        && run.result == FallbackRun(count, needed, day, parsed.rest).result
  {
    if !(parsed.result.Some? && parsed.result.value.JArr? && parsed.result.value.items != []) {
      FallbackRunSpec(count, needed, day, parsed.rest);
    }
  }

  /**
   * After a parse that sent at most one request and consumed one reply per
   * request, the batch keeps that accounting and every dict it returns
   * carries a `day`.
   */
  lemma BatchFinishShape(first: Prompt, count: int, day: int, needed: seq<string>, parsed: Run<Option<Json>>,
                         replies: Replies)
    requires count >= 0
    requires |parsed.prompts| <= 1 && parsed.rest == Skip(replies, |parsed.prompts|)
    ensures var run := BatchFinish(first, count, day, needed, parsed);
      && 1 <= |run.prompts| - |parsed.prompts| <= 2
      && run.prompts[0] == first
      && run.rest == Skip(replies, |run.prompts| - 1)
      && (run.result.Some? ==> DictsHaveDays(run.result.value))
  {
    var run := BatchFinish(first, count, day, needed, parsed);
    if parsed.result.Some? && parsed.result.value.JArr? && parsed.result.value.items != [] {
      assert run.prompts == [first] + parsed.prompts && run.rest == parsed.rest;
      if TaggedBatch(parsed.result.value.items, day).Some? {
        TaggedHaveDays(parsed.result.value.items, day);
      }
    } else {
      var fallback := FallbackRun(count, needed, day, parsed.rest);
      FallbackHasDays(count, needed, day, parsed.rest);
      SkipSteps(replies, |parsed.prompts|, 1);
      assert run.prompts == [first] + parsed.prompts + fallback.prompts && run.rest == fallback.rest;
    }
  }

  /**
   * A batch sends the batch request first, then at most a repair request
   * and a fallback request, and consumes one reply per request; every dict
   * it returns carries a `day`. No reply gives nothing without a fallback,
   * and a parse that is not a non-empty list falls back to the pipe format.
   */
  lemma BatchRunSpec(count: int, day: int, needed: seq<string>, used: seq<string>, replies: Replies,
                     loads: string -> Option<Json>)
    requires count >= 0
    ensures BatchShape(BatchRun(count, day, needed, used, replies, loads),
      BatchPrompt(count, day, needed, AvoidNames(used)), replies)
    ensures BatchOutcome(BatchRun(count, day, needed, used, replies, loads), count, day, needed, replies, loads)
  {
    SkipSteps(replies, 0, 1);
    if Usable(Next(replies)) {
      var parsed := ParseRun(Next(replies).value, Rest(replies), loads);
      BatchFinishOutcome(BatchPrompt(count, day, needed, AvoidNames(used)), count, day, needed, parsed);
      ParseRunSkips(Next(replies).value, Rest(replies), loads);
      BatchFinishShape(BatchPrompt(count, day, needed, AvoidNames(used)), count, day, needed, parsed, Rest(replies));
      SkipSteps(replies, 1, |BatchFinish(BatchPrompt(count, day, needed, AvoidNames(used)), count, day, needed, parsed).prompts| - 1);
    }
  }

  method GenerateMealBatch(provider: Provider, count: int, needed: seq<string>, used: seq<string>, day: int,
                           loads: string -> Option<Json>)
    returns (r: Option<seq<Json>>)
    modifies provider
    ensures var run := BatchRun(count, day, needed, used, old(provider.replies), loads);
      r == run.result && provider.replies == run.rest && provider.sent == old(provider.sent) + run.prompts
  {
    ghost var before := provider.replies;
    ghost var sent0 := provider.sent;
    var first := BatchPrompt(count, day, needed, AvoidNames(used));
    var reply := provider.Query(first);
    if !Usable(reply) {
      return None;
    }
    ghost var parsed := ParseRun(reply.value, Rest(before), loads);
    var batch := ParseSimpleJsonResponse(provider, reply.value, loads);
    assert provider.sent == sent0 + [first] + parsed.prompts;
    SentGrouped(sent0, [first], parsed.prompts);
    if batch.Some? && batch.value.JArr? && batch.value.items != [] {
      r := TagDays(batch.value.items, day);
      return r;
    }
    ghost var fallbackRun := FallbackRun(count, needed, day, parsed.rest);
    var fallback := GenerateMealBatchFallback(provider, count, needed, day);
    assert provider.sent == sent0 + [first] + parsed.prompts + fallbackRun.prompts;
    SentGrouped(sent0, [first] + parsed.prompts, fallbackRun.prompts);
    if fallback.Some? && fallback.value != [] {
      return fallback;
    }
    return None;
  }
}
