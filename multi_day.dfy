/**
 * The seven-day plan, `_generate_multi_day_meals_batched`: day by day,
 * batches of at most three meals are requested for the types the day
 * still lacks, until the day has its meals, nothing is needed, the plan
 * as a whole is full, or a batch fails.
 *
 * The plan is specified by `MultiDayRun`, a recursive reading of the two
 * loops over the scripted provider; the method runs the loops themselves.
 */
module MultiDay {
  import opened Wrappers
  import opened Text
  import opened Json
  import opened MealPlan
  import opened Oracle
  import opened MealBatches

  predicate Distinct(names: seq<string>) {
    forall i, j :: 0 <= i < j < |names| ==> names[i] != names[j]
  }

  /** `meal_names_used.add(name)`: a name joins the used names once, at the end. */
  function AddUsed(used: seq<string>, name: string): (r: seq<string>)
    ensures forall n :: n in r <==> n in used || n == name
    ensures Distinct(used) ==> Distinct(r)
    ensures |used| <= |r|
  {
    if name in used then used else used + [name]
  }

  /** The used names once every name of `batch` is added, in order. */
  function UsedAfter(used: seq<string>, batch: seq<Json>): (r: seq<string>)
    ensures Distinct(used) ==> Distinct(r)
  {
    if batch == [] then used
    else
      var u := UsedAfter(used, batch[..|batch| - 1]);
      match NameKey(batch[|batch| - 1])
      case Some(n) => AddUsed(u, n)
      case None => u
  }

  /** A name is used afterwards exactly when it was used before or names a meal of the batch. */
  lemma {:induction false} UsedAfterNames(used: seq<string>, batch: seq<Json>, n: string)
    ensures n in UsedAfter(used, batch) <==>
      n in used || exists i :: 0 <= i < |batch| && NameKey(batch[i]) == Some(n)
    decreases |batch|
  {
    if batch != [] {
      var init := batch[..|batch| - 1];
      UsedAfterNames(used, init, n);
      if exists i :: 0 <= i < |batch| && NameKey(batch[i]) == Some(n) {
        var i :| 0 <= i < |batch| && NameKey(batch[i]) == Some(n);
        if i < |init| {
          assert NameKey(init[i]) == Some(n);
        }
      }
      if exists i :: 0 <= i < |init| && NameKey(init[i]) == Some(n) {
        var i :| 0 <= i < |init| && NameKey(init[i]) == Some(n);
        assert NameKey(batch[i]) == Some(n);
      }
    }
  }

  /** Whether the bookkeeping gets through every meal of `batch` without raising. */
  predicate AllRecordable(batch: seq<Json>) {
    batch == [] || (AllRecordable(batch[..|batch| - 1]) && Recordable(batch[|batch| - 1]))
  }

  lemma {:induction false} AllRecordableEach(batch: seq<Json>)
    ensures AllRecordable(batch) <==> forall i :: 0 <= i < |batch| ==> Recordable(batch[i])
  {
    if batch != [] {
      var init := batch[..|batch| - 1];
      AllRecordableEach(init);
      assert forall i :: 0 <= i < |init| ==> init[i] == batch[i];
    }
  }

  lemma PrefixSnoc<T>(s: seq<T>, i: nat)
    requires i < |s|
    ensures s[..i + 1] == s[..i] + [s[i]]
  {
  }

  /** One more meal: recorded when the earlier ones were and it is; its name joins the used names. */
  lemma RecordedSnoc(used: seq<string>, batch: seq<Json>, meal: Json)
    ensures AllRecordable(batch + [meal]) <==> AllRecordable(batch) && Recordable(meal)
    ensures Recordable(meal) ==> UsedAfter(used, batch + [meal]) == AddUsed(UsedAfter(used, batch), NameKey(meal).value)
  {
    assert (batch + [meal])[..|batch|] == batch;
  }

  lemma UnrecordableMeal(batch: seq<Json>, i: nat)
    requires i < |batch| && !Recordable(batch[i])
    ensures !AllRecordable(batch)
  {
    AllRecordableEach(batch);
  }

  /** Recording the meal at index `i` of a batch, after the meals before it. */
  lemma RecordStep(used: seq<string>, dayMeals: seq<Json>, batch: seq<Json>, i: nat)
    requires i < |batch|
    ensures Counted(dayMeals + batch[..i + 1]) == Counted(dayMeals + batch[..i]).Record(batch[i])
    ensures AllRecordable(batch[..i + 1]) <==> AllRecordable(batch[..i]) && Recordable(batch[i])
    ensures Recordable(batch[i]) ==>
      UsedAfter(used, batch[..i + 1]) == AddUsed(UsedAfter(used, batch[..i]), NameKey(batch[i]).value)
  {
    PrefixSnoc(batch, i);
    assert dayMeals + batch[..i + 1] == (dayMeals + batch[..i]) + [batch[i]];
    CountedSnoc(dayMeals + batch[..i], batch[i]);
    RecordedSnoc(used, batch[..i], batch[i]);
  }

  lemma NoneRecorded(dayMeals: seq<Json>, batch: seq<Json>)
    ensures dayMeals + batch[..0] == dayMeals
    ensures batch[..|batch|] == batch
  {
  }

  /**
   * The bookkeeping after a batch: each meal bumps the counter of its
   * type and adds its lower-cased name. A meal that is not an object, has
   * an unhashable type or has no string name raises, which abandons the
   * whole plan (`ok` false).
   */
  method RecordBatch(tally: Tally, used: seq<string>, batch: seq<Json>, ghost dayMeals: seq<Json>)
    returns (ok: bool, t: Tally, u: seq<string>)
    requires tally == Counted(dayMeals)
    ensures ok <==> AllRecordable(batch)
    ensures ok ==> t == Counted(dayMeals + batch) && u == UsedAfter(used, batch)
  {
    t, u := tally, used;
    NoneRecorded(dayMeals, batch);
    var i := 0;
    while i < |batch|
      invariant 0 <= i <= |batch|
      invariant AllRecordable(batch[..i])
      invariant t == Counted(dayMeals + batch[..i]) && u == UsedAfter(used, batch[..i])
    {
      var meal := batch[i];
      RecordStep(used, dayMeals, batch, i);
      if !Recordable(meal) {
        UnrecordableMeal(batch, i);
        return false, t, u;
      }
      t := t.Record(meal);
      u := AddUsed(u, NameKey(meal).value);
      i := i + 1;
    }
    return true, t, u;
  }

  /** How many more meals the plan may take before it is full. */
  function Remaining(mealsPerDay: int, meals: seq<Json>): nat {
    if |meals| < PlanLimit(mealsPerDay) then PlanLimit(mealsPerDay) - |meals| else 0
  }

  /** How many days of the week are still to come from day `day` on. */
  function DaysLeft(day: int): nat {
    if day <= TotalDays then TotalDays + 1 - day else 0
  }

  /**
   * How one batch request goes, given its size, day, types and the names
   * used so far, on the replies left. The plan is specified for any such
   * function; `Batcher` is `_generate_meal_batch`.
   */
  type BatchFn = (int, int, seq<string>, seq<string>, Replies) -> Run<Option<seq<Json>>>

  function Batcher(loads: string -> Option<Json>): BatchFn {
    (count, day, needed, used, replies) => BatchRun(count, day, needed, used, replies, loads)
  }

  /** `batcher` requests batches the way `_generate_meal_batch` does. */
  ghost predicate Serves(batcher: BatchFn, loads: string -> Option<Json>) {
    forall count, day, needed, used, replies {:trigger BatchRun(count, day, needed, used, replies, loads)} ::
      batcher(count, day, needed, used, replies) == BatchRun(count, day, needed, used, replies, loads)
  }

  lemma BatcherServes(loads: string -> Option<Json>)
    ensures Serves(Batcher(loads), loads)
  {
  }

  /**
   * The rest of the plan from the start of day `day`, with the plan
   * holding `meals`, the names in `used` taken and `replies` left: `None`
   * when the bookkeeping raises, otherwise the plan once day seven is over.
   */
  function DayPlan(batcher: BatchFn, mealsPerDay: int, day: int, meals: seq<Json>, used: seq<string>,
                   replies: Replies): Run<Option<seq<Json>>>
    decreases DaysLeft(day), Remaining(mealsPerDay, meals), 3
  {
    if day > TotalDays then Run(Some(meals), replies, [])
    else DayOpen(batcher, mealsPerDay, day, meals, used, replies)
  }

  /** Day `day` before its first batch: no meals counted yet. */
  function DayOpen(batcher: BatchFn, mealsPerDay: int, day: int, meals: seq<Json>, used: seq<string>,
                   replies: Replies): Run<Option<seq<Json>>>
    requires day <= TotalDays
    decreases DaysLeft(day), Remaining(mealsPerDay, meals), 2
  {
    PlanRun(batcher, mealsPerDay, day, [], meals, used, replies)
  }

  /**
   * The rest of the plan from the point where day `day` has produced
   * `dayMeals`. The day ends when its loop condition fails, when nothing
   * is needed, or when a batch brings no meals.
   */
  function PlanRun(batcher: BatchFn, mealsPerDay: int, day: int, dayMeals: seq<Json>, meals: seq<Json>,
                   used: seq<string>, replies: Replies): Run<Option<seq<Json>>>
    requires day <= TotalDays
    decreases DaysLeft(day), Remaining(mealsPerDay, meals), 1
  {
    match PlanStep(Counted(dayMeals), mealsPerDay, |meals|)
    case EndDay => DayPlan(batcher, mealsPerDay, day + 1, meals, used, replies)
    case Batch(size, types) =>
      AfterBatch(batcher, mealsPerDay, day, dayMeals, meals, used, batcher(size, day, SlotNames(types), used, replies))
  }

  /**
   * What the day loop does with the outcome of one batch: no batch, or an
   * empty one, ends the day; a batch the bookkeeping raises on abandons
   * the plan; any other batch is recorded before the next round.
   */
  function AfterBatch(batcher: BatchFn, mealsPerDay: int, day: int, dayMeals: seq<Json>, meals: seq<Json>,
                      used: seq<string>, batch: Run<Option<seq<Json>>>): Run<Option<seq<Json>>>
    requires day <= TotalDays && |meals| < PlanLimit(mealsPerDay)
    decreases DaysLeft(day), Remaining(mealsPerDay, meals), 0
  {
    var next :=
      if batch.result.None? || batch.result.value == [] then
        DayPlan(batcher, mealsPerDay, day + 1, meals, used, batch.rest)
      else if !AllRecordable(batch.result.value) then Run(None, batch.rest, [])
      else
        PlanRun(batcher, mealsPerDay, day, dayMeals + batch.result.value, meals + batch.result.value,
                UsedAfter(used, batch.result.value), batch.rest);
    Run(next.result, next.rest, batch.prompts + next.prompts)
  }

  /** `_generate_multi_day_meals_batched` over the script. */
  function MultiDayRun(mealsPerDay: int, replies: Replies, loads: string -> Option<Json>): Run<Option<seq<Json>>> {
    DayPlan(Batcher(loads), mealsPerDay, 1, [], [], replies)
  }

  /** A round that requests a batch continues with that batch's outcome. */
  lemma PlanRunBatch(batcher: BatchFn, mealsPerDay: int, day: int, dayMeals: seq<Json>, meals: seq<Json>,
                     used: seq<string>, replies: Replies, size: nat, types: seq<Slot>)
    requires day <= TotalDays
    requires PlanStep(Counted(dayMeals), mealsPerDay, |meals|) == Batch(size, types)
    ensures |meals| < PlanLimit(mealsPerDay)
    ensures PlanRun(batcher, mealsPerDay, day, dayMeals, meals, used, replies) ==
      AfterBatch(batcher, mealsPerDay, day, dayMeals, meals, used, batcher(size, day, SlotNames(types), used, replies))
  {
  }

  /** A round that requests nothing ends the day; the next day starts with zero counters. */
  lemma PlanRunEnd(batcher: BatchFn, mealsPerDay: int, day: int, dayMeals: seq<Json>, meals: seq<Json>,
                   used: seq<string>, replies: Replies)
    requires day <= TotalDays
    requires PlanStep(Counted(dayMeals), mealsPerDay, |meals|) == EndDay
    ensures PlanRun(batcher, mealsPerDay, day, dayMeals, meals, used, replies) ==
      DayPlan(batcher, mealsPerDay, day + 1, meals, used, replies)
  {
  }

  // ------------------------------------------------------------ what the plan gathers

  /** A meal the plan keeps: the bookkeeping got through it and it has a `day`. */
  predicate PlanMeal(meal: Json) {
    Recordable(meal) && HasKey(meal.fields, "day")
  }

  /**
   * A run of the rest of the plan, started on `replies` with `meals`
   * gathered, consumed one reply per request, and a plan it returns
   * extends `meals` by meals the plan keeps.
   */
  predicate Gathers(meals: seq<Json>, run: Run<Option<seq<Json>>>, replies: Replies) {
    && run.rest == Skip(replies, |run.prompts|)
    && (run.result.Some? ==>
          && meals <= run.result.value
          && forall i :: |meals| <= i < |run.result.value| ==> PlanMeal(run.result.value[i]))
  }

  /** Meals the plan keeps after `meals + batch` are also kept after `meals`. */
  lemma GathersAfterBatch(meals: seq<Json>, batch: seq<Json>, all: seq<Json>)
    requires AllRecordable(batch) && DictsHaveDays(batch)
    requires meals + batch <= all
    requires forall i :: |meals + batch| <= i < |all| ==> PlanMeal(all[i])
    ensures meals <= all
    ensures forall i :: |meals| <= i < |all| ==> PlanMeal(all[i])
  {
    AllRecordableEach(batch);
    forall i | |meals| <= i < |meals| + |batch|
      ensures PlanMeal(all[i])
    {
      assert all[i] == (meals + batch)[i] == batch[i - |meals|];
    }
  }

  lemma {:induction false} DayPlanGathers(batcher: BatchFn, loads: string -> Option<Json>, mealsPerDay: int, day: int,
                                          meals: seq<Json>, used: seq<string>, replies: Replies)
    requires Serves(batcher, loads)
    ensures Gathers(meals, DayPlan(batcher, mealsPerDay, day, meals, used, replies), replies)
    decreases DaysLeft(day), Remaining(mealsPerDay, meals), 2
  {
    if day > TotalDays {
      SkipSteps(replies, 0, 0);
    } else {
      PlanRunGathers(batcher, loads, mealsPerDay, day, [], meals, used, replies);
    }
  }

  lemma {:induction false} PlanRunGathers(batcher: BatchFn, loads: string -> Option<Json>, mealsPerDay: int, day: int,
                                          dayMeals: seq<Json>, meals: seq<Json>, used: seq<string>, replies: Replies)
    requires Serves(batcher, loads) && day <= TotalDays
    ensures Gathers(meals, PlanRun(batcher, mealsPerDay, day, dayMeals, meals, used, replies), replies)
    decreases DaysLeft(day), Remaining(mealsPerDay, meals), 1
  {
    match PlanStep(Counted(dayMeals), mealsPerDay, |meals|)
    case EndDay =>
      PlanRunEnd(batcher, mealsPerDay, day, dayMeals, meals, used, replies);
      DayPlanGathers(batcher, loads, mealsPerDay, day + 1, meals, used, replies);
    case Batch(size, types) =>
      PlanRunBatch(batcher, mealsPerDay, day, dayMeals, meals, used, replies, size, types);
      var batch := BatchRun(size, day, SlotNames(types), used, replies, loads);
      assert batcher(size, day, SlotNames(types), used, replies) == batch;
      BatchRunSpec(size, day, SlotNames(types), used, replies, loads);
      AfterBatchGathers(batcher, loads, mealsPerDay, day, dayMeals, meals, used, batch, replies);
  }

  lemma {:induction false} AfterBatchGathers(batcher: BatchFn, loads: string -> Option<Json>, mealsPerDay: int,
                                             day: int, dayMeals: seq<Json>, meals: seq<Json>, used: seq<string>,
                                             batch: Run<Option<seq<Json>>>, replies: Replies)
    requires Serves(batcher, loads) && day <= TotalDays && |meals| < PlanLimit(mealsPerDay)
    requires batch.rest == Skip(replies, |batch.prompts|)
    requires batch.result.Some? ==> DictsHaveDays(batch.result.value)
    ensures Gathers(meals, AfterBatch(batcher, mealsPerDay, day, dayMeals, meals, used, batch), replies)
    decreases DaysLeft(day), Remaining(mealsPerDay, meals), 0
  {
    var next :=
      if batch.result.None? || batch.result.value == [] then
        DayPlan(batcher, mealsPerDay, day + 1, meals, used, batch.rest)
      else if !AllRecordable(batch.result.value) then Run(None, batch.rest, [])
      else
        PlanRun(batcher, mealsPerDay, day, dayMeals + batch.result.value, meals + batch.result.value,
                UsedAfter(used, batch.result.value), batch.rest);
    if batch.result.None? || batch.result.value == [] {
      DayPlanGathers(batcher, loads, mealsPerDay, day + 1, meals, used, batch.rest);
    } else if !AllRecordable(batch.result.value) {
      SkipSteps(batch.rest, 0, 0);
    } else {
      var v := batch.result.value;
      PlanRunGathers(batcher, loads, mealsPerDay, day, dayMeals + v, meals + v, UsedAfter(used, v), batch.rest);
      if next.result.Some? {
        GathersAfterBatch(meals, v, next.result.value);
      }
    }
    SkipSteps(replies, |batch.prompts|, |next.prompts|);
  }

  /**
   * The seven-day plan consumes one reply per request, and every meal of
   * a plan it returns got through the bookkeeping and carries a `day`.
   */
  lemma MultiDayGathers(mealsPerDay: int, replies: Replies, loads: string -> Option<Json>)
    ensures var run := MultiDayRun(mealsPerDay, replies, loads);
      && run.rest == Skip(replies, |run.prompts|)
      && (run.result.Some? ==> forall i :: 0 <= i < |run.result.value| ==> PlanMeal(run.result.value[i]))
  {
    BatcherServes(loads);
    DayPlanGathers(Batcher(loads), loads, mealsPerDay, 1, [], [], replies);
  }

  /** How a round of the day loop ended. */
  datatype Round = Recorded | Stopped | Raised

  /** What the plan still does after a round that ended as `round`. */
  function RoundAfter(batcher: BatchFn, round: Round, mealsPerDay: int, day: int, dayMeals: seq<Json>,
                      meals: seq<Json>, used: seq<string>, replies: Replies): Run<Option<seq<Json>>>
  {
    match round
    case Recorded => if day <= TotalDays then PlanRun(batcher, mealsPerDay, day, dayMeals, meals, used, replies) else Run(None, replies, [])
    case Stopped => DayPlan(batcher, mealsPerDay, day + 1, meals, used, replies)
    case Raised => Run(None, replies, [])
  }

  /**
   * The run `whole` of a piece of the pipeline, started with `sent0` in
   * the log, has come as far as the log `sent`: what it still does is
   * `after`.
   */
  ghost predicate Continues<T>(whole: Run<T>, sent0: seq<Prompt>, sent: seq<Prompt>, after: Run<T>) {
    whole.result == after.result && whole.rest == after.rest && sent0 + whole.prompts == sent + after.prompts
  }

  /** `_generate_meal_batch`, seen through a batcher that serves it. */
  method RequestBatch(provider: Provider, count: int, needed: seq<string>, used: seq<string>, day: int,
                      loads: string -> Option<Json>, ghost batcher: BatchFn)
    returns (r: Option<seq<Json>>)
    requires Serves(batcher, loads)
    modifies provider
    ensures var run := batcher(count, day, needed, used, old(provider.replies));
      r == run.result && provider.replies == run.rest && provider.sent == old(provider.sent) + run.prompts
  {
    ghost var b := BatchRun(count, day, needed, used, provider.replies, loads);
    r := GenerateMealBatch(provider, count, needed, used, day, loads);
  }

  /**
   * One round of the day loop that requests a batch: the batch is
   * recorded, or the day stops because no batch came, or the bookkeeping
   * raised.
   */
  method BatchRound(provider: Provider, mealsPerDay: int, day: int, tally: Tally, ghost dayMeals: seq<Json>,
                    meals: seq<Json>, used: seq<string>, loads: string -> Option<Json>, size: nat, needed: seq<Slot>,
                    ghost batcher: BatchFn)
    returns (round: Round, tally': Tally, ghost dayMeals': seq<Json>, meals': seq<Json>, used': seq<string>)
    requires Serves(batcher, loads)
    requires day <= TotalDays && tally == Counted(dayMeals)
    requires PlanStep(tally, mealsPerDay, |meals|) == Batch(size, needed)
    modifies provider
    ensures tally' == Counted(dayMeals')
    ensures round == Recorded ==> Remaining(mealsPerDay, meals') < Remaining(mealsPerDay, meals)
    ensures round != Recorded ==> meals' == meals && used' == used
    ensures Continues(PlanRun(batcher, mealsPerDay, day, dayMeals, meals, used, old(provider.replies)), old(provider.sent),
      provider.sent, RoundAfter(batcher, round, mealsPerDay, day, dayMeals', meals', used', provider.replies))
  {
    ghost var b := batcher(size, day, SlotNames(needed), used, provider.replies);
    PlanRunBatch(batcher, mealsPerDay, day, dayMeals, meals, used, provider.replies, size, needed);
    ghost var sentBefore := provider.sent;
    var batch := RequestBatch(provider, size, SlotNames(needed), used, day, loads, batcher);
    if batch.Some? && batch.value != [] {
      var ok, t, u := RecordBatch(tally, used, batch.value, dayMeals);
      if !ok {
        SentNothing(provider.sent);
        return Raised, tally, dayMeals, meals, used;
      }
      ghost var next := PlanRun(batcher, mealsPerDay, day, dayMeals + batch.value, meals + batch.value, u, b.rest);
      SentGrouped(sentBefore, b.prompts, next.prompts);
      return Recorded, t, dayMeals + batch.value, meals + batch.value, u;
    }
    ghost var next := DayPlan(batcher, mealsPerDay, day + 1, meals, used, b.rest);
    SentGrouped(sentBefore, b.prompts, next.prompts);
    return Stopped, tally, dayMeals, meals, used;
  }

  /**
   * One pass of the day loop: its condition, the check for needed types,
   * and the batch.
   */
  method DayRound(provider: Provider, mealsPerDay: int, day: int, tally: Tally, ghost dayMeals: seq<Json>,
                  meals: seq<Json>, used: seq<string>, loads: string -> Option<Json>, ghost batcher: BatchFn)
    returns (round: Round, tally': Tally, ghost dayMeals': seq<Json>, meals': seq<Json>, used': seq<string>)
    requires Serves(batcher, loads)
    requires day <= TotalDays && tally == Counted(dayMeals)
    modifies provider
    ensures tally' == Counted(dayMeals')
    ensures round == Recorded ==> Remaining(mealsPerDay, meals') < Remaining(mealsPerDay, meals)
    ensures round != Recorded ==> meals' == meals && used' == used
    ensures Continues(PlanRun(batcher, mealsPerDay, day, dayMeals, meals, used, old(provider.replies)), old(provider.sent),
      provider.sent, RoundAfter(batcher, round, mealsPerDay, day, dayMeals', meals', used', provider.replies))
  {
    var generated := tally.Total();
    var needed := NeededTypes(tally, mealsPerDay);
    if !(generated < mealsPerDay && |meals| < PlanLimit(mealsPerDay)) || needed == [] {
      PlanRunEnd(batcher, mealsPerDay, day, dayMeals, meals, used, provider.replies);
      SentNothing(provider.sent);
      return Stopped, tally, dayMeals, meals, used;
    }
    var size := Min3(|needed|, BatchSize, mealsPerDay - generated);
    round, tally', dayMeals', meals', used' :=
      BatchRound(provider, mealsPerDay, day, tally, dayMeals, meals, used, loads, size, needed, batcher);
  }

  /** What the plan still does after a day that ended with `ok`, from day `day` on. */
  function NextDay(batcher: BatchFn, ok: bool, mealsPerDay: int, day: int, meals: seq<Json>, used: seq<string>,
                   replies: Replies): Run<Option<seq<Json>>>
  {
    if ok then DayPlan(batcher, mealsPerDay, day, meals, used, replies) else Run(None, replies, [])
  }

  /**
   * The `while` loop of one day, a round at a time. `ok` is false when
   * the bookkeeping raised; otherwise the plan and the used names when
   * the day ends.
   */
  method GenerateDay(provider: Provider, mealsPerDay: int, day: int, meals: seq<Json>, used: seq<string>,
                     loads: string -> Option<Json>, ghost batcher: BatchFn)
    returns (ok: bool, meals': seq<Json>, used': seq<string>)
    requires Serves(batcher, loads)
    requires 1 <= day <= TotalDays
    modifies provider
    ensures Continues(DayPlan(batcher, mealsPerDay, day, meals, used, old(provider.replies)), old(provider.sent),
      provider.sent, NextDay(batcher, ok, mealsPerDay, day + 1, meals', used', provider.replies))
  {
    ghost var dayStart := PlanRun(batcher, mealsPerDay, day, [], meals, used, provider.replies);
    ghost var sent0 := provider.sent;
    ghost var dayMeals: seq<Json> := [];
    meals', used' := meals, used;
    var tally := Zero;
    var round := Recorded;
    while round == Recorded
      invariant tally == Counted(dayMeals)
      invariant Continues(dayStart, sent0, provider.sent,
        RoundAfter(batcher, round, mealsPerDay, day, dayMeals, meals', used', provider.replies))
      decreases Remaining(mealsPerDay, meals'), if round == Recorded then 1 else 0
    {
      round, tally, dayMeals, meals', used' :=
        DayRound(provider, mealsPerDay, day, tally, dayMeals, meals', used', loads, batcher);
    }
    return round == Stopped, meals', used';
  }

  /** The `for` loop over the seven days. */
  method GenerateWeek(provider: Provider, mealsPerDay: int, loads: string -> Option<Json>, ghost batcher: BatchFn)
    returns (r: Option<seq<Json>>)
    requires Serves(batcher, loads)
    modifies provider
    ensures Continues(DayPlan(batcher, mealsPerDay, 1, [], [], old(provider.replies)), old(provider.sent),
      provider.sent, Run(r, provider.replies, []))
  {
    ghost var total := DayPlan(batcher, mealsPerDay, 1, [], [], provider.replies);
    ghost var sent0 := provider.sent;
    var allMeals: seq<Json> := [];
    var used: seq<string> := [];
    var day := 1;
    while day <= TotalDays
      invariant 1 <= day <= TotalDays + 1
      invariant Continues(total, sent0, provider.sent, DayPlan(batcher, mealsPerDay, day, allMeals, used, provider.replies))
    {
      var ok;
      ok, allMeals, used := GenerateDay(provider, mealsPerDay, day, allMeals, used, loads, batcher);
      if !ok {
        SentNothing(provider.sent);
        return None;
      }
      day := day + 1;
    }
    SentNothing(provider.sent);
    return Some(allMeals);
  }

  method GenerateMultiDayMealsBatched(provider: Provider, mealsPerDay: int, loads: string -> Option<Json>)
    returns (r: Option<seq<Json>>)
    modifies provider
    ensures var run := MultiDayRun(mealsPerDay, old(provider.replies), loads);
      r == run.result && provider.replies == run.rest && provider.sent == old(provider.sent) + run.prompts
  {
    BatcherServes(loads);
    r := GenerateWeek(provider, mealsPerDay, loads, Batcher(loads));
    SentNothing(provider.sent);
  }
}
