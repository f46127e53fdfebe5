/**
 * The meal context of the shopping-list prompt: whether the plan spans
 * several days, the `days_meals` dict that groups meal names by day and
 * by type, and the days 1 to 7 it lists.
 *
 * `days_meals` is keyed by whatever the meals hold under `day` and
 * `meal_type`, so its keys compare with Python's equality (`1 == 1.0 ==
 * True`); a `KeyDict` is such a dict, kept in insertion order.
 */
module Shopping {
  import opened Wrappers
  import opened Text
  import opened Json

  /** Days the multi-day context lists. */
  const PlanDays: nat := 7
  /** `meal.get('day', 1)` */
  const DefaultDay: Json := JNum(1.0)
  /** `meal.get('meal_type', 'General')` */
  const DefaultType: Json := JStr("General")

  // ------------------------------------------------------------ mode

  /**
   * `'day' in meal`: a key test on a dict, a substring test on a string,
   * an element test on a list, and a TypeError (`None`) on anything else.
   */
  function HasDayKey(meal: Json): Option<bool> {
    match meal
    case JObj(fields) => Some(HasKey(fields, "day"))
    case JStr(s) => Some(HasSubstring(s, "day"))
    case JArr(items) => Some(JStr("day") in items)
    case _ => None
  }

  /** `any('day' in meal for meal in meals)`, which stops at the first `True`. */
  function AnyHasDay(meals: seq<Json>): Option<bool>
    decreases |meals|
  {
    if meals == [] then Some(false)
    else
      match HasDayKey(meals[0])
      case None => None
      case Some(b) => if b then Some(true) else AnyHasDay(meals[1..])
  }

  /**
   * `any` is true exactly when some meal has a `day` and every meal before
   * it could be tested, and false exactly when every meal was tested and
   * none has one.
   */
  lemma {:induction false} AnyHasDaySpec(meals: seq<Json>)
    ensures AnyHasDay(meals) == Some(true) <==>
      exists i :: 0 <= i < |meals| && HasDayKey(meals[i]) == Some(true) &&
        forall k :: 0 <= k < i ==> HasDayKey(meals[k]) == Some(false)
    ensures AnyHasDay(meals) == Some(false) <==> forall i :: 0 <= i < |meals| ==> HasDayKey(meals[i]) == Some(false)
    decreases |meals|
  {
    if meals != [] {
      var rest := meals[1..];
      AnyHasDaySpec(rest);
      assert forall k :: 0 <= k < |rest| ==> rest[k] == meals[k + 1];
      if AnyHasDay(meals) == Some(true) && HasDayKey(meals[0]) != Some(true) {
        var j :| 0 <= j < |rest| && HasDayKey(rest[j]) == Some(true) &&
          forall k :: 0 <= k < j ==> HasDayKey(rest[k]) == Some(false);
        assert HasDayKey(meals[j + 1]) == Some(true);
        assert forall k :: 1 <= k < j + 1 ==> HasDayKey(meals[k]) == Some(false);
      }
      if exists i :: 0 <= i < |meals| && HasDayKey(meals[i]) == Some(true) &&
          forall k :: 0 <= k < i ==> HasDayKey(meals[k]) == Some(false) {
        var i :| 0 <= i < |meals| && HasDayKey(meals[i]) == Some(true) &&
          forall k :: 0 <= k < i ==> HasDayKey(meals[k]) == Some(false);
        if i > 0 {
          assert HasDayKey(rest[i - 1]) == Some(true);
        }
      }
    }
  }

  /** On a list of dicts, `any` is exactly "some meal has a `day` key". */
  lemma {:induction false} AnyHasDayOfObjects(meals: seq<Json>)
    requires forall i :: 0 <= i < |meals| ==> meals[i].JObj?
    ensures AnyHasDay(meals) == Some(exists i :: 0 <= i < |meals| && HasKey(meals[i].fields, "day"))
  {
    AnyHasDaySpec(meals);
    if exists i :: 0 <= i < |meals| && HasKey(meals[i].fields, "day") {
      var i :| 0 <= i < |meals| && HasKey(meals[i].fields, "day");
      FirstWithDay(meals, i);
    }
  }

  lemma {:induction false} FirstWithDay(meals: seq<Json>, i: nat)
    requires i < |meals| && forall k :: 0 <= k < |meals| ==> meals[k].JObj?
    requires HasKey(meals[i].fields, "day")
    ensures exists j :: 0 <= j < |meals| && HasDayKey(meals[j]) == Some(true) &&
                        forall k :: 0 <= k < j ==> HasDayKey(meals[k]) == Some(false)
    decreases i
  {
    if exists j :: 0 <= j < i && HasKey(meals[j].fields, "day") {
      var j :| 0 <= j < i && HasKey(meals[j].fields, "day");
      FirstWithDay(meals, j);
    } else {
      assert HasDayKey(meals[i]) == Some(true);
    }
  }

  // ------------------------------------------------------------ dicts with Python keys

  /** A dict whose keys are parsed values, in insertion order. */
  type KeyDict<V> = seq<(Json, V)>

  /** Where `k` sits in `d` under Python's key equality. */
  function Find<V>(d: KeyDict<V>, k: Json): (r: Option<nat>)
    ensures r.Some? ==> r.value < |d| && KeyEq(d[r.value].0, k)
    ensures r.Some? ==> forall i :: 0 <= i < r.value ==> !KeyEq(d[i].0, k)
    ensures r.None? ==> forall i :: 0 <= i < |d| ==> !KeyEq(d[i].0, k)
    decreases |d|
  {
    if d == [] then None
    else if KeyEq(d[0].0, k) then Some(0)
    else
      match Find(d[1..], k)
      case None => None
      case Some(j) => Some(j + 1)
  }

  /** No two keys of `d` are equal. */
  predicate KeysDistinct<V>(d: KeyDict<V>) {
    forall i, j :: 0 <= i < j < |d| ==> !KeyEq(d[i].0, d[j].0)
  }

  lemma KeyEqEquivalence(a: Json, b: Json, c: Json)
    ensures KeyEq(a, a)
    ensures KeyEq(a, b) ==> KeyEq(b, a)
    ensures KeyEq(a, b) && KeyEq(b, c) ==> KeyEq(a, c)
  {
  }

  /** Equal keys are found at the same place. */
  lemma FindEqualKeys<V>(d: KeyDict<V>, a: Json, b: Json)
    requires KeyEq(a, b)
    ensures Find(d, a) == Find(d, b)
  {
    forall i | 0 <= i < |d| ensures KeyEq(d[i].0, a) <==> KeyEq(d[i].0, b) {
      KeyEqEquivalence(d[i].0, a, b);
      KeyEqEquivalence(d[i].0, b, a);
      KeyEqEquivalence(a, b, d[i].0);
    }
  }

  /** Lookups only depend on the keys. */
  lemma FindSameKeys<V>(d: KeyDict<V>, e: KeyDict<V>, k: Json)
    requires |d| == |e| && forall i :: 0 <= i < |d| ==> d[i].0 == e[i].0
    ensures Find(d, k) == Find(e, k)
  {
  }

  /** A key appended at the end is found there unless an equal key comes first. */
  lemma {:induction false} FindAppended<V>(d: KeyDict<V>, k: Json, v: V, k': Json)
    ensures Find(d + [(k, v)], k') ==
      if Find(d, k').Some? then Find(d, k') else if KeyEq(k, k') then Some(|d|) else None
    decreases |d|
  {
    if d != [] {
      FindAppended(d[1..], k, v, k');
      assert (d + [(k, v)])[1..] == d[1..] + [(k, v)];
    }
  }

  // ------------------------------------------------------------ grouping

  /** Names grouped by meal type. */
  type TypeDict = KeyDict<seq<Json>>
  /** `days_meals`: type groups by day. */
  type DayDict = KeyDict<TypeDict>

  /** What grouping needs of a meal: a dict whose day and type can be keys and that has a name. */
  predicate Groupable(meal: Json) {
    && meal.JObj?
    && Hashable(GetOr(meal.fields, "day", DefaultDay))
    && Hashable(GetOr(meal.fields, "meal_type", DefaultType))
    && HasKey(meal.fields, "name")
  }

  function DayOf(meal: Json): Json
    requires meal.JObj?
  {
    GetOr(meal.fields, "day", DefaultDay)
  }

  function TypeOf(meal: Json): Json
    requires meal.JObj?
  {
    GetOr(meal.fields, "meal_type", DefaultType)
  }

  function NameOf(meal: Json): Json
    requires meal.JObj? && HasKey(meal.fields, "name")
  {
    Get(meal.fields, "name").value
  }

  /** `if meal_type not in types: types[meal_type] = []`, then `types[meal_type].append(name)`. */
  function AppendName(types: TypeDict, ty: Json, name: Json): (r: TypeDict) {
    var t1 := if Find(types, ty).None? then types + [(ty, [])] else types;
    FindAppended(types, ty, [], ty);
    KeyEqEquivalence(ty, ty, ty);
    var j := Find(t1, ty).value;
    t1[j := (t1[j].0, t1[j].1 + [name])]
  }

  /** One meal recorded in `days_meals`: its day and type groups are created on demand. */
  function AddName(days: DayDict, day: Json, ty: Json, name: Json): (r: DayDict) {
    var d1 := if Find(days, day).None? then days + [(day, [])] else days;
    FindAppended(days, day, [], day);
    KeyEqEquivalence(day, day, day);
    var i := Find(d1, day).value;
    d1[i := (d1[i].0, AppendName(d1[i].1, ty, name))]
  }

  /** The grouping loop as a fold: `None` where the source raises. */
  function GroupSpec(meals: seq<Json>): Option<DayDict>
    decreases |meals|
  {
    if meals == [] then Some([])
    else
      var m := meals[|meals| - 1];
      match GroupSpec(meals[..|meals| - 1])
      case None => None
      case Some(days) =>
        if Groupable(m) then Some(AddName(days, DayOf(m), TypeOf(m), NameOf(m))) else None
  }

  /** Groups the meals the way the source fills `days_meals`. */
  method GroupMeals(meals: seq<Json>) returns (r: Option<DayDict>)
    ensures r == GroupSpec(meals)
  {
    var daysMeals: DayDict := [];
    var i := 0;
    while i < |meals|
      invariant 0 <= i <= |meals|
      invariant GroupSpec(meals[..i]) == Some(daysMeals)
    {
      var meal := meals[i];
      assert meals[..i + 1][..i] == meals[..i];
      if !Groupable(meal) {
        GroupSpecFails(meals, i + 1);
        return None;
      }
      var day := DayOf(meal);
      var mealType := TypeOf(meal);
      var withDay := daysMeals;
      if Find(daysMeals, day).None? {
        withDay := daysMeals + [(day, [])];
      }
      FindAppended(daysMeals, day, [], day);
      KeyEqEquivalence(day, day, day);
      var at := Find(withDay, day).value;
      daysMeals := withDay[at := (withDay[at].0, AppendName(withDay[at].1, mealType, NameOf(meal)))];
      i := i + 1;
    }
    assert meals[..i] == meals;
    return Some(daysMeals);
  }

  /** Once a prefix raises, the whole loop raises. */
  lemma {:induction false} GroupSpecFails(meals: seq<Json>, n: nat)
    requires n <= |meals| && GroupSpec(meals[..n]) == None
    ensures GroupSpec(meals) == None
    decreases |meals| - n
  {
    if n < |meals| {
      assert meals[..n + 1][..n] == meals[..n];
      GroupSpecFails(meals, n + 1);
    } else {
      assert meals[..n] == meals;
    }
  }

  /** `GroupSpec` is defined exactly when every meal can be grouped. */
  lemma {:induction false} GroupSpecDefined(meals: seq<Json>)
    ensures GroupSpec(meals).Some? <==> forall i :: 0 <= i < |meals| ==> Groupable(meals[i])
    decreases |meals|
  {
    if meals != [] {
      GroupSpecDefined(meals[..|meals| - 1]);
      GroupSpecStep(meals);
      AllInit(meals, meals[..|meals| - 1]);
    }
  }

  /** All meals are groupable exactly when all but the last are and the last is. */
  lemma AllInit(meals: seq<Json>, init: seq<Json>)
    requires meals != [] && init == meals[..|meals| - 1]
    ensures (forall i :: 0 <= i < |meals| ==> Groupable(meals[i])) <==>
      (forall i :: 0 <= i < |init| ==> Groupable(init[i])) && Groupable(meals[|meals| - 1])
  {
    assert forall i :: 0 <= i < |init| ==> init[i] == meals[i];
  }

  lemma GroupSpecStep(meals: seq<Json>)
    requires meals != []
    ensures GroupSpec(meals).Some? <==>
      GroupSpec(meals[..|meals| - 1]).Some? && Groupable(meals[|meals| - 1])
  {
  }

  // ------------------------------------------------------------ grouping is a partition

  /** The names `days_meals` holds for day `d` and type `t`, none when either is absent. */
  function TypeNames(types: TypeDict, t: Json): seq<Json> {
    match Find(types, t)
    case None => []
    case Some(j) => types[j].1
  }

  function Lookup(days: DayDict, d: Json, t: Json): seq<Json> {
    match Find(days, d)
    case None => []
    case Some(i) => TypeNames(days[i].1, t)
  }

  /** Reference: the names of the meals whose day equals `d` and whose type equals `t`, in order. */
  function NamesWith(meals: seq<Json>, d: Json, t: Json): seq<Json>
    decreases |meals|
  {
    if meals == [] then []
    else
      var m := meals[|meals| - 1];
      NamesWith(meals[..|meals| - 1], d, t)
      + (if Groupable(m) && KeyEq(DayOf(m), d) && KeyEq(TypeOf(m), t) then [NameOf(m)] else [])
  }

  lemma AppendNameLookup(types: TypeDict, ty: Json, name: Json, t: Json)
    ensures TypeNames(AppendName(types, ty, name), t) ==
      TypeNames(types, t) + (if KeyEq(ty, t) then [name] else [])
  {
    var t1 := if Find(types, ty).None? then types + [(ty, [])] else types;
    FindAppended(types, ty, [], ty);
    FindAppended(types, ty, [], t);
    KeyEqEquivalence(ty, ty, ty);
    var j := Find(t1, ty).value;
    var r := t1[j := (t1[j].0, t1[j].1 + [name])];
    assert AppendName(types, ty, name) == r;
    FindSameKeys(t1, r, t);
    if KeyEq(ty, t) {
      FindEqualKeys(t1, ty, t);
    } else if Find(t1, t).Some? {
      var k := Find(t1, t).value;
      if k == j {
        KeyEqEquivalence(t1[j].0, ty, t);
        KeyEqEquivalence(ty, t1[j].0, t);
      }
    }
  }

  /** Recording one meal adds its name to exactly the lookups its day and type answer. */
  lemma AddNameLookup(days: DayDict, day: Json, ty: Json, name: Json, d: Json, t: Json)
    ensures Lookup(AddName(days, day, ty, name), d, t) ==
      Lookup(days, d, t) + (if KeyEq(day, d) && KeyEq(ty, t) then [name] else [])
  {
    var d1 := if Find(days, day).None? then days + [(day, [])] else days;
    FindAppended(days, day, [], day);
    FindAppended(days, day, [], d);
    KeyEqEquivalence(day, day, day);
    var i := Find(d1, day).value;
    var r := d1[i := (d1[i].0, AppendName(d1[i].1, ty, name))];
    assert AddName(days, day, ty, name) == r;
    FindSameKeys(d1, r, d);
    AppendNameLookup(d1[i].1, ty, name, t);
    if KeyEq(day, d) {
      FindEqualKeys(d1, day, d);
    } else if Find(d1, d).Some? {
      var k := Find(d1, d).value;
      if k == i {
        KeyEqEquivalence(d1[i].0, day, d);
        KeyEqEquivalence(day, d1[i].0, d);
      }
    }
  }

  /**
   * Grouping is a partition: for every day and type, `days_meals` holds
   * exactly the names of the meals with that day and that type, in the
   * order the meals came.
   */
  lemma {:induction false} GroupedNames(meals: seq<Json>, d: Json, t: Json)
    requires GroupSpec(meals).Some?
    ensures forall i :: 0 <= i < |meals| ==> Groupable(meals[i])
    ensures Lookup(GroupSpec(meals).value, d, t) == NamesWith(meals, d, t)
    decreases |meals|
  {
    GroupSpecDefined(meals);
    if meals != [] {
      var init := meals[..|meals| - 1];
      var m := meals[|meals| - 1];
      GroupedNames(init, d, t);
      AddNameLookup(GroupSpec(init).value, DayOf(m), TypeOf(m), NameOf(m), d, t);
    }
  }

  /**
   * No two keys of the dict, nor of any of its type groups, are equal, and
   * every type group holds at least one name.
   */
  predicate WellKeyed(days: DayDict) {
    && KeysDistinct(days)
    && forall i :: 0 <= i < |days| ==> KeysDistinct(days[i].1) && Filled(days[i].1)
  }

  predicate Filled(types: TypeDict) {
    forall j :: 0 <= j < |types| ==> types[j].1 != []
  }

  /** In a dict without equal keys, each key is found at its own position. */
  lemma FindDistinct<V>(d: KeyDict<V>, j: nat)
    requires KeysDistinct(d) && j < |d|
    ensures Find(d, d[j].0) == Some(j)
  {
    KeyEqEquivalence(d[j].0, d[j].0, d[j].0);
  }

  lemma AppendedDistinct<V>(d: KeyDict<V>, k: Json, v: V)
    requires KeysDistinct(d) && Find(d, k).None?
    ensures KeysDistinct(d + [(k, v)])
  {
    var e := d + [(k, v)];
    forall i, j | 0 <= i < j < |e| ensures !KeyEq(e[i].0, e[j].0) {
      if j == |d| {
        assert e[i] == d[i];
      } else {
        assert e[i] == d[i] && e[j] == d[j];
      }
    }
  }

  lemma AppendNameDistinct(types: TypeDict, ty: Json, name: Json)
    requires KeysDistinct(types) && Filled(types)
    ensures KeysDistinct(AppendName(types, ty, name)) && Filled(AppendName(types, ty, name))
  {
    if Find(types, ty).None? {
      AppendedDistinct(types, ty, []);
    }
    FindAppended(types, ty, [], ty);
    KeyEqEquivalence(ty, ty, ty);
  }

  lemma AddNameWellKeyed(days: DayDict, day: Json, ty: Json, name: Json)
    requires WellKeyed(days)
    ensures WellKeyed(AddName(days, day, ty, name))
  {
    var d1 := if Find(days, day).None? then days + [(day, [])] else days;
    if Find(days, day).None? {
      AppendedDistinct(days, day, []);
    }
    FindAppended(days, day, [], day);
    KeyEqEquivalence(day, day, day);
    var i := Find(d1, day).value;
    assert KeysDistinct(d1[i].1) && Filled(d1[i].1);
    AppendNameDistinct(d1[i].1, ty, name);
    var r := d1[i := (d1[i].0, AppendName(d1[i].1, ty, name))];
    assert AddName(days, day, ty, name) == r;
    assert forall j :: 0 <= j < |r| ==> r[j].0 == d1[j].0;
  }

  lemma {:induction false} GroupSpecWellKeyed(meals: seq<Json>)
    requires GroupSpec(meals).Some?
    ensures WellKeyed(GroupSpec(meals).value)
    decreases |meals|
  {
    if meals != [] {
      var init := meals[..|meals| - 1];
      var m := meals[|meals| - 1];
      GroupSpecWellKeyed(init);
      AddNameWellKeyed(GroupSpec(init).value, DayOf(m), TypeOf(m), NameOf(m));
    }
  }

  /** Recording a meal adds its day, and no other, to the days present. */
  lemma AddNameDays(days: DayDict, day: Json, ty: Json, name: Json, d: Json)
    ensures Find(AddName(days, day, ty, name), d).Some? <==> Find(days, d).Some? || KeyEq(day, d)
  {
    var d1 := if Find(days, day).None? then days + [(day, [])] else days;
    FindAppended(days, day, [], day);
    FindAppended(days, day, [], d);
    KeyEqEquivalence(day, day, day);
    var i := Find(d1, day).value;
    var r := d1[i := (d1[i].0, AppendName(d1[i].1, ty, name))];
    assert AddName(days, day, ty, name) == r;
    FindSameKeys(d1, r, d);
    if KeyEq(day, d) {
      FindEqualKeys(d1, day, d);
    }
  }

  /** Some meal in `meals` can be grouped and is of day `d`. */
  predicate HasMealOfDay(meals: seq<Json>, d: Json) {
    exists i :: 0 <= i < |meals| && Groupable(meals[i]) && KeyEq(DayOf(meals[i]), d)
  }

  lemma HasMealOfDaySnoc(init: seq<Json>, m: Json, d: Json)
    ensures HasMealOfDay(init + [m], d) <==> HasMealOfDay(init, d) || (Groupable(m) && KeyEq(DayOf(m), d))
  {
    var ms := init + [m];
    if HasMealOfDay(init, d) {
      var i :| 0 <= i < |init| && Groupable(init[i]) && KeyEq(DayOf(init[i]), d);
      assert ms[i] == init[i];
    }
    if HasMealOfDay(ms, d) {
      var i :| 0 <= i < |ms| && Groupable(ms[i]) && KeyEq(DayOf(ms[i]), d);
      if i < |init| {
        assert ms[i] == init[i];
      }
    }
    assert ms[|init|] == m;
  }

  lemma HasMealOfDayLast(meals: seq<Json>, d: Json)
    requires meals != []
    ensures HasMealOfDay(meals, d) <==>
      HasMealOfDay(meals[..|meals| - 1], d) || (Groupable(meals[|meals| - 1]) && KeyEq(DayOf(meals[|meals| - 1]), d))
  {
    assert meals == meals[..|meals| - 1] + [meals[|meals| - 1]];
    HasMealOfDaySnoc(meals[..|meals| - 1], meals[|meals| - 1], d);
  }

  /** A day has a group exactly when some meal is of that day. */
  lemma {:induction false} GroupedDays(meals: seq<Json>, d: Json)
    requires GroupSpec(meals).Some?
    ensures Find(GroupSpec(meals).value, d).Some? <==> HasMealOfDay(meals, d)
    decreases |meals|
  {
    if meals != [] {
      var init := meals[..|meals| - 1];
      var m := meals[|meals| - 1];
      GroupedDays(init, d);
      AddNameDays(GroupSpec(init).value, DayOf(m), TypeOf(m), NameOf(m), d);
      HasMealOfDayLast(meals, d);
    }
  }

  // ------------------------------------------------------------ the context

  /** `', '.join(names)` needs strings: a TypeError (`None`) otherwise. */
  function JoinableNames(names: seq<Json>): (r: Option<seq<string>>)
    ensures r.Some? <==> forall i :: 0 <= i < |names| ==> names[i].JStr?
    ensures r.Some? ==> |r.value| == |names|
    ensures r.Some? ==> forall i :: 0 <= i < |names| ==> names[i] == JStr(r.value[i])
  {
    if forall i :: 0 <= i < |names| ==> names[i].JStr? then
      Some(seq(|names|, i requires 0 <= i < |names| => names[i].s))
    else None
  }

  /** The lines of one listed day: each type with its joined names, in insertion order. */
  function StringGroups(types: TypeDict): (r: Option<seq<(Json, seq<string>)>>)
    ensures r.Some? <==> forall j :: 0 <= j < |types| ==> JoinableNames(types[j].1).Some?
    ensures r.Some? ==> |r.value| == |types|
    ensures r.Some? ==> forall j :: 0 <= j < |types| ==> r.value[j] == (types[j].0, JoinableNames(types[j].1).value)
  {
    if forall j :: 0 <= j < |types| ==> JoinableNames(types[j].1).Some? then
      Some(seq(|types|, j requires 0 <= j < |types| => (types[j].0, JoinableNames(types[j].1).value)))
    else None
  }

  /** The integer day `d` of `range(1, 8)` as a key. */
  function DayKey(d: nat): Json {
    JNum(d as real)
  }

  /** One listed day of the seven-day context. */
  datatype DayBlock = DayBlock(day: nat, groups: seq<(Json, seq<string>)>)

  /** What the seven-day context lists for days 1 to `n`. */
  function Blocks(days: DayDict, n: nat): Option<seq<DayBlock>>
    decreases n
  {
    if n == 0 then Some([])
    else
      match Blocks(days, n - 1)
      case None => None
      case Some(blocks) =>
        match Find(days, DayKey(n))
        case None => Some(blocks)
        case Some(i) =>
          match StringGroups(days[i].1)
          case None => None
          case Some(groups) => Some(blocks + [DayBlock(n, groups)])
  }

  /**
   * The listed days are increasing and within 1 to `n`; a day is listed
   * exactly when `days_meals` has it; a listed day shows its type groups
   * with their names joined.
   */
  lemma BlocksSpec(days: DayDict, n: nat)
    requires Blocks(days, n).Some?
    ensures var bs := Blocks(days, n).value;
      && (forall k :: 0 <= k < |bs| ==> 1 <= bs[k].day <= n)
      && (forall a, b :: 0 <= a < b < |bs| ==> bs[a].day < bs[b].day)
      && (forall d :: 1 <= d <= n ==> (Find(days, DayKey(d)).Some? <==> exists k :: 0 <= k < |bs| && bs[k].day == d))
      && (forall k :: 0 <= k < |bs| ==>
            Find(days, DayKey(bs[k].day)).Some? &&
            StringGroups(days[Find(days, DayKey(bs[k].day)).value].1) == Some(bs[k].groups))
  {
    BlocksOrdered(days, n);
    BlocksListed(days, n);
    BlocksShowGroups(days, n);
  }

  lemma {:induction false} BlocksOrdered(days: DayDict, n: nat)
    requires Blocks(days, n).Some?
    ensures var bs := Blocks(days, n).value;
      && (forall k :: 0 <= k < |bs| ==> 1 <= bs[k].day <= n)
      && (forall a, b :: 0 <= a < b < |bs| ==> bs[a].day < bs[b].day)
    decreases n
  {
    if n > 0 {
      BlocksOrdered(days, n - 1);
    }
  }

  lemma {:induction false} BlocksListed(days: DayDict, n: nat)
    requires Blocks(days, n).Some?
    ensures var bs := Blocks(days, n).value;
      forall d :: 1 <= d <= n ==> (Find(days, DayKey(d)).Some? <==> exists k :: 0 <= k < |bs| && bs[k].day == d)
    decreases n
  {
    if n > 0 {
      BlocksListed(days, n - 1);
      BlocksOrdered(days, n - 1);
      var prev := Blocks(days, n - 1).value;
      var bs := Blocks(days, n).value;
      assert forall k :: 0 <= k < |prev| ==> bs[k] == prev[k];
      forall d | 1 <= d <= n
        ensures Find(days, DayKey(d)).Some? <==> exists k :: 0 <= k < |bs| && bs[k].day == d
      {
        if d == n && Find(days, DayKey(d)).Some? {
          assert bs[|bs| - 1].day == d;
        }
        if d < n && Find(days, DayKey(d)).Some? {
          var k :| 0 <= k < |prev| && prev[k].day == d;
          assert bs[k].day == d;
        }
      }
    }
  }

  lemma {:induction false} BlocksShowGroups(days: DayDict, n: nat)
    requires Blocks(days, n).Some?
    ensures var bs := Blocks(days, n).value;
      forall k :: 0 <= k < |bs| ==>
        Find(days, DayKey(bs[k].day)).Some? &&
        StringGroups(days[Find(days, DayKey(bs[k].day)).value].1) == Some(bs[k].groups)
    decreases n
  {
    if n > 0 {
      BlocksShowGroups(days, n - 1);
    }
  }

  /** Builds the seven-day listing, day by day and type by type. */
  method ListDays(days: DayDict) returns (r: Option<seq<DayBlock>>)
    ensures r == Blocks(days, PlanDays)
  {
    var blocks: seq<DayBlock> := [];
    var day: nat := 1;
    while day <= PlanDays
      invariant 1 <= day <= PlanDays + 1
      invariant Blocks(days, day - 1) == Some(blocks)
    {
      var at := Find(days, DayKey(day));
      if at.Some? {
        var types := days[at.value].1;
        var groups: seq<(Json, seq<string>)> := [];
        var j := 0;
        while j < |types|
          invariant 0 <= j <= |types|
          invariant forall k :: 0 <= k < j ==> JoinableNames(types[k].1).Some?
          invariant groups == seq(j, k requires 0 <= k < j => (types[k].0, JoinableNames(types[k].1).value))
        {
          var joined := JoinableNames(types[j].1);
          if joined.None? {
            BlocksFail(days, day, PlanDays);
            return None;
          }
          groups := groups + [(types[j].0, joined.value)];
          j := j + 1;
        }
        blocks := blocks + [DayBlock(day, groups)];
      }
      day := day + 1;
    }
    return Some(blocks);
  }

  /** A day whose names cannot be joined makes the whole listing raise. */
  lemma {:induction false} BlocksFail(days: DayDict, d: nat, n: nat)
    requires 1 <= d <= n
    requires Find(days, DayKey(d)).Some? && StringGroups(days[Find(days, DayKey(d)).value].1).None?
    ensures Blocks(days, n).None?
    decreases n
  {
    if d < n {
      BlocksFail(days, d, n - 1);
    }
  }

  /** `- {meal['name']}` for every meal: each must be a dict with a name. */
  function SingleDayNames(meals: seq<Json>): (r: Option<seq<Json>>)
    ensures r.Some? <==> forall i :: 0 <= i < |meals| ==> meals[i].JObj? && HasKey(meals[i].fields, "name")
    ensures r.Some? ==> |r.value| == |meals|
    ensures r.Some? ==> forall i :: 0 <= i < |meals| ==> r.value[i] == NameOf(meals[i])
  {
    if forall i :: 0 <= i < |meals| ==> meals[i].JObj? && HasKey(meals[i].fields, "name") then
      Some(seq(|meals|, i requires 0 <= i < |meals| => NameOf(meals[i])))
    else None
  }

  /** The meals as the shopping prompt lists them. */
  datatype MealsContext =
    | SevenDays(blocks: seq<DayBlock>)
    | OneDay(names: seq<Json>)

  /** The context, or `None` where the source raises before querying. */
  function ContextSpec(meals: seq<Json>): Option<MealsContext> {
    match AnyHasDay(meals)
    case None => None
    case Some(multi) =>
      if multi then
        match GroupSpec(meals)
        case None => None
        case Some(days) =>
          match Blocks(days, PlanDays)
          case None => None
          case Some(blocks) => Some(SevenDays(blocks))
      else
        match SingleDayNames(meals)
        case None => None
        case Some(names) => Some(OneDay(names))
  }

  /** `is_multi_day_plan`, the grouping and the listing, in the source's order. */
  method BuildContext(meals: seq<Json>) returns (r: Option<MealsContext>)
    ensures r == ContextSpec(meals)
  {
    var multi := AnyHasDay(meals);
    if multi.None? {
      return None;
    }
    if multi.value {
      var days := GroupMeals(meals);
      if days.None? {
        return None;
      }
      var blocks := ListDays(days.value);
      if blocks.None? {
        return None;
      }
      return Some(SevenDays(blocks.value));
    } else {
      var names := SingleDayNames(meals);
      if names.None? {
        return None;
      }
      return Some(OneDay(names.value));
    }
  }

  /**
   * The plan is treated as multi-day exactly when some meal (all of them
   * dicts once the context exists) has a `day` key.
   */
  lemma ContextMode(meals: seq<Json>)
    requires ContextSpec(meals).Some?
    ensures forall i :: 0 <= i < |meals| ==> meals[i].JObj?
    ensures ContextSpec(meals).value.SevenDays? <==> exists i :: 0 <= i < |meals| && HasKey(meals[i].fields, "day")
  {
    if AnyHasDay(meals) == Some(true) {
      GroupSpecDefined(meals);
    }
    AnyHasDayOfObjects(meals);
  }

  /**
   * The seven-day context lists days in increasing order, each of 1 to 7
   * exactly when some meal is of that day; under a listed day, each type
   * shows exactly the names of the meals of that day and type, in the
   * order the meals came.
   */
  lemma SevenDayContext(meals: seq<Json>)
    requires ContextSpec(meals).Some? && ContextSpec(meals).value.SevenDays?
    ensures var bs := ContextSpec(meals).value.blocks;
      && (forall a, b :: 0 <= a < b < |bs| ==> bs[a].day < bs[b].day)
      && (forall d :: 1 <= d <= PlanDays ==> (HasMealOfDay(meals, DayKey(d)) <==> exists k :: 0 <= k < |bs| && bs[k].day == d))
      && (forall k, j :: 0 <= k < |bs| && 0 <= j < |bs[k].groups| ==>
            1 <= bs[k].day <= PlanDays &&
            JStrs(bs[k].groups[j].1) == NamesWith(meals, DayKey(bs[k].day), bs[k].groups[j].0))
  {
    var days := GroupSpec(meals).value;
    var bs := ContextSpec(meals).value.blocks;
    BlocksSpec(days, PlanDays);
    GroupSpecWellKeyed(meals);
    forall d | 1 <= d <= PlanDays
      ensures HasMealOfDay(meals, DayKey(d)) <==> exists k :: 0 <= k < |bs| && bs[k].day == d
    {
      GroupedDays(meals, DayKey(d));
    }
    forall k, j | 0 <= k < |bs| && 0 <= j < |bs[k].groups|
      ensures JStrs(bs[k].groups[j].1) == NamesWith(meals, DayKey(bs[k].day), bs[k].groups[j].0)
    {
      var i := Find(days, DayKey(bs[k].day)).value;
      var types := days[i].1;
      FindDistinct(types, j);
      GroupedNames(meals, DayKey(bs[k].day), types[j].0);
      JStrsOfJoined(types[j].1);
    }
  }

  /** Strings back as parsed values. */
  function JStrs(names: seq<string>): (r: seq<Json>)
    ensures |r| == |names| && forall i :: 0 <= i < |names| ==> r[i] == JStr(names[i])
  {
    seq(|names|, i requires 0 <= i < |names| => JStr(names[i]))
  }

  lemma JStrsOfJoined(names: seq<Json>)
    requires JoinableNames(names).Some?
    ensures JStrs(JoinableNames(names).value) == names
  {
  }
}
