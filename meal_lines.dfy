/**
 * The pipe-delimited meal format of the fallback prompt,
 * `name|calories|protein|carbs|fat|prepTime|difficulty|tags`, and how a
 * reply in that format becomes meal records.
 */
module MealLines {
  import opened Wrappers
  import opened Text
  import opened Json

  const FieldSep: char := '|'
  const TagSep: char := ','
  const LineSep: char := '\n'
  /** A line needs at least this many `|`-separated fields. */
  const MinFields: nat := 8

  /** One meal line, as the fallback prompt asks for it. */
  datatype MealLine = MealLine(
    name: string, calories: int, protein: int, carbs: int, fat: int, prepTime: int,
    difficulty: string, tags: seq<string>)

  /** `[tag.strip() for tag in pieces if tag.strip()]` */
  function KeepTags(pieces: seq<string>): (tags: seq<string>)
    ensures |tags| <= |pieces|
    ensures forall i :: 0 <= i < |tags| ==> tags[i] != []
    decreases |pieces|
  {
    if pieces == [] then []
    else
      var t := Trim(pieces[|pieces| - 1]);
      KeepTags(pieces[..|pieces| - 1]) + (if t == [] then [] else [t])
  }

  /** The tags of all pieces but the last, then the last piece's tag if it is not blank. */
  lemma KeepTagsLast(pieces: seq<string>)
    requires pieces != []
    ensures KeepTags(pieces) == KeepTags(pieces[..|pieces| - 1]) +
      (if Trim(pieces[|pieces| - 1]) == [] then [] else [Trim(pieces[|pieces| - 1])])
  {
  }

  /** Every kept tag is a stripped piece. */
  lemma {:induction false} KeepTagsFromPieces(pieces: seq<string>)
    ensures var tags := KeepTags(pieces);
      forall i :: 0 <= i < |tags| ==> exists j :: 0 <= j < |pieces| && tags[i] == Trim(pieces[j])
    decreases |pieces|
  {
    if pieces != [] {
      var init := pieces[..|pieces| - 1];
      var tags := KeepTags(pieces);
      var head := KeepTags(init);
      KeepTagsFromPieces(init);
      KeepTagsLast(pieces);
      forall i | 0 <= i < |tags|
        ensures exists j :: 0 <= j < |pieces| && tags[i] == Trim(pieces[j])
      {
        if i < |head| {
          var j :| 0 <= j < |init| && head[i] == Trim(init[j]);
          assert tags[i] == head[i] && init[j] == pieces[j];
        } else {
          assert tags[i] == Trim(pieces[|pieces| - 1]);
        }
      }
    }
  }

  /** Every piece that is not blank once stripped is kept. */
  lemma {:induction false} KeepTagsKeepsAll(pieces: seq<string>)
    ensures forall j :: 0 <= j < |pieces| && Trim(pieces[j]) != [] ==> Trim(pieces[j]) in KeepTags(pieces)
    decreases |pieces|
  {
    if pieces != [] {
      var init := pieces[..|pieces| - 1];
      KeepTagsKeepsAll(init);
      KeepTagsLast(pieces);
      forall j | 0 <= j < |pieces| && Trim(pieces[j]) != []
        ensures Trim(pieces[j]) in KeepTags(pieces)
      {
        if j < |init| {
          assert init[j] == pieces[j];
        }
      }
    }
  }

  /**
   * One line of the reply: stripped, it must contain `|` and split into at
   * least eight fields, and fields 1 to 5 must be integers; fields past the
   * eighth are ignored.
   */
  function ParseLine(line: string): (r: Option<MealLine>)
    ensures r.Some? ==> FieldSep in Trim(line) && |Split(Trim(line), FieldSep)| >= MinFields
    ensures r.Some? ==> r.value.name == Trim(Split(Trim(line), FieldSep)[0])
  {
    var l := Trim(line);
    var parts := Split(l, FieldSep);
    if FieldSep !in l || |parts| < MinFields then None else ParseFields(parts)
  }

  /**
   * Fields 1 to 5 read as integers, the others as text. `int` strips the
   * same whitespace that `strip` does, so `int(part.strip())` is
   * `int(part)` (lemma `StripBeforeInt`).
   */
  function ParseFields(parts: seq<string>): (r: Option<MealLine>)
    requires |parts| >= MinFields
    ensures r.Some? ==> r.value.name == Trim(parts[0]) && r.value.difficulty == Trim(parts[6])
    ensures r.Some? ==> r.value.tags == KeepTags(Split(parts[7], TagSep))
  {
    var calories := ParseInt(parts[1]);
    var protein := ParseInt(parts[2]);
    var carbs := ParseInt(parts[3]);
    var fat := ParseInt(parts[4]);
    var prepTime := ParseInt(parts[5]);
    if calories.None? || protein.None? || carbs.None? || fat.None? || prepTime.None? then None
    else
      Some(MealLine(Trim(parts[0]), calories.value, protein.value, carbs.value, fat.value, prepTime.value,
                    Trim(parts[6]), KeepTags(Split(parts[7], TagSep))))
  }

  /**
   * A line's fields are accepted exactly when fields 1 to 5 are integers,
   * and the numbers of the meal are then those integers, in order.
   */
  lemma ParseFieldsSpec(parts: seq<string>)
    requires |parts| >= MinFields
    ensures ParseFields(parts).Some? <==>
      && ParseInt(parts[1]).Some? && ParseInt(parts[2]).Some? && ParseInt(parts[3]).Some?
      && ParseInt(parts[4]).Some? && ParseInt(parts[5]).Some?
    ensures ParseFields(parts).Some? ==>
      var m := ParseFields(parts).value;
      && Some(m.calories) == ParseInt(parts[1]) && Some(m.protein) == ParseInt(parts[2])
      && Some(m.carbs) == ParseInt(parts[3]) && Some(m.fat) == ParseInt(parts[4])
      && Some(m.prepTime) == ParseInt(parts[5])
  {
  }

  function Num(n: int): Json {
    JNum(n as real)
  }

  /** The meal record built from a parsed line, keys in the order the source writes them. */
  function MealRecord(m: MealLine, primary: string, day: int): (d: Dict)
    ensures KeyList(d) == ["name", "meal_type", "day", "calories", "protein", "carbs", "fat",
                           "prepTime", "difficulty", "servings", "tags"]
  {
    [("name", JStr(m.name)), ("meal_type", JStr(primary)), ("day", Num(day)),
     ("calories", Num(m.calories)), ("protein", Num(m.protein)), ("carbs", Num(m.carbs)),
     ("fat", Num(m.fat)), ("prepTime", Num(m.prepTime)), ("difficulty", JStr(m.difficulty)),
     ("servings", Num(1)), ("tags", JArr(seq(|m.tags|, i requires 0 <= i < |m.tags| => JStr(m.tags[i]))))]
  }

  /** The record reads the line's name, the requested type, the day and one serving. */
  lemma MealRecordFields(m: MealLine, primary: string, day: int)
    ensures Get(MealRecord(m, primary, day), "name") == Some(JStr(m.name))
    ensures Get(MealRecord(m, primary, day), "meal_type") == Some(JStr(primary))
    ensures Get(MealRecord(m, primary, day), "day") == Some(Num(day))
    ensures Get(MealRecord(m, primary, day), "servings") == Some(Num(1))
  {
    RecordReads(MealRecord(m, primary, day), 0);
    RecordReads(MealRecord(m, primary, day), 1);
    RecordReads(MealRecord(m, primary, day), 2);
    RecordReads(MealRecord(m, primary, day), 9);
  }

  /** Each key of a record is read at its own position, since no later key repeats it. */
  lemma RecordReads(d: Dict, i: nat)
    requires KeyList(d) == ["name", "meal_type", "day", "calories", "protein", "carbs", "fat",
                            "prepTime", "difficulty", "servings", "tags"]
    requires i < |d|
    ensures Get(d, d[i].0) == Some(d[i].1)
  {
    assert forall j :: 0 <= j < |d| ==> d[j].0 == KeyList(d)[j];
    GetAt(d, i);
  }

  /** `lines[:n]`, with Python's meaning for a negative `n`. */
  function PySliceTo<T>(xs: seq<T>, n: int): (r: seq<T>)
    ensures |r| <= |xs| && r == xs[..|r|]
    ensures n >= 0 ==> |r| == if n < |xs| then n else |xs|
    ensures n < 0 ==> |r| == if |xs| + n > 0 then |xs| + n else 0
  {
    if n >= 0 then (if n < |xs| then xs[..n] else xs)
    else if |xs| + n > 0 then xs[..|xs| + n] else []
  }

  /** What every meal of the fallback carries: the requested type, the day and one serving. */
  predicate IsFallbackMeal(meal: Json, primary: string, day: int) {
    && meal.JObj?
    && Get(meal.fields, "meal_type") == Some(JStr(primary))
    && Get(meal.fields, "day") == Some(Num(day))
    && Get(meal.fields, "servings") == Some(Num(1))
  }

  /** The accepted lines in order, as meal records; the others are skipped. */
  function ParsedMeals(lines: seq<string>, primary: string, day: int): (meals: seq<Json>)
    ensures |meals| <= |lines|
    ensures forall i :: 0 <= i < |meals| ==> IsFallbackMeal(meals[i], primary, day)
    decreases |lines|
  {
    if lines == [] then []
    else
      ParsedMeals(lines[..|lines| - 1], primary, day) + LineMeals(lines[|lines| - 1], primary, day)
  }

  /** The lines of a fallback reply that are examined: the first `batchSize`. */
  function ExaminedLines(response: string, batchSize: int): (lines: seq<string>)
    ensures batchSize >= 0 ==> |lines| <= batchSize
  {
    PySliceTo(Split(Trim(response), LineSep), batchSize)
  }

  /** The meals a fallback reply yields. */
  function FallbackMeals(response: string, batchSize: int, primary: string, day: int): (meals: seq<Json>)
    ensures batchSize >= 0 ==> |meals| <= batchSize
  {
    ParsedMeals(ExaminedLines(response, batchSize), primary, day)
  }

  // ---------------------------------------------------- the format read back

  /** Writes a meal line the way the prompt's example does. */
  function FormatLine(m: MealLine): string {
    Join([m.name, IntToString(m.calories), IntToString(m.protein), IntToString(m.carbs),
          IntToString(m.fat), IntToString(m.prepTime), m.difficulty, Join(m.tags, TagSep)], FieldSep)
  }

  /** Text that `strip` leaves alone and that holds neither separator. */
  predicate PlainField(s: string) {
    FieldSep !in s && TagSep !in s && LineSep !in s && (s == [] || (!IsSpace(s[0]) && !IsSpace(s[|s| - 1])))
  }

  /** A meal that survives being written out and read back. */
  predicate Writable(m: MealLine) {
    && m.name != [] && PlainField(m.name) && PlainField(m.difficulty)
    && forall i :: 0 <= i < |m.tags| ==> m.tags[i] != [] && PlainField(m.tags[i])
  }

  /** A printed integer is a plain field. */
  lemma {:induction false} IntFieldPlain(n: int)
    ensures PlainField(IntToString(n)) && IntToString(n) != []
  {
    var s := IntToString(n);
    if n < 0 {
      var d := NatToString(-n);
      AllDigitsWellFormed(d);
      assert s == ['-'] + d;
      assert s[|s| - 1] == d[|d| - 1];
      assert forall i :: 0 <= i < |d| ==> IsDigit(d[i]);
      assert forall i :: 1 <= i < |s| ==> s[i] == d[i - 1];
    } else {
      AllDigitsWellFormed(s);
    }
  }

  lemma {:induction false} KeepPlainTags(tags: seq<string>)
    requires forall i :: 0 <= i < |tags| ==> tags[i] != [] && PlainField(tags[i])
    ensures KeepTags(tags) == tags
    decreases |tags|
  {
    if tags != [] {
      var last := tags[|tags| - 1];
      KeepPlainTags(tags[..|tags| - 1]);
      TrimUnpadded(last);
      assert tags == tags[..|tags| - 1] + [last];
    }
  }

  /** The tag field is read back as the tags written into it. */
  lemma {:induction false} TagsRoundTrip(tags: seq<string>)
    requires forall i :: 0 <= i < |tags| ==> tags[i] != [] && PlainField(tags[i])
    ensures KeepTags(Split(Join(tags, TagSep), TagSep)) == tags
    ensures FieldSep !in Join(tags, TagSep)
  {
    if tags == [] {
      assert Split([], TagSep) == [[]];
      assert Trim([]) == [];
    } else {
      SplitJoin(tags, TagSep);
      KeepPlainTags(tags);
    }
    JoinFree(tags, TagSep, FieldSep);
  }

  lemma {:induction false} JoinFree(parts: seq<string>, sep: char, c: char)
    requires c != sep && forall i :: 0 <= i < |parts| ==> c !in parts[i]
    ensures c !in Join(parts, sep)
    decreases |parts|
  {
    if |parts| > 1 {
      JoinFree(parts[1..], sep, c);
    }
  }

  /** The fields of a written meal, in order. */
  function Fields(m: MealLine): (fields: seq<string>)
    ensures |fields| == MinFields
  {
    [m.name, IntToString(m.calories), IntToString(m.protein), IntToString(m.carbs),
     IntToString(m.fat), IntToString(m.prepTime), m.difficulty, Join(m.tags, TagSep)]
  }

  /** Fields whose text and numbers read as those of `m` are parsed as `m`. */
  lemma ParseFieldsOf(parts: seq<string>, m: MealLine)
    requires |parts| == MinFields
    requires Trim(parts[0]) == m.name && Trim(parts[6]) == m.difficulty
    requires KeepTags(Split(parts[7], TagSep)) == m.tags
    requires ParseInt(parts[1]) == Some(m.calories) && ParseInt(parts[2]) == Some(m.protein)
    requires ParseInt(parts[3]) == Some(m.carbs) && ParseInt(parts[4]) == Some(m.fat)
    requires ParseInt(parts[5]) == Some(m.prepTime)
    ensures ParseFields(parts) == Some(m)
  {
  }

  /** Each written field of a writable meal reads back as the value it was written from. */
  lemma {:induction false} WrittenFieldsRead(parts: seq<string>, m: MealLine)
    requires Writable(m) && |parts| == MinFields
    requires parts[0] == m.name && parts[6] == m.difficulty && parts[7] == Join(m.tags, TagSep)
    requires parts[1] == IntToString(m.calories) && parts[2] == IntToString(m.protein)
    requires parts[3] == IntToString(m.carbs) && parts[4] == IntToString(m.fat)
    requires parts[5] == IntToString(m.prepTime)
    ensures Trim(parts[0]) == m.name && Trim(parts[6]) == m.difficulty
    ensures KeepTags(Split(parts[7], TagSep)) == m.tags
    ensures ParseInt(parts[1]) == Some(m.calories) && ParseInt(parts[2]) == Some(m.protein)
    ensures ParseInt(parts[3]) == Some(m.carbs) && ParseInt(parts[4]) == Some(m.fat)
    ensures ParseInt(parts[5]) == Some(m.prepTime)
  {
    ParseIntRoundTrip(m.calories);
    ParseIntRoundTrip(m.protein);
    ParseIntRoundTrip(m.carbs);
    ParseIntRoundTrip(m.fat);
    ParseIntRoundTrip(m.prepTime);
    TagsRoundTrip(m.tags);
    TrimUnpadded(m.name);
    TrimUnpadded(m.difficulty);
  }

  /** The fields of a writable meal are read back as the meal. */
  lemma {:induction false} ParseWrittenFields(m: MealLine)
    requires Writable(m)
    ensures ParseFields(Fields(m)) == Some(m)
  {
    WrittenFieldsRead(Fields(m), m);
    ParseFieldsOf(Fields(m), m);
  }

  /** No written field of a writable meal holds the field separator. */
  lemma {:induction false} WrittenFieldsFree(parts: seq<string>, m: MealLine)
    requires Writable(m) && |parts| == MinFields
    requires parts[0] == m.name && parts[6] == m.difficulty && parts[7] == Join(m.tags, TagSep)
    requires parts[1] == IntToString(m.calories) && parts[2] == IntToString(m.protein)
    requires parts[3] == IntToString(m.carbs) && parts[4] == IntToString(m.fat)
    requires parts[5] == IntToString(m.prepTime)
    ensures forall i :: 0 <= i < |parts| ==> FieldSep !in parts[i]
  {
    IntFieldPlain(m.calories);
    IntFieldPlain(m.protein);
    IntFieldPlain(m.carbs);
    IntFieldPlain(m.fat);
    IntFieldPlain(m.prepTime);
    JoinFree(m.tags, TagSep, FieldSep);
  }

  /** A line joined from separator-free fields, with no surrounding whitespace, parses field by field. */
  lemma {:induction false} ParseJoinedLine(fields: seq<string>)
    requires |fields| == MinFields
    requires forall i :: 0 <= i < |fields| ==> FieldSep !in fields[i]
    requires Trim(Join(fields, FieldSep)) == Join(fields, FieldSep)
    ensures ParseLine(Join(fields, FieldSep)) == ParseFields(fields)
  {
    SplitJoin(fields, FieldSep);
    JoinHasSep(fields, FieldSep);
  }

  /**
   * A meal written in the fallback format is parsed back to itself, as
   * long as its text fields hold no separator and no surrounding
   * whitespace: the parser and the prompt's format are inverse.
   */
  lemma {:induction false} ParseFormattedLine(m: MealLine)
    requires Writable(m)
    ensures ParseLine(FormatLine(m)) == Some(m)
  {
    var fields := Fields(m);
    WrittenFieldsFree(fields, m);
    LastFieldEnd(m);
    LineUnpadded(fields);
    ParseJoinedLine(fields);
    ParseWrittenFields(m);
  }

  lemma {:induction false} LastFieldEnd(m: MealLine)
    requires Writable(m)
    ensures Fields(m)[0] != [] && !IsSpace(Fields(m)[0][0])
    ensures Fields(m)[7] == [] || !IsSpace(Fields(m)[7][|Fields(m)[7]| - 1])
  {
    var tags := m.tags;
    if |tags| >= 2 {
      JoinLast(tags, TagSep);
    } else if |tags| == 1 {
      assert Join(tags, TagSep) == tags[0];
    }
  }

  lemma {:induction false} JoinHasSep(parts: seq<string>, sep: char)
    requires |parts| >= 2
    ensures sep in Join(parts, sep)
  {
    assert Join(parts, sep)[|parts[0]|] == sep;
  }

  /** The written line starts with the name and ends with the tag field or a separator. */
  lemma {:induction false} LineUnpadded(fields: seq<string>)
    requires |fields| == 8 && fields[0] != [] && !IsSpace(fields[0][0])
    requires fields[7] == [] || !IsSpace(fields[7][|fields[7]| - 1])
    ensures Trim(Join(fields, FieldSep)) == Join(fields, FieldSep)
  {
    var line := Join(fields, FieldSep);
    var tail := Join(fields[1..], FieldSep);
    assert line == fields[0] + [FieldSep] + tail;
    assert line[0] == fields[0][0];
    JoinLast(fields, FieldSep);
    TrimUnpadded(line);
  }

  lemma {:induction false} JoinLast(parts: seq<string>, sep: char)
    requires |parts| >= 2
    ensures |Join(parts, sep)| > 0
    ensures Join(parts, sep)[|Join(parts, sep)| - 1] ==
      if parts[|parts| - 1] == [] then sep else parts[|parts| - 1][|parts[|parts| - 1]| - 1]
    decreases |parts|
  {
    var rest := Join(parts[1..], sep);
    assert Join(parts, sep) == parts[0] + [sep] + rest;
    if |parts| > 2 {
      JoinLast(parts[1..], sep);
    } else {
      assert rest == parts[1];
    }
  }

  /** Letters and inner blanks only: such text is a plain field. */
  lemma {:induction false} WordsArePlain(s: string)
    requires forall i :: 0 <= i < |s| ==> 'A' <= s[i] <= 'z' || s[i] == ' '
    requires s != [] && s[0] != ' ' && s[|s| - 1] != ' '
    ensures PlainField(s)
  {
    assert !IsSpace(s[0]) && !IsSpace(s[|s| - 1]);
  }

  /** The fallback prompt's example line, `Chicken Salad|350|...|High Protein,Quick,Healthy`, field by field. */
  const ExampleLine: string :=
    Join(["Chicken Salad", "350", "35", "15", "18", "20", "Easy", "High Protein,Quick,Healthy"], FieldSep)

  /** The meal the example line describes. */
  const ExampleMeal: MealLine :=
    MealLine("Chicken Salad", 350, 35, 15, 18, 20, "Easy", ["High Protein", "Quick", "Healthy"])

  /** The prompt's example line is read as the meal it describes, and yields one meal record. */
  lemma ExampleParses(primary: string, day: int)
    ensures ParseLine(ExampleLine) == Some(ExampleMeal)
    ensures ParsedMeals([ExampleLine], primary, day) == [JObj(MealRecord(ExampleMeal, primary, day))]
  {
    ExampleWritable();
    ExampleFormat();
    ParseFormattedLine(ExampleMeal);
    ParsedMealsOne(ExampleLine, primary, day);
  }

  /** What one line contributes: its record when it parses, nothing otherwise. */
  function LineMeals(line: string, primary: string, day: int): (meals: seq<Json>)
    ensures |meals| <= 1
    ensures forall i :: 0 <= i < |meals| ==> IsFallbackMeal(meals[i], primary, day)
  {
    match ParseLine(line)
    case Some(m) => MealRecordFields(m, primary, day); [JObj(MealRecord(m, primary, day))]
    case None => []
  }

  /** The fold over a prefix one line longer. */
  lemma ParsedMealsStep(lines: seq<string>, i: nat, primary: string, day: int)
    requires i < |lines|
    ensures ParsedMeals(lines[..i + 1], primary, day) == ParsedMeals(lines[..i], primary, day) + LineMeals(lines[i], primary, day)
  {
    assert lines[..i + 1][..i] == lines[..i];
  }

  /** A single line yields its record when it parses, and nothing otherwise. */
  lemma ParsedMealsOne(line: string, primary: string, day: int)
    ensures ParsedMeals([line], primary, day) ==
      if ParseLine(line).Some? then [JObj(MealRecord(ParseLine(line).value, primary, day))] else []
  {
    assert [line][..0] == [];
  }

  lemma ExampleWritable()
    ensures Writable(ExampleMeal)
  {
    WordsArePlain("Chicken Salad");
    WordsArePlain("Easy");
    WordsArePlain("High Protein");
    WordsArePlain("Quick");
    WordsArePlain("Healthy");
  }

  lemma ExampleFormat()
    ensures FormatLine(ExampleMeal) == ExampleLine
  {
    ExampleNumbers();
    ExampleTags();
    assert Fields(ExampleMeal) ==
      ["Chicken Salad", "350", "35", "15", "18", "20", "Easy", "High Protein,Quick,Healthy"];
  }

  lemma ExampleNumbers()
    ensures IntToString(350) == "350" && IntToString(35) == "35" && IntToString(15) == "15"
    ensures IntToString(18) == "18" && IntToString(20) == "20"
  {
    assert NatToString(3) == "3";
    assert NatToString(35) == "35";
  }

  lemma ExampleTags()
    ensures Join(ExampleMeal.tags, TagSep) == "High Protein,Quick,Healthy"
  {
    var tags := ExampleMeal.tags;
    assert tags[1..] == ["Quick", "Healthy"];
    assert tags[1..][1..] == ["Healthy"];
  }
}
