/**
 * The drag-and-drop meal planner: the week's plan maps a date key to a day map,
 * which maps a meal type to the recipe planned for it. Dropping a recipe from
 * the catalog into a slot, moving one between slots and removing one rewrite
 * the plan and save it whole.
 */
module MealPlanner {
  import opened Options
  import opened Text
  import opened Thunks
  import opened Domain

  /** One day of the plan: meal type to recipe. A slot can hold `undefined`, which is `None`. */
  type Day = map<string, Option<Recipe>>

  /** `plannedMeals`: date key to day map. */
  type Plan = map<string, Day>

  /** The droppable id of the catalog panel. */
  const Catalog := "available-recipes"

  const MealTypes: seq<string> := ["Breakfast", "Lunch", "Dinner"]

  /** The parts of `onDragEnd`'s result the handler reads: the droppable ids and the draggable id. */
  datatype DropResult = DropResult(destination: Option<string>, source: string, draggableId: string)

  /** A value used as an object key: `undefined` becomes the key "undefined". */
  function KeyOf(v: Option<string>): (r: string)
    ensures v.Some? ==> r == v.value
    ensures v.None? ==> r == "undefined"
  {
    v.GetOr("undefined")
  }

  /** `xs[i]`, `undefined` past the end. */
  function At(xs: seq<string>, i: nat): (r: Option<string>)
    ensures r.Some? <==> i < |xs|
    ensures r.Some? ==> r.value == xs[i]
  {
    if i < |xs| then Some(xs[i]) else None
  }

  /** `draggableId.split('recipe-')[1]`: the text after the first "recipe-", up to the next one. */
  function RecipeIdOf(draggableId: string): (r: Option<string>)
    ensures r.Some? <==> Contains(draggableId, "recipe-")
    ensures r.Some? ==> !Contains(r.value, "recipe-")
  {
    SplitInTwo(draggableId, "recipe-");
    At(Split(draggableId, "recipe-"), 1)
  }

  /** The draggable id of a recipe card: `recipe-${recipe._id}`. */
  function DraggableId(id: string): string
  {
    "recipe-" + id
  }

  /** A recipe card's id gives its recipe's id back, when that id has no "recipe-" inside. */
  lemma RecipeIdOfCard(id: string)
    requires !Contains(id, "recipe-")
    ensures RecipeIdOf(DraggableId(id)) == Some(id)
  {
    SplitLeadingSeparator("recipe-", id);
    SplitWithoutSeparator(id, "recipe-");
  }

  /**
   * `const [date, mealType] = id.split('-')`: the first piece, which has no '-'
   * and is the whole id or begins it followed by a '-', and the second piece,
   * `undefined` when there is none.
   */
  function IdParts(droppableId: string): (r: (string, Option<string>))
    ensures r.0 == Split(droppableId, "-")[0] && r.1 == At(Split(droppableId, "-"), 1)
    ensures !Contains(r.0, "-")
    ensures r.0 == droppableId || StartsWith(droppableId, r.0 + "-")
  {
    var parts := Split(droppableId, "-");
    assert |parts| > 1 ==> droppableId[..|parts[0]| + 1] == parts[0] + "-" by {
      if |parts| > 1 {
        assert droppableId == parts[0] + "-" + Join(parts[1..], "-");
      }
    }
    (parts[0], At(parts, 1))
  }

  /** The two pieces of a droppable id as the object keys they are used as. */
  function SlotKeyOf(droppableId: string): (r: (string, string))
    ensures r.0 == Split(droppableId, "-")[0]
    ensures r.1 == KeyOf(At(Split(droppableId, "-"), 1))
  {
    var (date, meal) := IdParts(droppableId);
    (date, KeyOf(meal))
  }

  /** The droppable id of a grid cell: `${dateStr}-${mealType}`. */
  function DroppableId(dateStr: string, mealType: string): string
  {
    dateStr + "-" + mealType
  }

  /** `format(date, 'yyyy-MM-dd')`, with the three fields as given. */
  function DateKey(year: string, month: string, day: string): string
  {
    year + "-" + month + "-" + day
  }

  /** `plannedMeals[date] ?? {}`. */
  function DayOf(plan: Plan, date: string): Day
  {
    if date in plan then plan[date] else map[]
  }

  /** What a grid cell shows: `plannedMeals[dateStr]?.[mealType]`, empty for a missing or `undefined` slot. */
  function Shown(plan: Plan, date: string, meal: string): (r: Option<Recipe>)
    ensures date in plan && meal in plan[date] ==> r == plan[date][meal]
    ensures !(date in plan && meal in plan[date]) ==> r.None?
  {
    if date in plan && meal in plan[date] then plan[date][meal] else None
  }

  /** `newPlanned[d]?.[m]?._id`. */
  function SlotId(plan: Plan, date: string, meal: string): (r: Option<string>)
    ensures r.Some? <==> Shown(plan, date, meal).Some?
    ensures r.Some? ==> r.value == Shown(plan, date, meal).value.id
  {
    match Shown(plan, date, meal)
    case Some(r) => Some(r.id)
    case None => None
  }

  /** `availableRecipes.find((r) => r._id === recipeId)`: the first recipe with that id. */
  function Find(catalog: seq<Recipe>, id: Option<string>): (r: Option<Recipe>)
    ensures r.Some? ==> r.value in catalog && id == Some(r.value.id)
    ensures r.None? ==> forall i :: 0 <= i < |catalog| ==> id != Some(catalog[i].id)
    ensures r.Some? ==> exists i :: 0 <= i < |catalog| && catalog[i] == r.value && forall j :: 0 <= j < i ==> id != Some(catalog[j].id)
    decreases |catalog|
  {
    if catalog == [] then None
    else if id == Some(catalog[0].id) then Some(catalog[0])
    else Find(catalog[1..], id)
  }

  /** The plan with one slot set, creating the day map when it is missing. */
  function Put(plan: Plan, date: string, meal: string, v: Option<Recipe>): (r: Plan)
    ensures r.Keys == plan.Keys + {date}
    ensures r[date] == DayOf(plan, date)[meal := v]
    ensures forall d :: d in plan && d != date ==> r[d] == plan[d]
  {
    plan[date := DayOf(plan, date)[meal := v]]
  }

  /** `plan[date][meal] = v` on a day that exists. */
  function SetIn(plan: Plan, date: string, meal: string, v: Option<Recipe>): (r: Plan)
    requires date in plan
    ensures r.Keys == plan.Keys
    ensures r[date] == plan[date][meal := v]
    ensures forall d :: d in plan && d != date ==> r[d] == plan[d]
  {
    plan[date := plan[date][meal := v]]
  }

  /** Creating the day when it is missing and then writing the slot is `Put`. */
  lemma PutIsSetIn(plan: Plan, date: string, meal: string, v: Option<Recipe>)
    ensures Put(plan, date, meal, v) == SetIn(plan[date := DayOf(plan, date)], date, meal, v)
  {
  }

  /** `delete plan[date][meal]` on a day that exists. */
  function Delete(plan: Plan, date: string, meal: string): (r: Plan)
    requires date in plan
    ensures r.Keys == plan.Keys
    ensures r[date] == plan[date] - {meal}
    ensures forall d :: d in plan && d != date ==> r[d] == plan[d]
  {
    plan[date := plan[date] - {meal}]
  }

  /**
   * `onDragEnd` as written, on values: the plan it sets and saves, or `None`
   * when it returns without changing (or saving) anything. A move throws
   * (and so changes nothing) when its guard passes on a source day that is
   * missing.
   */
  function DragEnd(plan: Plan, catalog: seq<Recipe>, r: DropResult): (res: Option<Plan>)
    ensures r.destination.None? ==> res.None?
    ensures r.destination.Some? && r.source == Catalog ==> res.Some?
    ensures r.source != Catalog && !StartsWith(r.source, "date-") ==> res.None?
    ensures res.Some? ==> res.value.Keys == plan.Keys + {IdParts(r.destination.value).0}
  {
    if r.destination.None? then None
    else
      var recipeId := RecipeIdOf(r.draggableId);
      var (date, meal) := IdParts(r.destination.value);
      if r.source == Catalog then
        Some(Put(plan, date, KeyOf(meal), Find(catalog, recipeId)))
      else if StartsWith(r.source, "date-") then
        var (srcDate, srcMeal) := IdParts(r.source);
        Move(plan, srcDate, srcMeal, date, meal, recipeId)
      else None
  }

  /**
   * The slot-to-slot branch of `onDragEnd`: nothing when the slot is its own
   * destination or the source does not hold the dragged id; otherwise the
   * recipe goes to the destination and the source key is deleted. The
   * same-slot test compares the pieces themselves (`===`), so a missing meal
   * piece and the text "undefined" differ there, while the reads and writes
   * use both as the key "undefined".
   */
  function Move(plan: Plan, srcDate: string, srcMeal: Option<string>, date: string, meal: Option<string>, recipeId: Option<string>): (r: Option<Plan>)
    ensures r.Some? <==>
      && (srcDate != date || srcMeal != meal)
      && (srcDate in plan || srcDate == date)
      && SlotId(plan, srcDate, KeyOf(srcMeal)) == recipeId
    ensures r.Some? ==>
      && r.value.Keys == plan.Keys + {date}
      && srcDate in r.value && KeyOf(srcMeal) !in r.value[srcDate]
  {
    if srcDate == date && srcMeal == meal then None
    else MoveKeys(plan, srcDate, KeyOf(srcMeal), date, KeyOf(meal), recipeId)
  }

  /** The move past the same-slot test, on the keys the pieces name. */
  function MoveKeys(plan: Plan, srcDate: string, srcMeal: string, date: string, meal: string, recipeId: Option<string>): Option<Plan>
  {
    var copy := plan[date := DayOf(plan, date)];
    if SlotId(copy, srcDate, srcMeal) != recipeId || srcDate !in copy then None
    else Some(Delete(SetIn(copy, date, meal, Shown(copy, srcDate, srcMeal)), srcDate, srcMeal))
  }

  /** Slot `m` of day `d` is the same in both plans: there in both or in neither, with the same value. */
  predicate SameSlot(a: Plan, b: Plan, d: string, m: string)
  {
    && ((d in a && m in a[d]) <==> (d in b && m in b[d]))
    && (d in a && m in a[d] ==> a[d][m] == b[d][m])
  }

  /** A drop outside every droppable changes nothing and saves nothing. */
  lemma DropOutsideIgnored(plan: Plan, catalog: seq<Recipe>, source: string, draggableId: string)
    ensures DragEnd(plan, catalog, DropResult(None, source, draggableId)) == None
  {
  }

  /**
   * A drop from the catalog sets the destination slot to the catalog's recipe
   * with the dragged id (or `undefined` when there is none), overwriting what
   * was there, and leaves every other slot and day as it was.
   */
  lemma CatalogDropSetsSlot(plan: Plan, catalog: seq<Recipe>, dest: string, draggableId: string)
    ensures var r := DragEnd(plan, catalog, DropResult(Some(dest), Catalog, draggableId));
      var (date, meal) := SlotKeyOf(dest);
      && r.Some?
      && r.value.Keys == plan.Keys + {date}
      && Shown(r.value, date, meal) == Find(catalog, RecipeIdOf(draggableId))
      && (forall m :: m != meal && m in DayOf(plan, date) ==> m in r.value[date] && r.value[date][m] == plan[date][m])
      && (forall m :: m != meal ==> (m in r.value[date] <==> m in DayOf(plan, date)))
      && (forall d :: d in plan && d != date ==> r.value[d] == plan[d])
  {
  }

  /** A move back onto its own slot changes nothing and saves nothing. */
  lemma SameSlotIgnored(plan: Plan, catalog: seq<Recipe>, slot: string, draggableId: string)
    requires slot != Catalog
    ensures DragEnd(plan, catalog, DropResult(Some(slot), slot, draggableId)) == None
  {
  }

  /**
   * A slot-to-slot move that goes ahead came through the 'date-' gate from a
   * source whose pieces differ from the destination's and whose slot holds
   * the dragged id. The source key is deleted; when the two keys differ, the
   * destination key holds the source's recipe; every other slot of every day
   * is as it was, and the destination day exists.
   */
  lemma MoveShiftsRecipe(plan: Plan, catalog: seq<Recipe>, dest: string, source: string, draggableId: string)
    requires source != Catalog
    requires DragEnd(plan, catalog, DropResult(Some(dest), source, draggableId)).Some?
    ensures var r := DragEnd(plan, catalog, DropResult(Some(dest), source, draggableId)).value;
      var (date, mealPart) := IdParts(dest);
      var (srcDate, srcPart) := IdParts(source);
      var (meal, srcMeal) := (KeyOf(mealPart), KeyOf(srcPart));
      && StartsWith(source, "date-")
      && (srcDate, srcPart) != (date, mealPart)
      && SlotId(plan, srcDate, srcMeal) == RecipeIdOf(draggableId)
      && r.Keys == plan.Keys + {date}
      && srcDate in r && srcMeal !in r[srcDate]
      && ((srcDate, srcMeal) != (date, meal) ==> meal in r[date] && r[date][meal] == Shown(plan, srcDate, srcMeal))
      && (forall d, m :: (d, m) != (date, meal) && (d, m) != (srcDate, srcMeal) ==> SameSlot(r, plan, d, m))
  {
    var (date, mealPart) := IdParts(dest);
    var (srcDate, srcPart) := IdParts(source);
    var (meal, srcMeal) := (KeyOf(mealPart), KeyOf(srcPart));
    var copy := plan[date := DayOf(plan, date)];
    var moved := SetIn(copy, date, meal, Shown(copy, srcDate, srcMeal));
    assert DragEnd(plan, catalog, DropResult(Some(dest), source, draggableId)) == Some(Delete(moved, srcDate, srcMeal));
    if (srcDate, srcMeal) != (date, meal) {
      MoveSteps(plan, date, meal, srcDate, srcMeal);
    } else {
      MoveOntoItself(plan, date, meal);
    }
  }

  /**
   * The two writes of a move between two different keys, on the copy with the
   * destination day in place: the destination key holds the source's value,
   * the source key is gone, and nothing else changes.
   */
  lemma MoveSteps(plan: Plan, date: string, meal: string, srcDate: string, srcMeal: string)
    requires (srcDate, srcMeal) != (date, meal)
    requires srcDate in plan[date := DayOf(plan, date)]
    ensures var copy := plan[date := DayOf(plan, date)];
      var r := Delete(SetIn(copy, date, meal, Shown(copy, srcDate, srcMeal)), srcDate, srcMeal);
      && SlotId(copy, srcDate, srcMeal) == SlotId(plan, srcDate, srcMeal)
      && r.Keys == plan.Keys + {date}
      && meal in r[date] && r[date][meal] == Shown(plan, srcDate, srcMeal)
      && Shown(r, date, meal) == Shown(plan, srcDate, srcMeal)
      && srcDate in r && srcMeal !in r[srcDate]
      && (forall d :: d in plan && d != date && d != srcDate ==> r[d] == plan[d])
      && (forall d, m :: (d, m) != (date, meal) && (d, m) != (srcDate, srcMeal) ==> SameSlot(r, plan, d, m))
  {
  }

  /**
   * When both pieces name the same key but differ as values, the slot is
   * written onto itself and then deleted: only that key goes.
   */
  lemma MoveOntoItself(plan: Plan, date: string, meal: string)
    ensures var copy := plan[date := DayOf(plan, date)];
      var r := Delete(SetIn(copy, date, meal, Shown(copy, date, meal)), date, meal);
      && r.Keys == plan.Keys + {date}
      && r[date] == DayOf(plan, date) - {meal}
      && (forall d, m :: (d, m) != (date, meal) ==> SameSlot(r, plan, d, m))
  {
  }

  /**
   * A destination with no meal piece and a source with the same date whose
   * meal piece is the text "undefined" differ as values, but both name the
   * key "undefined": when the guard passes, the slot is written onto itself
   * and deleted, and the plan is saved.
   */
  lemma KeyCollisionMove(plan: Plan, catalog: seq<Recipe>, dest: string, source: string, draggableId: string)
    requires source != Catalog && StartsWith(source, "date-")
    requires IdParts(dest).1 == None && IdParts(source) == (IdParts(dest).0, Some("undefined"))
    requires SlotId(plan, IdParts(dest).0, "undefined") == RecipeIdOf(draggableId)
    ensures var date := IdParts(dest).0;
      DragEnd(plan, catalog, DropResult(Some(dest), source, draggableId))
        == Some(Delete(plan[date := DayOf(plan, date)], date, "undefined"))
  {
    var date := IdParts(dest).0;
    var copy := plan[date := DayOf(plan, date)];
    MoveOntoItself(plan, date, "undefined");
    var r := Delete(SetIn(copy, date, "undefined", Shown(copy, date, "undefined")), date, "undefined");
    assert r == Delete(copy, date, "undefined");
  }

  /**
   * The concrete case: destination "date" has no meal piece, source
   * "date-undefined" has the text "undefined"; the recipe planned under the
   * key "undefined" is deleted and the plan saved.
   */
  lemma UndefinedMealMove(plan: Plan, catalog: seq<Recipe>, dest: string, source: string, draggableId: string, x: Recipe)
    requires dest == "date" && source == "date-undefined" && draggableId == "recipe-x" && x.id == "x"
    requires plan == map[dest := map["undefined" := Some(x)]]
    ensures DragEnd(plan, catalog, DropResult(Some(dest), source, draggableId)) == Some(map[dest := map[]])
  {
    DateIdParts();
    UndefinedIdParts();
    UndefinedIdIsSlot();
    CardXId();
    CollisionOnOneDay(plan, catalog, dest, source, draggableId, x);
  }

  /** KeyCollisionMove on a plan holding only that slot: the day is left empty. */
  lemma CollisionOnOneDay(plan: Plan, catalog: seq<Recipe>, dest: string, source: string, draggableId: string, x: Recipe)
    requires source != Catalog && StartsWith(source, "date-")
    requires IdParts(dest) == (dest, None) && IdParts(source) == (dest, Some("undefined"))
    requires RecipeIdOf(draggableId) == Some(x.id)
    requires plan == map[dest := map["undefined" := Some(x)]]
    ensures DragEnd(plan, catalog, DropResult(Some(dest), source, draggableId)) == Some(map[dest := map[]])
  {
    assert SlotId(plan, dest, "undefined") == Some(x.id);
    KeyCollisionMove(plan, catalog, dest, source, draggableId);
    assert plan[dest := DayOf(plan, dest)] == plan;
    var r := Delete(plan, dest, "undefined");
    assert r[dest] == map[];
    assert r == map[dest := map[]];
  }

  lemma DateIdParts()
    ensures IdParts("date") == ("date", None)
  {
    SplitJoinChar(["date"], '-');
  }

  lemma UndefinedIdParts()
    ensures IdParts("date-undefined") == ("date", Some("undefined"))
  {
    var parts := ["date", "undefined"];
    assert parts[1..] == ["undefined"];
    assert Join(parts, "-") == "date" + "-" + "undefined" == "date-undefined";
    SplitJoinChar(parts, '-');
  }

  lemma UndefinedIdIsSlot()
    ensures StartsWith("date-undefined", "date-") && "date-undefined" != Catalog
  {
    assert "date-undefined"[..5] == "date-";
    assert "date-undefined"[0] != Catalog[0];
  }

  lemma CardXId()
    ensures RecipeIdOf("recipe-x") == Some("x")
  {
    RecipeIdOfCard("x");
    assert DraggableId("x") == "recipe-x";
  }

  /** A move whose source slot does not hold the dragged recipe changes nothing and saves nothing. */
  lemma MoveNeedsMatchingSource(plan: Plan, catalog: seq<Recipe>, dest: string, source: string, draggableId: string)
    requires source != Catalog
    requires SlotId(plan, SlotKeyOf(source).0, SlotKeyOf(source).1) != RecipeIdOf(draggableId)
    ensures DragEnd(plan, catalog, DropResult(Some(dest), source, draggableId)) == None
  {
  }

  /** `removeMeal(date, mealType)` on values: the new plan, or `None` when the slot is empty. */
  function RemoveMeal(plan: Plan, date: string, meal: string): (r: Option<Plan>)
    ensures r.Some? <==> Shown(plan, date, meal).Some?
  {
    if Shown(plan, date, meal).Some? then Some(Delete(plan, date, meal)) else None
  }

  /**
   * Removing an occupied slot deletes exactly that key and keeps the day map,
   * even when it is left empty; every other day stays.
   */
  lemma RemoveMealDeletesSlot(plan: Plan, date: string, meal: string)
    requires Shown(plan, date, meal).Some?
    ensures var r := RemoveMeal(plan, date, meal).value;
      && r.Keys == plan.Keys
      && r[date] == plan[date] - {meal}
      && Shown(r, date, meal).None?
      && (forall d :: d in plan && d != date ==> r[d] == plan[d])
  {
  }

  // ---------------------------------------------------------------------------
  // The grid's droppable ids, and what the handler makes of them.

  /** A field of a date key or a meal type: no '-' inside. */
  predicate Field(s: string)
  {
    '-' !in s
  }

  /** A grid cell's id splits on '-' into the three date fields and the meal type. */
  lemma CellIdParts(year: string, month: string, day: string, meal: string)
    requires Field(year) && Field(month) && Field(day) && Field(meal)
    ensures Split(DroppableId(DateKey(year, month, day), meal), "-") == [year, month, day, meal]
  {
    var parts := [year, month, day, meal];
    assert Join(parts, "-") == DroppableId(DateKey(year, month, day), meal) by {
      assert parts[1..] == [month, day, meal];
      assert parts[1..][1..] == [day, meal];
      assert parts[1..][1..][1..] == [meal];
      assert Join([day, meal], "-") == day + "-" + meal;
      assert Join([month, day, meal], "-") == month + "-" + (day + "-" + meal);
    }
    SplitJoinChar(parts, '-');
  }

  /**
   * As written, the handler files a drop on a grid cell under the year and the
   * month of the cell's date, not under the date and the meal type.
   */
  lemma CellKeyIsYearMonth(year: string, month: string, day: string, meal: string)
    requires Field(year) && Field(month) && Field(day) && Field(meal)
    ensures SlotKeyOf(DroppableId(DateKey(year, month, day), meal)) == (year, month)
  {
    CellIdParts(year, month, day, meal);
  }

  /**
   * So a recipe dropped from the catalog onto a grid cell never shows in that
   * cell: the key it is written under is never the key the cell reads.
   */
  lemma CatalogDropNotShown(plan: Plan, catalog: seq<Recipe>, year: string, month: string, day: string, meal: string, draggableId: string)
    requires Field(year) && Field(month) && Field(day) && Field(meal)
    ensures var dateStr := DateKey(year, month, day);
      var r := DragEnd(plan, catalog, DropResult(Some(DroppableId(dateStr, meal)), Catalog, draggableId));
      r.Some? && Shown(r.value, dateStr, meal) == Shown(plan, dateStr, meal)
  {
    CellKeyIsYearMonth(year, month, day, meal);
    assert |DateKey(year, month, day)| > |year|;
  }

  /** A date key begins with the year's first digit. */
  predicate YearFirst(year: string)
  {
    year != [] && '0' <= year[0] <= '9'
  }

  /**
   * As written, the move branch is never taken for a grid cell: its id begins
   * with a digit of the year, never with "date-", so the drop is ignored.
   */
  lemma CellMoveIgnored(plan: Plan, catalog: seq<Recipe>, dest: string, year: string, month: string, day: string, meal: string, draggableId: string)
    requires YearFirst(year)
    ensures DragEnd(plan, catalog, DropResult(Some(dest), DroppableId(DateKey(year, month, day), meal), draggableId)) == None
  {
    var source := DroppableId(DateKey(year, month, day), meal);
    assert source[0] == year[0];
    assert !StartsWith(source, "date-");
  }

  /** The concrete case: 2024-01-15, Breakfast. */
  lemma FindingsExample(plan: Plan, catalog: seq<Recipe>)
    ensures SlotKeyOf("2024-01-15-Breakfast") == ("2024", "01")
    ensures DragEnd(plan, catalog, DropResult(Some("2024-01-16-Lunch"), "2024-01-15-Breakfast", "recipe-r1")) == None
  {
    assert "2024-01-15-Breakfast" == DroppableId(DateKey("2024", "01", "15"), "Breakfast");
    CellKeyIsYearMonth("2024", "01", "15", "Breakfast");
    CellMoveIgnored(plan, catalog, "2024-01-16-Lunch", "2024", "01", "15", "Breakfast", "recipe-r1");
  }

  /** The intended reading of a cell id: the meal type after the last '-', the date before it. */
  function CellKey(droppableId: string): (r: (string, string))
    ensures Contains(droppableId, "-") ==> droppableId == r.0 + "-" + r.1 && !Contains(r.1, "-")
    ensures !Contains(droppableId, "-") ==> r == (droppableId, "undefined")
  {
    var parts := Split(droppableId, "-");
    SplitInTwo(droppableId, "-");
    assert |parts| >= 2 ==> droppableId == Join(parts[..|parts| - 1], "-") + "-" + parts[|parts| - 1] by {
      if |parts| >= 2 { JoinSnoc(parts, "-"); }
    }
    assert |parts| < 2 ==> droppableId == parts[0];
    if |parts| < 2 then (droppableId, "undefined")
    else (Join(parts[..|parts| - 1], "-"), parts[|parts| - 1])
  }

  /** CellKey of an id, given how the id splits. */
  lemma CellKeyOfParts(id: string, parts: seq<string>)
    requires Split(id, "-") == parts && |parts| >= 2
    ensures CellKey(id) == (Join(parts[..|parts| - 1], "-"), parts[|parts| - 1])
  {
  }

  /** A grid cell's id reads back as its date key and meal type. */
  lemma CellKeyRoundTrip(year: string, month: string, day: string, meal: string)
    requires Field(year) && Field(month) && Field(day) && Field(meal)
    ensures CellKey(DroppableId(DateKey(year, month, day), meal)) == (DateKey(year, month, day), meal)
  {
    var parts := [year, month, day, meal];
    CellIdParts(year, month, day, meal);
    CellKeyOfParts(DroppableId(DateKey(year, month, day), meal), parts);
    assert parts[..3] == [year, month, day];
    DateKeyJoin(year, month, day);
  }

  /** A date key is its three fields joined with '-'. */
  lemma DateKeyJoin(year: string, month: string, day: string)
    ensures Join([year, month, day], "-") == DateKey(year, month, day)
  {
    var init := [year, month, day];
    assert init[1..] == [month, day];
    assert init[1..][1..] == [day];
    assert Join([month, day], "-") == month + "-" + day;
  }

  /**
   * `onDragEnd` as evidently intended: cell ids read with CellKey, and any
   * source other than the catalog treated as a slot.
   */
  function IntendedDragEnd(plan: Plan, catalog: seq<Recipe>, r: DropResult): (res: Option<Plan>)
    ensures r.destination.None? ==> res.None?
    ensures r.destination.Some? && r.source == Catalog ==> res.Some?
    ensures res.Some? ==> res.value.Keys == plan.Keys + {CellKey(r.destination.value).0}
  {
    if r.destination.None? then None
    else
      var recipeId := RecipeIdOf(r.draggableId);
      var (date, meal) := CellKey(r.destination.value);
      if r.source == Catalog then
        Some(Put(plan, date, meal, Find(catalog, recipeId)))
      else
        var (srcDate, srcMeal) := CellKey(r.source);
        Move(plan, srcDate, Some(srcMeal), date, Some(meal), recipeId)
  }

  /** With the intended reading, a recipe dropped from the catalog onto a cell shows in that cell. */
  lemma IntendedCatalogDropShown(plan: Plan, catalog: seq<Recipe>, year: string, month: string, day: string, meal: string, id: string)
    requires Field(year) && Field(month) && Field(day) && Field(meal)
    requires !Contains(id, "recipe-")
    ensures var dateStr := DateKey(year, month, day);
      var r := IntendedDragEnd(plan, catalog, DropResult(Some(DroppableId(dateStr, meal)), Catalog, DraggableId(id)));
      r.Some? && Shown(r.value, dateStr, meal) == Find(catalog, Some(id))
  {
    CellKeyRoundTrip(year, month, day, meal);
    RecipeIdOfCard(id);
  }

  /** With the intended reading, a drag between two grid cells is a move from the one to the other. */
  lemma IntendedDragIsMove(plan: Plan, catalog: seq<Recipe>, srcDate: string, srcMeal: string, dstDate: string, dstMeal: string, draggableId: string)
    requires CellKey(DroppableId(srcDate, srcMeal)) == (srcDate, srcMeal)
    requires CellKey(DroppableId(dstDate, dstMeal)) == (dstDate, dstMeal)
    requires DroppableId(srcDate, srcMeal) != Catalog
    ensures IntendedDragEnd(plan, catalog, DropResult(Some(DroppableId(dstDate, dstMeal)), DroppableId(srcDate, srcMeal), draggableId))
      == Move(plan, srcDate, Some(srcMeal), dstDate, Some(dstMeal), RecipeIdOf(draggableId))
  {
  }

  /**
   * With the intended reading, dragging the card of a planned recipe from one
   * grid cell to another moves it there and empties the cell it came from.
   */
  lemma IntendedMoveBetweenCells(plan: Plan, catalog: seq<Recipe>, srcDate: string, srcMeal: string, dstDate: string, dstMeal: string, recipe: Recipe)
    requires CellKey(DroppableId(srcDate, srcMeal)) == (srcDate, srcMeal)
    requires CellKey(DroppableId(dstDate, dstMeal)) == (dstDate, dstMeal)
    requires DroppableId(srcDate, srcMeal) != Catalog
    requires (srcDate, srcMeal) != (dstDate, dstMeal)
    requires !Contains(recipe.id, "recipe-")
    requires Shown(plan, srcDate, srcMeal) == Some(recipe)
    ensures var r := IntendedDragEnd(plan, catalog, DropResult(Some(DroppableId(dstDate, dstMeal)), DroppableId(srcDate, srcMeal), DraggableId(recipe.id)));
      r.Some? && Shown(r.value, dstDate, dstMeal) == Some(recipe) && Shown(r.value, srcDate, srcMeal).None?
  {
    IntendedDragIsMove(plan, catalog, srcDate, srcMeal, dstDate, dstMeal, DraggableId(recipe.id));
    RecipeIdOfCard(recipe.id);
    MoveSteps(plan, dstDate, dstMeal, srcDate, srcMeal);
  }

  /** Grid cells satisfy the premises above: a cell's id reads back, and is never the catalog's. */
  lemma GridCell(year: string, month: string, day: string, meal: string)
    requires Field(year) && Field(month) && Field(day) && Field(meal) && YearFirst(year)
    ensures CellKey(DroppableId(DateKey(year, month, day), meal)) == (DateKey(year, month, day), meal)
    ensures DroppableId(DateKey(year, month, day), meal) != Catalog
  {
    CellKeyRoundTrip(year, month, day, meal);
    assert DroppableId(DateKey(year, month, day), meal)[0] == year[0];
  }

  // ---------------------------------------------------------------------------
  // The planner's state, with the day maps as objects shared between copies.

  /** A day map: an object the handlers change in place. */
  class DayPlan {
    var slots: Day

    constructor (slots: Day)
      ensures this.slots == slots
    {
      this.slots := slots;
    }
  }

  /** No two dates share a day map. */
  ghost predicate Injective(m: map<string, DayPlan>)
  {
    forall a, b :: a in m && b in m && a != b ==> m[a] != m[b]
  }

  /** The plan a map of day objects holds. */
  function PlanOf(m: map<string, DayPlan>): (r: Plan)
    reads m.Values
    ensures r.Keys == m.Keys
  {
    map d | d in m :: m[d].slots
  }

  /** `if (!newPlanned[date]) newPlanned[date] = {};` on the copy. */
  method AddDay(m: map<string, DayPlan>, date: string) returns (m': map<string, DayPlan>)
    requires Injective(m)
    ensures Injective(m') && m'.Keys == m.Keys + {date}
    ensures PlanOf(m') == PlanOf(m)[date := DayOf(PlanOf(m), date)]
    ensures forall d :: d in m ==> d in m' && m'[d] == m[d]
    ensures date !in m ==> fresh(m'[date])
  {
    m' := m;
    if date !in m' {
      var day := new DayPlan(map[]);
      m' := m'[date := day];
    }
  }

  /** `newPlanned[date][meal] = v`: writes the shared day object in place. */
  method SetSlot(m: map<string, DayPlan>, date: string, meal: string, v: Option<Recipe>)
    requires Injective(m) && date in m
    modifies m[date]
    ensures PlanOf(m) == SetIn(old(PlanOf(m)), date, meal, v)
  {
    var day := m[date];
    day.slots := day.slots[meal := v];
    assert forall d :: d in m && d != date ==> m[d] != day;
  }

  /** `delete newPlanned[date][meal]`: changes the shared day object in place. */
  method DeleteSlot(m: map<string, DayPlan>, date: string, meal: string)
    requires Injective(m) && date in m
    modifies m[date]
    ensures PlanOf(m) == Delete(old(PlanOf(m)), date, meal)
  {
    var day := m[date];
    day.slots := day.slots - {meal};
    assert forall d :: d in m && d != date ==> m[d] != day;
  }

  /** `if (!newPlanned[date]) newPlanned[date] = {}; newPlanned[date][meal] = v;` */
  method PutSlot(m: map<string, DayPlan>, date: string, meal: string, v: Option<Recipe>) returns (m': map<string, DayPlan>)
    requires Injective(m)
    modifies m.Values
    ensures Injective(m')
    ensures PlanOf(m') == Put(old(PlanOf(m)), date, meal, v)
    ensures forall d :: d in m ==> d in m' && m'[d] == m[d]
  {
    ghost var before := PlanOf(m);
    m' := AddDay(m, date);
    SetSlot(m', date, meal, v);
    PutIsSetIn(before, date, meal, v);
  }

  /** `newPlanned[d]?.[m]?._id`, read off the day objects. */
  method SourceId(m: map<string, DayPlan>, date: string, meal: string) returns (id: Option<string>)
    ensures id == SlotId(PlanOf(m), date, meal)
  {
    id := None;
    if date in m && meal in m[date].slots && m[date].slots[meal].Some? {
      id := Some(m[date].slots[meal].value.id);
    }
  }

  /**
   * `newPlanned[date][mealType] = newPlanned[srcDate][srcMeal]; delete newPlanned[srcDate][srcMeal];`
   * on days that exist.
   */
  method MoveSlot(m: map<string, DayPlan>, srcDate: string, srcMeal: string, date: string, meal: string, dst: DayPlan, src: DayPlan)
    requires Injective(m) && date in m && srcDate in m && dst == m[date] && src == m[srcDate]
    modifies dst, src
    ensures PlanOf(m) == Delete(SetIn(old(PlanOf(m)), date, meal, Shown(old(PlanOf(m)), srcDate, srcMeal)), srcDate, srcMeal)
  {
    ghost var before := PlanOf(m);
    var moved := if srcMeal in m[srcDate].slots then m[srcDate].slots[srcMeal] else None;
    assert moved == Shown(before, srcDate, srcMeal);
    SetSlot(m, date, meal, moved);
    DeleteSlot(m, srcDate, srcMeal);
  }

  /** A fresh day object for every date of a plan from the server. */
  method Materialize(data: Plan) returns (m: map<string, DayPlan>)
    ensures Injective(m) && PlanOf(m) == data
    ensures forall d :: d in m ==> fresh(m[d])
  {
    m := map[];
    var todo := data.Keys;
    while todo != {}
      invariant todo <= data.Keys
      invariant m.Keys == data.Keys - todo
      invariant Injective(m)
      invariant forall d :: d in m ==> fresh(m[d]) && m[d].slots == data[d]
      decreases todo
    {
      var d :| d in todo;
      var day := new DayPlan(data[d]);
      m := m[d := day];
      todo := todo - {d};
    }
  }

  const LoadFailed := "Failed to load meal plan for the week."
  const SaveFailed := "Failed to save meal plan."

  /**
   * The component's state: the plan, the catalog and the error text. The
   * handlers return the plan they hand to `savePlanner`, if any.
   */
  class Planner {
    var plannedMeals: map<string, DayPlan>
    var availableRecipes: seq<Recipe>
    var error: string

    /** No two dates share a day map. */
    ghost predicate Valid()
      reads `plannedMeals
    {
      Injective(plannedMeals)
    }

    /** The plan as a value. */
    ghost function Plan(): Plan
      reads `plannedMeals, plannedMeals.Values
    {
      PlanOf(plannedMeals)
    }

    constructor ()
      ensures Valid() && Plan() == map[] && availableRecipes == [] && error == ""
    {
      plannedMeals := map[];
      availableRecipes := [];
      error := "";
    }

    /**
     * `setPlannedMeals(newPlanned); await savePlanner(newPlanned);`: the plan
     * becomes the new one and is sent; a failed save sets the error.
     */
    method Commit(newPlanned: map<string, DayPlan>, saveFailed: bool) returns (saved: Plan)
      requires Injective(newPlanned)
      modifies `plannedMeals, `error
      ensures Valid() && plannedMeals == newPlanned
      ensures saved == old(PlanOf(newPlanned)) && Plan() == saved
      ensures error == if saveFailed then SaveFailed else old(error)
    {
      saved := PlanOf(newPlanned);
      plannedMeals := newPlanned;
      if saveFailed {
        error := SaveFailed;
      }
    }

    /**
     * `fetchPlanner`: the week's plan from the server (`plannedMeals || {}`)
     * replaces the plan, or the error is set when the request fails.
     */
    method LoadPlanner(reply: Reply<Option<Plan>>)
      modifies `plannedMeals, `error
      ensures reply.Answered? ==> Valid() && Plan() == reply.data.GetOr(map[]) && error == ""
      ensures reply.Failed? ==> plannedMeals == old(plannedMeals) && error == LoadFailed
    {
      error := "";
      match reply
      case Answered(data) =>
        plannedMeals := Materialize(data.GetOr(map[]));
      case Failed(_) =>
        error := LoadFailed;
    }

    /** `fetchRecipes`: the catalog from the server (`recipes || []`); a failure is ignored. */
    method LoadRecipes(reply: Reply<Option<seq<Recipe>>>)
      modifies `availableRecipes
      ensures availableRecipes == if reply.Answered? then reply.data.GetOr([]) else old(availableRecipes)
    {
      if reply.Answered? {
        availableRecipes := reply.data.GetOr([]);
      }
    }

    /**
     * `onDragEnd`. The new plan is a shallow copy of the old one: the day maps
     * it keeps are the same objects, written in place.
     */
    method OnDragEnd(r: DropResult, saveFailed: bool) returns (saved: Option<Plan>)
      requires Valid()
      modifies `plannedMeals, `error, plannedMeals.Values
      ensures Valid()
      ensures saved == DragEnd(old(Plan()), availableRecipes, r)
      ensures Plan() == if saved.Some? then saved.value else old(Plan())
      ensures error == if saved.Some? && saveFailed then SaveFailed else old(error)
      ensures forall d :: d in old(plannedMeals) ==> d in plannedMeals && plannedMeals[d] == old(plannedMeals)[d]
    {
      if r.destination.None? {
        return None;
      }
      var recipeId := RecipeIdOf(r.draggableId);
      var dst := IdParts(r.destination.value);
      if r.source == Catalog {
        var plan := DropFromCatalog(dst.0, KeyOf(dst.1), recipeId, saveFailed);
        saved := Some(plan);
      } else if StartsWith(r.source, "date-") {
        var src := IdParts(r.source);
        saved := MoveBetweenSlots(src.0, src.1, dst.0, dst.1, recipeId, saveFailed);
      } else {
        saved := None;
      }
    }

    /** The catalog branch of `onDragEnd`. */
    method DropFromCatalog(date: string, meal: string, recipeId: Option<string>, saveFailed: bool) returns (saved: Plan)
      requires Valid()
      modifies `plannedMeals, `error, plannedMeals.Values
      ensures Valid()
      ensures saved == Put(old(Plan()), date, meal, Find(availableRecipes, recipeId)) && Plan() == saved
      ensures error == if saveFailed then SaveFailed else old(error)
      ensures forall d :: d in old(plannedMeals) ==> d in plannedMeals && plannedMeals[d] == old(plannedMeals)[d]
    {
      var newPlanned := PutSlot(plannedMeals, date, meal, Find(availableRecipes, recipeId));
      saved := Commit(newPlanned, saveFailed);
    }

    /** The slot-to-slot branch of `onDragEnd`, given the pieces of the two ids. */
    method MoveBetweenSlots(srcDate: string, srcPart: Option<string>, date: string, mealPart: Option<string>, recipeId: Option<string>, saveFailed: bool)
      returns (saved: Option<Plan>)
      requires Valid()
      modifies `plannedMeals, `error, plannedMeals.Values
      ensures Valid()
      ensures saved == Move(old(Plan()), srcDate, srcPart, date, mealPart, recipeId)
      ensures Plan() == if saved.Some? then saved.value else old(Plan())
      ensures error == if saved.Some? && saveFailed then SaveFailed else old(error)
      ensures forall d :: d in old(plannedMeals) ==> d in plannedMeals && plannedMeals[d] == old(plannedMeals)[d]
    {
      if srcDate == date && srcPart == mealPart {
        return None;
      }
      var srcMeal, meal := KeyOf(srcPart), KeyOf(mealPart);
      ghost var plan := Plan();
      assert Move(plan, srcDate, srcPart, date, mealPart, recipeId) == MoveKeys(plan, srcDate, srcMeal, date, meal, recipeId);
      var newPlanned, go := PrepareMove(srcDate, srcMeal, date, recipeId);
      ghost var copy := PlanOf(newPlanned);
      assert copy == plan[date := DayOf(plan, date)];
      if go {
        ghost var next := Delete(SetIn(copy, date, meal, Shown(copy, srcDate, srcMeal)), srcDate, srcMeal);
        assert MoveKeys(plan, srcDate, srcMeal, date, meal, recipeId) == Some(next);
        var dst, src := newPlanned[date], newPlanned[srcDate];
        ghost var e0 := error;
        MoveSlot(newPlanned, srcDate, srcMeal, date, meal, dst, src);
        assert error == e0;
        assert PlanOf(newPlanned) == next;
        var plan' := Commit(newPlanned, saveFailed);
        saved := Some(plan');
      } else {
        assert MoveKeys(plan, srcDate, srcMeal, date, meal, recipeId) == None;
        saved := None;
      }
    }

    /**
     * The copy a move works on, with the destination day created when missing,
     * and whether the move goes ahead: the source slot holds the dragged id and
     * its day exists (reading the slot of a missing day throws).
     */
    method PrepareMove(srcDate: string, srcMeal: string, date: string, recipeId: Option<string>)
      returns (newPlanned: map<string, DayPlan>, go: bool)
      requires Valid()
      ensures Injective(newPlanned) && date in newPlanned
      ensures PlanOf(newPlanned) == Plan()[date := DayOf(Plan(), date)]
      ensures go <==> SlotId(PlanOf(newPlanned), srcDate, srcMeal) == recipeId && srcDate in newPlanned
      ensures forall d :: d in plannedMeals ==> d in newPlanned && newPlanned[d] == plannedMeals[d]
      ensures forall d :: d in newPlanned ==> d in plannedMeals || fresh(newPlanned[d])
    {
      newPlanned := AddDay(plannedMeals, date);
      var srcId := SourceId(newPlanned, srcDate, srcMeal);
      go := srcId == recipeId && srcDate in newPlanned;
    }

    /** `removeMeal(date, mealType)`. */
    method RemoveMealAt(date: string, meal: string, saveFailed: bool) returns (saved: Option<Plan>)
      requires Valid()
      modifies `plannedMeals, `error, plannedMeals.Values
      ensures Valid() && plannedMeals == old(plannedMeals)
      ensures saved == RemoveMeal(old(Plan()), date, meal)
      ensures Plan() == if saved.Some? then saved.value else old(Plan())
      ensures error == if saved.Some? && saveFailed then SaveFailed else old(error)
    {
      var newPlanned := plannedMeals;
      if date in newPlanned && meal in newPlanned[date].slots && newPlanned[date].slots[meal].Some? {
        DeleteSlot(newPlanned, date, meal);
        var plan := Commit(newPlanned, saveFailed);
        saved := Some(plan);
      } else {
        saved := None;
      }
    }
  }
}
