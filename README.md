# NutriPlan front end, modelled in Dafny

NutriPlan is a recipe and meal-planning web front end. Its pages and Redux stores do
their real work in a handful of small state updates and data transforms:

- the drag-and-drop meal planner, a map from date key to a day map from meal type to recipe;
- the add-recipe form with its list editors, validation, payload trimming and reset;
- the recipe search page, which reads its filters from the URL, writes them back and
  pages through results;
- the `recipes`, `auth` and `favorites` stores, each request moving through pending,
  fulfilled and rejected;
- the grocery list, grouped by store and exported to a paginated PDF;
- the profile page with its toggles, the allergy box and the save body.

This project models each of these in Dafny and proves what the code promises about
them. The modules follow the source files:

| module | models |
|---|---|
| `MealPlanner` (meal_planner.dfy) | `src/pages/MealPlanner.jsx`: a `Planner` class whose `plannedMeals` field maps dates to `DayPlan` objects, so the day maps a shallow copy shares with the previous state are written in place, as in the source; `DragEnd`, `Move` and `RemoveMeal` state the handlers on values |
| `AddRecipe` (add_recipe.dfy) | `src/pages/AddRecipe.jsx`: the list editors and toggles as functions, and an `AddRecipePage` class whose `HandleSubmit` runs the guarded checks and the reset, proved against the pure `Submit` |
| `RecipeSearch` (recipe_search.dfy) | `src/pages/RecipeSearch.jsx`: filters read from the URL, the URL sync effect, the ingredient and tag editors, pagination |
| `SearchQuery` (search_query.dfy) | the conditional, ordered parameter writes that the URL sync of the search page and `fetchRecipes` share |
| `RecipesSlice`, `AuthSlice`, `FavoritesSlice` | the three slices: a pure `Reduce` for each, and a store class whose methods assign the fields as the reducers do, proved to reach `Reduce`'s state |
| `GroceryList` (grocery_list.dfy) | `src/pages/GroceryList.jsx`: the grouping `reduce` as a loop over an accumulator map, and the PDF export loops with their y cursor and page breaks |
| `Profile` (profile.dfy) | `src/pages/Profile.jsx`: functional updates of the profile record, the loaded defaults, the save body |
| `Text`, `Lists`, `CommaList`, `Thunks`, `Options`, `Domain` | the JavaScript operations the pages rely on (`trim`, `split`, `join`, `startsWith`, `filter` and spread on arrays), the comma-separated parser shared by the allergen and allergy boxes, and the `rejectWithValue(message \|\| fallback)` shape of every thunk |

Network calls, storage and user input are parameters. A thunk receives a `Reply` that
says what the server answered. A save receives a `saveFailed` flag. `localStorage` is a
`stored` field of the auth state. JavaScript's `undefined` and `null` are `None`.

## Model

| member | source | states |
|---|---|---|
| MealPlanner.Planner.OnDragEnd | src/pages/MealPlanner.jsx:81-114 | the plan afterwards and the plan handed to `savePlanner` are both `DragEnd` of the plan before; when nothing is saved, the plan is unchanged; the error is set only by a failed save; every existing day object is kept in place |
| MealPlanner.Planner.DropFromCatalog | src/pages/MealPlanner.jsx:92-98 | the catalog branch makes and saves `Put(plan, date, meal, find(id))`: the day is created when missing, and the slot is set to the catalog recipe with that id (`undefined` when none) |
| MealPlanner.Planner.MoveBetweenSlots | src/pages/MealPlanner.jsx:99-113 | the slot-to-slot branch makes and saves exactly `Move` of the plan before, writing the shared day objects in place |
| MealPlanner.Planner.PrepareMove | src/pages/MealPlanner.jsx:104-106 | the copy with the destination day created, and whether the move goes ahead: the source slot holds the dragged id and its day exists |
| MealPlanner.Planner.RemoveMealAt | src/pages/MealPlanner.jsx:116-123 | the plan becomes `RemoveMeal` of the plan before and is saved only if the slot was occupied; the same day objects stay |
| MealPlanner.Planner.Commit | src/pages/MealPlanner.jsx:64-79 | `setPlannedMeals` followed by `savePlanner`: the state becomes the new plan, which is what is saved; a failed save sets 'Failed to save meal plan.' |
| MealPlanner.Planner.LoadPlanner | src/pages/MealPlanner.jsx:34-47 | an answer replaces the plan with `plannedMeals \|\| {}` and clears the error; a failure keeps the plan and sets 'Failed to load meal plan for the week.' |
| MealPlanner.Planner.LoadRecipes | src/pages/MealPlanner.jsx:49-56 | an answer sets the catalog to `recipes \|\| []`; a failure leaves it as it was |
| MealPlanner.Planner.constructor | src/pages/MealPlanner.jsx:22-25 | empty plan, empty catalog, no error |
| MealPlanner.DayPlan.constructor | src/pages/MealPlanner.jsx:95 | a new day object holding exactly the given slots (`{}` when a day is created) |
| MealPlanner.AddDay | src/pages/MealPlanner.jsx:95 | the copy gains an empty day object only when the date is missing; the other day objects are the same objects |
| MealPlanner.SetSlot | src/pages/MealPlanner.jsx:96 | writing one slot of a shared day object changes that day's slot only |
| MealPlanner.DeleteSlot | src/pages/MealPlanner.jsx:119 | `delete` on a shared day object removes that key only |
| MealPlanner.PutSlot | src/pages/MealPlanner.jsx:95-96 | creating the day if needed and then writing the slot gives `Put` of the plan |
| MealPlanner.MoveSlot | src/pages/MealPlanner.jsx:108-109 | the two in-place writes of a move: the destination gets the source slot's value, then the source key is deleted |
| MealPlanner.SourceId | src/pages/MealPlanner.jsx:106 | `newPlanned[d]?.[m]?._id`, read off the day objects |
| MealPlanner.Materialize | src/pages/MealPlanner.jsx:41 | a fresh, unshared day object for every date of the plan the server sent |
| MealPlanner.PlanOf | src/pages/MealPlanner.jsx:22 | the plan held by the day objects has exactly their dates |
| MealPlanner.At | src/pages/MealPlanner.jsx:87 | indexing past the end of a split is `undefined` |
| MealPlanner.RecipeIdOfCard | src/pages/MealPlanner.jsx:87 | the recipe id read from a card's draggable id `recipe-<id>` is that id, when the id has no "recipe-" inside |
| MealPlanner.IdParts | src/pages/MealPlanner.jsx:89 | the two pieces `split('-')` destructures: the date piece is the text before the first '-', so the id is that piece alone or that piece and a '-' followed by the rest; the meal piece is the second piece of the split, absent when there is none |
| MealPlanner.SlotKeyOf | src/pages/MealPlanner.jsx:89 | the date key is the first piece of the split droppable id; the meal key is its second piece, or "undefined" when there is none |
| MealPlanner.Find | src/pages/MealPlanner.jsx:96 | `find` returns the first catalog recipe with that id (no earlier recipe has it), or nothing when no recipe has it |
| MealPlanner.Put | src/pages/MealPlanner.jsx:94-96 | the dates are the old ones plus the destination; the destination day is the old day (or `{}`) with one slot set; every other day is unchanged |
| MealPlanner.SetIn | src/pages/MealPlanner.jsx:108 | one slot of an existing day set; dates and other days unchanged |
| MealPlanner.Delete | src/pages/MealPlanner.jsx:109 | one key of an existing day removed; dates and other days unchanged |
| MealPlanner.PutIsSetIn | src/pages/MealPlanner.jsx:95-96 | creating the day and then setting the slot is `Put` |
| MealPlanner.RecipeIdOf | src/pages/MealPlanner.jsx:87 | `split('recipe-')[1]` is defined exactly when the draggable id contains "recipe-", and it never contains "recipe-" itself; `RecipeIdOfCard` gives the id back from a card's `recipe-<id>` |
| MealPlanner.KeyOf | src/pages/MealPlanner.jsx:89 | a present piece is its own property name; a missing piece (`undefined`) becomes the property name "undefined" |
| MealPlanner.Shown | src/pages/MealPlanner.jsx:106 | `plan[date]?.[meal]`: the slot's recipe when the day and the slot exist, nothing otherwise |
| MealPlanner.SlotId | src/pages/MealPlanner.jsx:106 | `?._id` is defined exactly when the slot shows a recipe, and then it is that recipe's id |
| MealPlanner.Move | src/pages/MealPlanner.jsx:101-112 | a new plan exactly when the pieces differ under `===`, the source day exists or is the destination day created at line 105, and the source slot holds the dragged id; the new plan has the old dates plus the destination and no source key; `MoveShiftsRecipe`, `MoveSteps` and `MoveOntoItself` state every slot of it |
| MealPlanner.DragEnd | src/pages/MealPlanner.jsx:81-114 | no destination: nothing saved; a catalog drop: always saved; a source neither the catalog nor starting with 'date-': nothing saved; a saved plan has the old dates plus the destination's date piece. Each branch in full: `DropOutsideIgnored`, `CatalogDropSetsSlot`, `SameSlotIgnored`, `MoveShiftsRecipe`, `MoveNeedsMatchingSource`, `KeyCollisionMove`; `Planner.OnDragEnd` is proved to do exactly this |
| MealPlanner.DropOutsideIgnored | src/pages/MealPlanner.jsx:82-84 | a drop with no destination changes and saves nothing |
| MealPlanner.CatalogDropSetsSlot | src/pages/MealPlanner.jsx:92-98 | a catalog drop always saves; it sets the destination slot to the found recipe, overwriting the occupant; the other slots of that day and every other day are unchanged |
| MealPlanner.SameSlotIgnored | src/pages/MealPlanner.jsx:101-102 | a drop onto the slot it came from changes and saves nothing |
| MealPlanner.MoveShiftsRecipe | src/pages/MealPlanner.jsx:99-112 | a move that saves came through the 'date-' gate, its source pieces differ from the destination pieces (`===` on the pieces, line 101), and its source slot held the dragged id; the dates are the old ones plus the destination; the source key is gone; when the two keys differ, the destination shows the source recipe; every other slot, on the source and destination days as well as on every other day, is unchanged |
| MealPlanner.MoveSteps | src/pages/MealPlanner.jsx:104-109 | for two different keys: on the copy, the guard reads the original source slot; the writes show the source recipe at the destination and remove the source key; the dates are the old ones plus the destination; every other day and every other slot of the two days is unchanged |
| MealPlanner.MoveOntoItself | src/pages/MealPlanner.jsx:108-109 | when source and destination name the same key, the write and then the delete leave that day without the key; the dates are the old ones plus the destination and every other slot is unchanged |
| MealPlanner.KeyCollisionMove | src/pages/MealPlanner.jsx:101 | a missing meal piece and the text "undefined" differ under `===`, so the same-slot test lets the move through, yet both address the key "undefined": when the guard passes, that key is deleted and the plan saved |
| MealPlanner.UndefinedMealMove | src/pages/MealPlanner.jsx:101-111 | dropping the card of recipe "x" from "date-undefined" on "date" deletes the slot "undefined" of day "date" and saves the plan with that day empty |
| MealPlanner.MoveNeedsMatchingSource | src/pages/MealPlanner.jsx:106 | when the source slot does not hold the dragged id, nothing changes and nothing is saved |
| MealPlanner.RemoveMeal | src/pages/MealPlanner.jsx:116-123 | there is a new plan to save exactly when the slot shows a recipe |
| MealPlanner.RemoveMealDeletesSlot | src/pages/MealPlanner.jsx:117-119 | removing exactly deletes that key and keeps the possibly empty day map and every other day |
| MealPlanner.CellIdParts | src/pages/MealPlanner.jsx:212 | a grid cell's id `yyyy-MM-dd-Meal` splits on '-' into year, month, day and meal type |
| MealPlanner.CellKeyIsYearMonth | src/pages/MealPlanner.jsx:89 | as written, a drop onto a grid cell (id built at line 212) is filed under the year and the month of its date |
| MealPlanner.CatalogDropNotShown | src/pages/MealPlanner.jsx:89-98 | as written, a catalog drop onto a grid cell saves a plan in which that cell shows what it showed before |
| MealPlanner.CellMoveIgnored | src/pages/MealPlanner.jsx:99 | as written, a drag that starts at a grid cell never passes the 'date-' gate and is ignored |
| MealPlanner.FindingsExample | src/pages/MealPlanner.jsx:89-101 | the concrete ids "2024-01-15-Breakfast" and "2024-01-16-Lunch" show both findings |
| MealPlanner.CellKeyOfParts | src/pages/MealPlanner.jsx:212 | how the corrected reading takes an id apart, given its split |
| MealPlanner.CellKey | src/pages/MealPlanner.jsx:212 | the corrected reading of a cell's id: an id with a '-' is the date key, '-', and a meal type without '-'; an id without '-' is a date with the meal "undefined"; `CellKeyRoundTrip` gives back what a cell's id was built from |
| MealPlanner.IntendedDragEnd | src/pages/MealPlanner.jsx:81-114 | the corrected handler: a drop with no destination saves nothing, a catalog drop always saves, a saved plan has the old dates plus the cell's whole date key; `IntendedCatalogDropShown`, `IntendedDragIsMove` and `IntendedMoveBetweenCells` state the rest |
| MealPlanner.DateKeyJoin | src/pages/MealPlanner.jsx:209 | a date key is its three fields joined with '-' |
| MealPlanner.CellKeyRoundTrip | src/pages/MealPlanner.jsx:209-212 | the corrected reading gives back the date key and meal type a cell's id was built from |
| MealPlanner.GridCell | src/pages/MealPlanner.jsx:212 | a grid cell's id reads back, and is never the catalog's id 'available-recipes' of line 157 |
| MealPlanner.IntendedDragIsMove | src/pages/MealPlanner.jsx:99-101 | with the corrected reading and gate, a drag between cells is a `Move` between them |
| MealPlanner.IntendedCatalogDropShown | src/pages/MealPlanner.jsx:92-96 | with the corrected reading, a recipe dropped from the catalog shows in the cell it was dropped on |
| MealPlanner.IntendedMoveBetweenCells | src/pages/MealPlanner.jsx:99-112 | with the corrected reading and gate, dragging a planned recipe's card to another cell shows it there and empties its cell |
| AddRecipe.WithField | src/pages/AddRecipe.jsx:39 | `{ ...ing, [field]: value }` sets that field and keeps the other two |
| AddRecipe.AddIngredientField | src/pages/AddRecipe.jsx:31-33 | one blank row at the end, the earlier rows unchanged |
| AddRecipe.RemoveIngredientField | src/pages/AddRecipe.jsx:34-36 | exactly row `index` goes and the rest keep their order; an index out of range changes nothing |
| AddRecipe.UpdateIngredient | src/pages/AddRecipe.jsx:37-41 | same length; only field `f` of row `index` changes |
| AddRecipe.AddInstruction | src/pages/AddRecipe.jsx:43 | one empty step at the end, the earlier steps unchanged |
| AddRecipe.UpdateInstruction | src/pages/AddRecipe.jsx:44-46 | same length; only step `index` changes |
| AddRecipe.RemoveInstruction | src/pages/AddRecipe.jsx:47-49 | exactly step `index` goes and the rest keep their order |
| AddRecipe.RemoveAddedIngredient | src/pages/AddRecipe.jsx:31-36 | removing the row just added restores the rows |
| AddRecipe.ToggleDietaryTag | src/pages/AddRecipe.jsx:51-57 | the tag's membership flips, other tags' membership and every other field stay |
| AddRecipe.ToggleAllergen | src/pages/AddRecipe.jsx:59-65 | the allergen's membership flips, everything else stays |
| AddRecipe.ToggleDietaryTagTwice | src/pages/AddRecipe.jsx:51-57 | toggling an absent tag twice restores the form |
| AddRecipe.EditAllergens | src/pages/AddRecipe.jsx:289-295 | typing stores only trimmed, non-empty, comma-free entries and changes no other field |
| AddRecipe.AllergensFieldRoundTrip | src/pages/AddRecipe.jsx:288-295 | the box's text `join(', ')` parses back to the same list for such entries |
| AddRecipe.Validate | src/pages/AddRecipe.jsx:101-106 | the checks in order, each message exactly when the earlier checks pass and this one fails; none exactly when all pass |
| AddRecipe.TrimRows | src/pages/AddRecipe.jsx:111-115 | every field of every row trimmed, rows in place |
| AddRecipe.TrimSteps | src/pages/AddRecipe.jsx:116 | every step trimmed, in place |
| AddRecipe.TrimRowsStable | src/pages/AddRecipe.jsx:111-115 | trimming rows twice is trimming them once |
| AddRecipe.TrimStepsStable | src/pages/AddRecipe.jsx:116 | trimming steps twice is trimming them once |
| AddRecipe.TrimIngredientStable | src/pages/AddRecipe.jsx:112-114 | trimming a row twice is trimming it once |
| AddRecipe.BuildPayload | src/pages/AddRecipe.jsx:109-122 | title, ingredient fields and steps trimmed; cuisine, tags, allergens, image URL and `isPublic` passed through |
| AddRecipe.ValidPayloadIsClean | src/pages/AddRecipe.jsx:101-122 | a payload built from a valid form has a non-empty trimmed title, named trimmed ingredients, non-empty trimmed steps and a cuisine |
| AddRecipe.PayloadStable | src/pages/AddRecipe.jsx:109-122 | building a payload from a payload's own fields gives it back |
| AddRecipe.CatchMessage | src/pages/AddRecipe.jsx:138 | a non-empty server message when there is one; otherwise a non-empty error message; otherwise, with both absent or empty, 'Failed to submit recipe'; never empty |
| AddRecipe.ValidationMessageShown | src/pages/AddRecipe.jsx:101-106 | a thrown check's message is the message the catch of line 138 shows |
| AddRecipe.SubmitPostsOnlyValid | src/pages/AddRecipe.jsx:85-126 | a post is made exactly when the upload, if any, succeeded and the form is valid, and it carries `BuildPayload` |
| AddRecipe.SubmitPostsClean | src/pages/AddRecipe.jsx:101-124 | whatever is posted has a trimmed title, ingredients, steps and a cuisine |
| AddRecipe.SubmitOutcome | src/pages/AddRecipe.jsx:127-141 | only an accepted post resets every field to its initial value; any failure keeps the entries and shows a non-empty message, which is the check's own message when validation failed; `submitting` ends false |
| AddRecipe.Submit | src/pages/AddRecipe.jsx:80-142 | every submission ends with `submitting` false and a non-empty message; what is posted is `BuildPayload` of the form with the uploaded image's URL; a failed upload posts nothing. `SubmitPostsOnlyValid`, `SubmitPostsClean` and `SubmitOutcome` state when a post is made and what the form becomes |
| AddRecipe.EmptyTitleRejected | src/pages/AddRecipe.jsx:101 | a form with an empty title and no image file fails the first check: nothing is posted, the entries stay and 'Title is required' is shown |
| AddRecipe.UntouchedFormRejected | src/pages/AddRecipe.jsx:15-25 | the form as first shown fails with 'Title is required', posts nothing and keeps its initial entries |
| AddRecipe.AddRecipePage.constructor | src/pages/AddRecipe.jsx:15-25 | the initial form |
| AddRecipe.AddRecipePage.CheckFields | src/pages/AddRecipe.jsx:101-106 | the guarded throws yield exactly `Validate` of the form |
| AddRecipe.AddRecipePage.ResetForm | src/pages/AddRecipe.jsx:129-136 | every entry field back to its initial value |
| AddRecipe.AddRecipePage.HandleSubmit | src/pages/AddRecipe.jsx:80-142 | the state reached and the payload posted are those of `Submit` on the state before |
| RecipeSearch.TextParam | src/pages/RecipeSearch.jsx:15-24 | `get(key) \|\| ''` for the text filters is empty exactly when the key is absent or empty |
| RecipeSearch.ListParam | src/pages/RecipeSearch.jsx:16-22 | empty exactly when the parameter is absent or empty; otherwise the pieces joined with ',' give the parameter back |
| RecipeSearch.FiltersFromParams | src/pages/RecipeSearch.jsx:15-24 | each text filter is '' exactly when its parameter is absent or empty, and otherwise the parameter's value; each list is empty exactly when its parameter is absent or empty, and otherwise joins with ',' to the parameter's value; `UrlRoundTrip` reads back what the sync wrote |
| RecipeSearch.InitialPage | src/pages/RecipeSearch.jsx:26 | `Number(page) \|\| 1` is the store's page unless that is 0, and never 0 |
| RecipeSearch.UrlPage | src/pages/RecipeSearch.jsx:48 | the page is written exactly when it is not 1, as its decimal string |
| RecipeSearch.ListEntryRoundTrip | src/pages/RecipeSearch.jsx:16-18 | a comma-free list, other than `[""]`, is read back from the value the sync writes at line 43 |
| RecipeSearch.UrlRoundTrip | src/pages/RecipeSearch.jsx:15-48 | opening the URL the page wrote gives back every filter |
| RecipeSearch.FiltersBack | src/pages/RecipeSearch.jsx:15-24 | any parameters that hold, for each filter key, what the builders emit for that filter read back as those filters |
| RecipeSearch.EmptyStringListLost | src/pages/RecipeSearch.jsx:17 | the one list the URL does not carry: `[""]`, written as '' at line 43, comes back as `[]` |
| RecipeSearch.Open | src/pages/RecipeSearch.jsx:15-26 | the page's first state: filters from the URL, empty ingredient input, page from the store |
| RecipeSearch.Sync | src/pages/RecipeSearch.jsx:28-51 | the effect dispatches the current filters and page, and writes the entries for the filters with the page left out on page 1 |
| RecipeSearch.UrlMatchesRequest | src/pages/RecipeSearch.jsx:41-48 | the URL and the request's query string agree on every filter key; the URL has no page exactly on page 1, the request exactly on page 0 |
| RecipeSearch.AddIngredient | src/pages/RecipeSearch.jsx:56-61 | the trimmed input is appended and the input cleared exactly when it is non-empty and new; otherwise nothing changes |
| RecipeSearch.AddIngredientKeepsClean | src/pages/RecipeSearch.jsx:56-61 | adding this way never brings in a duplicate or an empty or untrimmed entry |
| RecipeSearch.AppendCleanEntry | src/pages/RecipeSearch.jsx:58 | appending a trimmed non-empty entry keeps the list clean |
| RecipeSearch.RemoveIngredient | src/pages/RecipeSearch.jsx:62-64 | every occurrence goes, every other entry's count stays, nothing else changes |
| RecipeSearch.ToggleDietaryTag | src/pages/RecipeSearch.jsx:66-72 | the tag's membership flips, everything else stays |
| RecipeSearch.TotalPages | src/pages/RecipeSearch.jsx:75 | the ceiling of total/10: the least r with total <= 10r |
| RecipeSearch.PrevPage | src/pages/RecipeSearch.jsx:234 | one back when above 1, and 1 at or below 1; never below 1 |
| RecipeSearch.NextPage | src/pages/RecipeSearch.jsx:255 | one on when below the page count, and the page count at or past it; never above it |
| RecipeSearch.PageNumbers | src/pages/RecipeSearch.jsx:240 | one button per page, numbered 1 to the page count |
| RecipeSearch.PagesStayInRange | src/pages/RecipeSearch.jsx:231-256 | with more than one page, every control keeps the page between 1 and the page count |
| RecipeSearch.Submit | src/pages/RecipeSearch.jsx:81-84 | submitting goes back to page 1 and requests page 1 with the current filters |
| SearchQuery.Get | src/redux/slices/recipesSlice.jsx:21 | `get` gives the value of the first entry with that key (`FirstEntry`: no earlier entry has the key), or nothing when no entry has it; so `?query=a&query=b` reads 'a' |
| SearchQuery.GetEmit | src/redux/slices/recipesSlice.jsx:23-29 | looking a key up past a conditional append |
| SearchQuery.Entries | src/redux/slices/recipesSlice.jsx:23-29 | at most one entry per filter key and the page, and every entry holds the value meant for its key; `EntriesGet`, `EntriesSent` and `EntriesOrdered` state which keys appear and in what order, and `BuildEntries` proves the appends build it |
| SearchQuery.EntriesGet | src/redux/slices/recipesSlice.jsx:23-29 | every key reads back the value meant for it, in the request and in the URL the search page writes, and keys outside the seven are absent |
| SearchQuery.EntriesSent | src/redux/slices/recipesSlice.jsx:23-29 | each filter's key is there exactly when the filter is non-empty; lists are joined with ',' |
| SearchQuery.KeyValueIgnoresPage | src/redux/slices/recipesSlice.jsx:23-28 | only the page key depends on how the page is written |
| SearchQuery.Rank | src/redux/slices/recipesSlice.jsx:23-29 | the position of a key in the append order |
| SearchQuery.EmitOrdered | src/redux/slices/recipesSlice.jsx:23-29 | an append ahead of later keys keeps the order |
| SearchQuery.EntriesOrdered | src/redux/slices/recipesSlice.jsx:23-29 | entries come in the order query, ingredients, cuisine, dietaryTags, cookTime, difficulty, page, so no key is written twice |
| SearchQuery.BuildEntries | src/redux/slices/recipesSlice.jsx:21-29 | the successive conditional appends (here and at lines 41-48 of the search page) build exactly `Entries` |
| SearchQuery.AppendThenEmit | src/redux/slices/recipesSlice.jsx:23 | one conditional append is one emitted entry ahead of the rest |
| RecipesSlice.PageEntry | src/redux/slices/recipesSlice.jsx:29 | the page is appended exactly when it is not 0, as `String(page)` |
| RecipesSlice.BuildSearchParams | src/redux/slices/recipesSlice.jsx:21-29 | the appends made for a request are its `SearchParams` |
| RecipesSlice.SettleSearch | src/redux/slices/recipesSlice.jsx:31-37 | fulfilled exactly on an answer, with its recipes and total and the page that was asked for; otherwise the message or 'Failed to fetch recipes' |
| RecipesSlice.SettleDetails | src/redux/slices/recipesSlice.jsx:47-52 | fulfilled with the response data exactly on an answer; otherwise the message or 'Failed to fetch recipe details' |
| RecipesSlice.Reduce | src/redux/slices/recipesSlice.jsx:61-92 | clear sets only `selectedRecipe`; pending sets loading and clears the error, data unchanged; search fulfilled replaces list, total and page only; details fulfilled sets only `selectedRecipe`; rejected stores the reason, data unchanged |
| RecipesSlice.SearchCycle | src/redux/slices/recipesSlice.jsx:67-80 | a whole search ends idle with the answer's data and the requested page and no error, or with the old data and the rejection value |
| RecipesSlice.RecipesStore.constructor | src/redux/slices/recipesSlice.jsx:6-13 | `initialState` |
| RecipesSlice.RecipesStore.ClearSelected | src/redux/slices/recipesSlice.jsx:61-63 | the store reaches `Reduce` of its state |
| RecipesSlice.RecipesStore.OnPending | src/redux/slices/recipesSlice.jsx:67-70 | the store reaches `Reduce` of its state, for this pending case and the details pending case of lines 81-84 |
| RecipesSlice.RecipesStore.OnSearchSettled | src/redux/slices/recipesSlice.jsx:71-80 | the store reaches `Reduce` of its state |
| RecipesSlice.RecipesStore.OnDetailsSettled | src/redux/slices/recipesSlice.jsx:85-92 | the store reaches `Reduce` of its state |
| AuthSlice.InitialToken | src/redux/slices/authSlice.jsx:9 | the stored token, or none when storage is empty or holds '' |
| AuthSlice.Initial | src/redux/slices/authSlice.jsx:7-12 | no user, not loading, no error, token from storage |
| AuthSlice.SettleLogin | src/redux/slices/authSlice.jsx:15-24 | fulfilled with the response exactly on an answer; otherwise the message or 'Failed to login' |
| AuthSlice.SettleRegister | src/redux/slices/authSlice.jsx:27-36 | fulfilled with the response exactly on an answer; otherwise the message or 'Failed to register' |
| AuthSlice.Reduce | src/redux/slices/authSlice.jsx:42-81 | logout clears user, token and storage; setUser sets user and token only; pending sets loading and clears the error; fulfilled sets user and token and stores the token; rejected stores the reason; session and storage unchanged by pending and rejected |
| AuthSlice.ReduceKeepsInSync | src/redux/slices/authSlice.jsx:42-81 | every action but `setUser` keeps storage in step with the token, and logout and sign-in put it in step |
| AuthSlice.SetUserLeavesStorage | src/redux/slices/authSlice.jsx:47-50 | `setUser` can leave the stored token behind the state token |
| AuthSlice.InitialInSync | src/redux/slices/authSlice.jsx:9 | the store starts in step with storage exactly when storage does not hold '' |
| AuthSlice.ReloadKeepsToken | src/redux/slices/authSlice.jsx:9 | a reload after an in-step state, such as the one the sign-in of line 62 leaves, gives back the token, except that '' comes back as none |
| AuthSlice.AuthStore.constructor | src/redux/slices/authSlice.jsx:7-12 | `initialState` for what storage holds |
| AuthSlice.AuthStore.OnLogout | src/redux/slices/authSlice.jsx:42-46 | the store and storage reach `Reduce` of their state |
| AuthSlice.AuthStore.OnSetUser | src/redux/slices/authSlice.jsx:47-50 | the store reaches `Reduce` of its state |
| AuthSlice.AuthStore.OnPending | src/redux/slices/authSlice.jsx:54-57 | the store reaches `Reduce` of its state, for login pending and register pending (lines 68-71) |
| AuthSlice.AuthStore.OnSettled | src/redux/slices/authSlice.jsx:58-67 | the store and storage reach `Reduce` of their state, for login settled and register settled (lines 72-81) |
| FavoritesSlice.FetchFavorites | src/redux/slices/favoritesSlice.jsx:12-28 | a request is made exactly when there is a non-empty token; without one the thunk rejects with 'Not authenticated'; with one, the answer or the message or 'Failed to fetch favorites' |
| FavoritesSlice.NoTokenNoRequest | src/redux/slices/favoritesSlice.jsx:16-17 | without a token the outcome does not depend on the server |
| FavoritesSlice.Reduce | src/redux/slices/favoritesSlice.jsx:36-48 | pending sets loading and clears the error; fulfilled replaces the favourites; rejected stores the reason and keeps them |
| FavoritesSlice.LoadCycle | src/redux/slices/favoritesSlice.jsx:12-48 | a load without a token keeps the favourites and reports 'Not authenticated'; with a token and an answer it replaces them and clears the error |
| FavoritesSlice.FavoritesStore.constructor | src/redux/slices/favoritesSlice.jsx:6-10 | `initialState` |
| FavoritesSlice.FavoritesStore.OnPending | src/redux/slices/favoritesSlice.jsx:37-40 | the store reaches `Reduce` of its state |
| FavoritesSlice.FavoritesStore.OnSettled | src/redux/slices/favoritesSlice.jsx:41-48 | the store reaches `Reduce` of its state |
| Thunks.RejectValue | src/redux/slices/recipesSlice.jsx:35-37 | `message \|\| fallback`: the message when it is non-empty, otherwise the fallback; never empty when the fallback is not |
| Thunks.Settle | src/redux/slices/recipesSlice.jsx:48-52 | fulfilled with the data exactly on an answer, otherwise rejected with `RejectValue` |
| GroceryList.StoreKey | src/pages/GroceryList.jsx:47 | the item's store when it is non-empty, otherwise 'Others' |
| GroceryList.Grouped | src/pages/GroceryList.jsx:45-52 | one group per store in order of first appearance, holding that store's items |
| GroceryList.StoreOrder | src/pages/GroceryList.jsx:47-48 | no stores for no items; `StoreOrderIsKeys` states that it lists each store of the items once, and `StoreOrderGrows` how an item extends it |
| GroceryList.ItemsOf | src/pages/GroceryList.jsx:47-49 | no items for no items; `ItemsOfBelong` states that it holds exactly the items of its store, and `ItemsOfAppend` that it keeps their order |
| GroceryList.GroupByStore | src/pages/GroceryList.jsx:45-52 | the accumulator loop builds exactly `Grouped` |
| GroceryList.StoreOrderIsKeys | src/pages/GroceryList.jsx:47-48 | a store has a group exactly when some item belongs to it, and no store has two |
| GroceryList.ItemsOfBelong | src/pages/GroceryList.jsx:47-49 | a group holds exactly the items of its store |
| GroceryList.ItemsOfAppend | src/pages/GroceryList.jsx:49 | pushing keeps list order within a group |
| GroceryList.GroupedCount | src/pages/GroceryList.jsx:45-52 | the groups hold as many items as the list, so every item is in exactly one group |
| GroceryList.GroupingKeepsCount | src/pages/GroceryList.jsx:45-52 | the stores' item counts add up to the list's length |
| GroceryList.GroupingStep | src/pages/GroceryList.jsx:46-50 | one more item adds one to the total count |
| GroceryList.NewStoreHoldsItem | src/pages/GroceryList.jsx:48-49 | an item of a new store starts its group alone |
| GroceryList.NoItemsOfUnseenStore | src/pages/GroceryList.jsx:48 | a store not yet met has no items |
| GroceryList.StoreOrderGrows | src/pages/GroceryList.jsx:48 | an item adds its store to the end of the store order only when it is new |
| GroceryList.SizesOther | src/pages/GroceryList.jsx:49 | an item does not change the count of other stores |
| GroceryList.SizesOwn | src/pages/GroceryList.jsx:49 | an item adds one to its own store's count |
| GroceryList.SizesExtend | src/pages/GroceryList.jsx:45-52 | counting one more store adds that store's items |
| GroceryList.CountIsSizes | src/pages/GroceryList.jsx:45-52 | the groups' sizes are the stores' counts |
| GroceryList.Break | src/pages/GroceryList.jsx:65-68 | past 270 a new page starts at 20, otherwise the cursor stays; the same check is at lines 74-77 and 85-88 |
| GroceryList.Layout | src/pages/GroceryList.jsx:62-92 | at most one drawn line per step, and pages only go forward; `LayoutDrawsLines`, `LayoutInMargins` and `LayoutAppend` state what is drawn, where, and how runs compose |
| GroceryList.LayoutAppend | src/pages/GroceryList.jsx:62-92 | laying out two runs in turn is laying out their concatenation |
| GroceryList.LayoutInMargins | src/pages/GroceryList.jsx:62-92 | every line is drawn with 20 <= y <= 270, and pages only go forward |
| GroceryList.FirstLine | src/pages/GroceryList.jsx:74-78 | a line is drawn at the cursor, or at the top of a new page |
| GroceryList.LinesAreSpaced | src/pages/GroceryList.jsx:63-91 | successive lines are 6 apart, or the next is at the top of the next page |
| GroceryList.FlatExportSpacing | src/pages/GroceryList.jsx:84-91 | the flat list's lines are 6 apart, breaking pages as needed |
| GroceryList.GroupSpacing | src/pages/GroceryList.jsx:69-81 | a store's name and items are 6 apart, and its block ends 4 below its last line |
| GroceryList.Ink | src/pages/GroceryList.jsx:70 | what was drawn here and at lines 78 and 89, without positions |
| GroceryList.ItemText | src/pages/GroceryList.jsx:78 | the line starts with `- ` and the item's name and ends with `)`; the same text is drawn at line 89 |
| GroceryList.LayoutDrawsLines | src/pages/GroceryList.jsx:62-92 | every line step is drawn, in order, with its text, column and weight |
| GroceryList.ItemSteps | src/pages/GroceryList.jsx:73-80 | one line per item with its text at the given column, as here and at lines 84-91 |
| GroceryList.ItemStepsDownward | src/pages/GroceryList.jsx:79 | item lines only move the cursor down |
| GroceryList.GroupedStepsDownward | src/pages/GroceryList.jsx:72-81 | grouped steps only move the cursor down |
| GroceryList.LinesOfItems | src/pages/GroceryList.jsx:78 | the item lines are the items' texts in order, as here and at line 89 |
| GroceryList.FlatExportShape | src/pages/GroceryList.jsx:84-91 | the flat export draws one line per item, in order, `- name (quantity unit)` at x = 14, between the margins |
| GroceryList.GroupedExportInMargins | src/pages/GroceryList.jsx:63-82 | the grouped export draws every line between the margins |
| GroceryList.GroupedExportShape | src/pages/GroceryList.jsx:63-82 | the grouped export draws, group by group, the store's name in bold at x = 14 and then each of its items once at x = 18; stores plus items lines in all, each between the margins |
| GroceryList.DrawLine | src/pages/GroceryList.jsx:74-79 | one draw with its page check is one `Line` step of the layout |
| GroceryList.DrawAfter | src/pages/GroceryList.jsx:62-92 | drawing more continues the layout |
| GroceryList.ExportFlat | src/pages/GroceryList.jsx:55-92 | the heading and then exactly the flat layout from y = 40 |
| GroceryList.DrawGroup | src/pages/GroceryList.jsx:64-82 | one store's loop body is its block's layout |
| GroceryList.ExportGrouped | src/pages/GroceryList.jsx:55-82 | the heading and then exactly the grouped layout from y = 40 |
| Profile.WithValues | src/pages/Profile.jsx:62-64 | `{ ...prev, [field]: xs }` sets that field and keeps every other |
| Profile.ToggleArrayValue | src/pages/Profile.jsx:58-66 | the value's membership flips in that field; every other value and every other field stay |
| Profile.ToggleTwiceRestores | src/pages/Profile.jsx:58-66 | two clicks on a clear box restore the profile |
| Profile.ToggleKeepsDistinct | src/pages/Profile.jsx:58-66 | toggling keeps a field free of duplicates |
| Profile.SetAllergiesText | src/pages/Profile.jsx:143-150 | only trimmed non-empty comma-free allergies are kept, and only the allergies change |
| Profile.AllergiesRoundTrip | src/pages/Profile.jsx:142-150 | the box's text parses back to the same list for such entries |
| Profile.AllergiesTextStable | src/pages/Profile.jsx:142-150 | once typed in, showing and reading back changes nothing more |
| Profile.SetFitnessGoals | src/pages/Profile.jsx:194 | only the goals change |
| Profile.FitnessGoalsLastWins | src/pages/Profile.jsx:194 | the last text typed is the one kept; retyping the same text changes nothing |
| Profile.LoadProfile | src/pages/Profile.jsx:39-47 | missing arrays load as `[]`, missing goals as `''`, account fields as sent |
| Profile.LoadBareAccount | src/pages/Profile.jsx:39-47 | an answer with only account fields loads as the empty profile for that account |
| Profile.LoadFullProfile | src/pages/Profile.jsx:39-47 | a profile sent back whole loads as itself |
| Profile.OnMount | src/pages/Profile.jsx:28-55 | without a token the visitor is sent to login; otherwise loading ends with the loaded profile, or with the old data and 'Failed to load profile info' |
| Profile.SaveBody | src/pages/Profile.jsx:74-80 | the five editable fields, as they are |
| Profile.SaveBodyIgnoresAccount | src/pages/Profile.jsx:72-80 | two profiles send the same body exactly when they differ at most in username and email |
| Profile.EditsKeepAccount | src/pages/Profile.jsx:58-66 | no edit (the toggles, the allergy box at lines 143-150, the goals at line 194) changes username or email |
| Profile.OnSaved | src/pages/Profile.jsx:85-90 | the save ends with 'Profile saved successfully!' or 'Failed to save profile.', and `saving` false |
| CommaList.Parse | src/pages/AddRecipe.jsx:291-294 | `split(',').map(trim).filter(Boolean)`, also at lines 146-149 of the profile page, gives only trimmed, non-empty, comma-free entries |
| CommaList.Display | src/pages/AddRecipe.jsx:288 | `join(', ')` shows nothing for no entries and starts with the first entry otherwise; `ParseDisplay` reads it back |
| CommaList.ParseDisplay | src/pages/AddRecipe.jsx:288-295 | `join(', ')` then parsing gives such a list back, for both boxes |
| CommaList.ParseEmpty | src/pages/AddRecipe.jsx:288-295 | an empty box parses to the empty list |
| CommaList.ParseDisplayNonEmpty | src/pages/AddRecipe.jsx:288-295 | the round trip for a list with entries |
| CommaList.SplitDisplay | src/pages/AddRecipe.jsx:288-292 | splitting the shown text on ',' gives the first entry and the others with a leading space |
| CommaList.TrimIndented | src/pages/AddRecipe.jsx:293 | trimming those pieces gives the entries back |
| CommaList.TrimAll | src/pages/AddRecipe.jsx:293 | every piece trimmed, in place |
| CommaList.TrimmedPartsCommaFree | src/pages/AddRecipe.jsx:292-293 | pieces of a split on ',' stay comma-free once trimmed |
| CommaList.DropBlanksLeavesEntries | src/pages/AddRecipe.jsx:294 | `filter(Boolean)` on trimmed comma-free pieces leaves only entries |
| Lists.Toggle | src/pages/AddRecipe.jsx:51-57 | a present value has all its occurrences removed and an absent one is appended, so its membership flips; every other value's membership stays |
| Lists.ToggleTwice | src/pages/AddRecipe.jsx:51-57 | toggling an absent value appends it, and toggling again restores the list |
| Lists.ToggleKeepsDistinct | src/pages/AddRecipe.jsx:51-57 | toggling never brings in a duplicate |
| Lists.RemoveAll | src/pages/RecipeSearch.jsx:63 | every occurrence goes and every other count stays |
| Lists.RemoveAt | src/pages/AddRecipe.jsx:35 | exactly position `i` goes when it exists |
| Lists.UpdateAt | src/pages/AddRecipe.jsx:45 | the update at `i` when it is a position, the list otherwise |
| Text.Trim | src/pages/AddRecipe.jsx:101 | `trim` gives a slice of the input with only white space before and after it; the slice is trimmed and has no new characters, and it is empty exactly for all-space input |
| Text.TrimIdempotent | src/pages/AddRecipe.jsx:110-116 | trimming twice is trimming once |
| Text.Split | src/pages/MealPlanner.jsx:87-89 | the pieces, joined with the separator, give the string back, and none contains the separator |
| Text.SplitJoinChar | src/pages/RecipeSearch.jsx:17 | splitting on a character undoes `join` of pieces without it |
| Text.Join | src/pages/RecipeSearch.jsx:43 | `join` of no pieces is '', and otherwise starts with the first piece; `JoinSnoc` adds the last piece with its separator, and `SplitJoinChar` undoes it |
| Text.StartsWith | src/pages/MealPlanner.jsx:99 | a prefix: no longer than the string, and the string is the prefix followed by the rest |
| Text.IndexOf | src/pages/MealPlanner.jsx:87 | the first occurrence, or none |
| Text.NatToString | src/redux/slices/recipesSlice.jsx:29 | decimal digits only, no leading zero, and read in base ten the digits give back the number |
| Text.IntToString | src/redux/slices/recipesSlice.jsx:29 | `String(n)`: the decimal numeral with a minus sign for negatives; read back with its sign it gives `n`, so different integers print differently |

## Left out

- React rendering, effects and their dependency lists, react-router's `navigate` and the react-beautiful-dnd gesture itself. Only the drop result record reaches the model.
- Every axios call. Each is a `Reply`/`Response` parameter, or a `saveFailed` flag for `savePlanner`. The request URLs, headers and bodies beyond their fields are not modelled.
- Async ordering, stale responses and loading races. Each handler is modelled as running to completion before the next one starts.
- The `loading` flags of the meal planner and grocery pages, and the transient `submitting`/`saving` true state of the add-recipe and profile pages. Only the final value after the request is stated.
- date-fns and `toISOString`. Week starts, week navigation and date formatting are not modelled; where the code formats a date, the model takes the resulting string (`weekLabel`, the date fields of `DateKey`) as input.
- The image upload of the add-recipe form, `URL.createObjectURL` and `clearImage`. The upload's answer is a parameter, and the file and the preview are optional strings.
- jsPDF fonts, sizes and `doc.save`. Only the text, column, baseline, page and weight of each line are kept.
- URLSearchParams percent-encoding and `toString`. Parameters are an ordered list of key/value entries.
- `Object.entries` ordering of integer-like keys. `GroceryList.ExportGrouped` takes the groups in first-appearance order, which JavaScript uses only for store names that are not array indices.
- `MealPlanner.Planner.LoadPlanner`: a day that the server sends as `null` is not modelled; every day map is an object.
- Tokens and payloads of types other than the ones declared. A stored token is a string or absent, and a page is an integer. `Number(page)` on non-numeric input and `Math.ceil` on `NaN` are not modelled.
- `RecipeSearch.PageNumbers`: for a negative page count, `Array(n)` throws a RangeError in the source; the model returns no buttons.
- `MealPlanner.Planner.OnDragEnd`: `draggingRecipe` is display state only and is left out. When the move guard passes on a missing source day, the source throws a TypeError; the model leaves the plan unchanged and saves nothing, which matches what the user sees.
- `GroceryList.StoreKey`, `GroceryList.GroupByStore` and `MealPlanner.Put` treat every store name, date and meal type as an own key of a fresh object. Names inherited from `Object.prototype`, such as "constructor", "toString" or "__proto__", are not modelled. In the source such a key reads an inherited value; at `src/pages/GroceryList.jsx:48-49` a store named "toString" skips the `[]` initialisation and `acc[store].push` throws a TypeError.
- `AuthSlice.InitialToken` reads storage once at load. The effect of other tabs writing storage is not modelled.
- The fetch effect of the grocery page and its error text. The list it loads is an input of the grouping and export.
- `src/pages/RecipeDetails.jsx`, `src/pages/Favorites.jsx`, `src/pages/Login.js`, `src/pages/Register.js`, `src/components/Navbar.js`, `src/App.jsx` and the store configuration are fetch, redirect and rendering glue. They are not part of this model.

## Findings

| source | as written | input that shows it | evidently intended | confidence | as-written member | corrected member |
|---|---|---|---|---|---|---|
| src/pages/MealPlanner.jsx:89 | `destination.droppableId.split('-')` keeps the first two fields, and grid ids are `${yyyy-MM-dd}-${mealType}` (line 212), so a drop is filed under the year and the month | dropping a catalog recipe on "2024-01-15-Breakfast" writes `plannedMeals["2024"]["01"]`; the cell reads `plannedMeals["2024-01-15"]["Breakfast"]` and still shows nothing | the date before the last '-', the meal type after it, so the dropped recipe shows in the cell | high, not executed | MealPlanner.CatalogDropNotShown (with MealPlanner.CellKeyIsYearMonth) | MealPlanner.IntendedCatalogDropShown (with MealPlanner.CellKey, MealPlanner.CellKeyRoundTrip) |
| src/pages/MealPlanner.jsx:99 | the move branch runs only for source ids starting with "date-", which no grid id does (they start with the year), so a drag between cells is ignored | dragging a card from "2024-01-15-Breakfast" to "2024-01-16-Lunch" returns without changing or saving anything | any source other than the catalog is a slot, read with the corrected key, so the recipe moves | high, not executed | MealPlanner.CellMoveIgnored | MealPlanner.IntendedMoveBetweenCells (with MealPlanner.IntendedDragEnd) |

The `Planner` class follows the code as written: `OnDragEnd` is proved equal to
`DragEnd`, which shows both findings. `IntendedDragEnd` is the corrected drop handler
on values. It reuses the catalog-drop and move logic of `Put` and `Move`, and its two
lemmas prove the behaviour the grid evidently intends.
