# Family Kitchen Hub — a verified model of its rule-bearing core

Family Kitchen Hub is a household cooking assistant. It is a React front end over a Spring Boot back end. Most of it is screens and REST plumbing. This project models, in Dafny, the parts that follow exact rules:

- **Family profiles** (`FamilyProfile`): the BMI null guard and the four BMI bands; the comma-separated tag parser; the member list the page keeps, with validated save (edit in place or prepend), delete by id, clear all and load sample.
- **Fridge** (`Fridge`): quick add and custom add, with their trimming and blank-name checks; the expiry-status classifier over a whole-day difference; `expiredDays`; the `statusInfo` display table; prepending to the item list.
- **Ingredient admin page** (`IngredientsPage`):
  - the ordered required-field validator and the request body it guards, where macro-nutrients default to 0;
  - the edit form filled from a stored ingredient;
  - the `parseNutritionalInfo` formatter.
- **Recipe admin page** (`RecipesPage`):
  - the category toggle, both as written (it never reaches the server) and as intended (the category-id list it should send);
  - the order of a new step and the guard on the step input;
  - the coercion of empty numeric fields to null;
  - the edit-form defaults and the normalisation of the fetched list.
- **Recipe-ingredient service** (`RecipeIngredientService`): add with its two existence checks; the partial update that overwrites only non-null fields; delete with not-found; lookup by recipe. The repositories are maps and sets inside one store object.

Shared modules:

- `Wrappers` holds `Option` and `Result`.
- `Strings` holds JavaScript's `trim`, `split` on one character, and `join`.
- `AdminForms` holds what both admin pages use:
  - the values a form field can hold;
  - JavaScript truthiness;
  - the numbers `parseInt`/`parseFloat` read, kept symbolic;
  - fetch normalisation.

State that a page or the service updates in place lives in a class:

- `FamilyProfiles`
- `FridgeManager`
- `IngredientsPageState`
- `RecipesPageState`
- `RecipeIngredientStore`

Each handler is a method on its class. Its contract gives the whole new state. Pure rules are functions, with lemmas relating them.

Some inputs come from outside the model and arrive as parameters:

- the result of a REST call (`serverOk`);
- `window.confirm` (`confirmed`);
- the generated id (`freshId`, `ids`);
- the day difference between the expiry date and now (`diffDays`);
- the formatted expiry date;
- what `JSON.parse` makes of stored text (`parse`).

## Model

| member | source | states |
|---|---|---|
| Strings.Trim | FamilyKitchenHub_fe/src/components/dashboard/FamilyProfile.jsx:154 | `trim` leaves no whitespace at either end, and its result is empty exactly when the text is all whitespace; with TrimSlice and TrimOfPadded this pins the result down to JavaScript's `trim` |
| Strings.TrimSlice | FamilyKitchenHub_fe/src/components/dashboard/FamilyProfile.jsx:154 | the trimmed text is the slice of the input between a leading and a trailing run of whitespace |
| Strings.TrimOfPadded | FamilyKitchenHub_fe/src/components/dashboard/FamilyProfile.jsx:154 | a trimmed text padded with whitespace on both sides trims back to itself, so the trim is unique |
| Strings.Split | FamilyKitchenHub_fe/src/components/dashboard/FamilyProfile.jsx:153 | `split(",")` yields at least one piece, and no piece contains the separator; JoinSplit and SplitJoin make it the inverse of `join` |
| Strings.Join | FamilyKitchenHub_fe/src/components/dashboard/FamilyProfile.jsx:109 | joining no parts gives ""; otherwise the first part is a prefix of the result |
| Strings.JoinSplit | FamilyKitchenHub_fe/src/components/dashboard/FamilyProfile.jsx:153 | joining the pieces of a split with the separator gives the text back |
| Strings.SplitJoin | FamilyKitchenHub_fe/src/components/dashboard/FamilyProfile.jsx:153 | splitting a join of separator-free pieces gives the pieces back |
| FamilyProfile.CalcBmi | FamilyKitchenHub_fe/src/components/dashboard/FamilyProfile.jsx:60-65 | no BMI exactly when the weight or the height is missing or zero; otherwise BMI × (height in m)² equals the weight |
| FamilyProfile.BmiCategory | FamilyKitchenHub_fe/src/components/dashboard/FamilyProfile.jsx:67-73 | no band exactly for a null BMI; each of the four bands exactly on its own range (< 18.5, [18.5, 25), [25, 30), ≥ 30), so the bands are exclusive and cover every value |
| FamilyProfile.CategoryText | FamilyKitchenHub_fe/src/components/dashboard/FamilyProfile.jsx:68 | the category text is "" exactly when the BMI is null |
| FamilyProfile.BmiCategoryMonotonic | FamilyKitchenHub_fe/src/components/dashboard/FamilyProfile.jsx:69-72 | a higher BMI never falls in a lower band |
| FamilyProfile.TagOf | FamilyKitchenHub_fe/src/components/dashboard/FamilyProfile.jsx:154-155 | one piece gives at most one tag, and that tag is non-empty and trimmed |
| FamilyProfile.TrimmedNonEmpty | FamilyKitchenHub_fe/src/components/dashboard/FamilyProfile.jsx:154-155 | map-trim-filter keeps at most as many pieces as it is given, each non-empty and trimmed |
| FamilyProfile.TrimmedNonEmptyCommaFree | FamilyKitchenHub_fe/src/components/dashboard/FamilyProfile.jsx:153-155 | trimming and filtering comma-free pieces brings in no comma |
| FamilyProfile.ParseTagsOf | FamilyKitchenHub_fe/src/components/dashboard/FamilyProfile.jsx:152-155 | every tag parsed from a non-empty text is non-empty, trimmed and comma-free |
| FamilyProfile.ParseTags | FamilyKitchenHub_fe/src/components/dashboard/FamilyProfile.jsx:150-156 | an absent or empty text gives no tags, and every tag returned is non-empty, trimmed and comma-free. |
| FamilyProfile.TrimmedNonEmptyConcat | FamilyKitchenHub_fe/src/components/dashboard/FamilyProfile.jsx:154-155 | map-trim-filter works piece by piece over a concatenation |
| FamilyProfile.ParseTagsConcat | FamilyKitchenHub_fe/src/components/dashboard/FamilyProfile.jsx:152-155 | tags keep the order of the text: the tags of `a,b` are the tags of `a` followed by the tags of `b` |
| FamilyProfile.ParseTagsPiece | FamilyKitchenHub_fe/src/components/dashboard/FamilyProfile.jsx:152-155 | a comma-free text gives its trimmed self, or no tag when it is blank |
| FamilyProfile.ParseTagsSpacePrefix | FamilyKitchenHub_fe/src/components/dashboard/FamilyProfile.jsx:154 | leading whitespace changes no tag |
| FamilyProfile.ParseTagsCleanPiece | FamilyKitchenHub_fe/src/components/dashboard/FamilyProfile.jsx:152-155 | a clean tag parses to itself |
| FamilyProfile.ParseTagsAfterComma | FamilyKitchenHub_fe/src/components/dashboard/FamilyProfile.jsx:152-155 | the tags of `t, rest` are the tags of `t` followed by the tags of `rest` |
| FamilyProfile.ParseTagsJoinNonEmpty | FamilyKitchenHub_fe/src/components/dashboard/FamilyProfile.jsx:109-111 | a non-empty list of clean tags joined with ", " is a non-empty text that parses back to the same list |
| FamilyProfile.ParseTagsJoin | FamilyKitchenHub_fe/src/components/dashboard/FamilyProfile.jsx:109-111 | the edit form's `tags.join(", ")` parses back to the same clean tags |
| FamilyProfile.Payload | FamilyKitchenHub_fe/src/components/dashboard/FamilyProfile.jsx:160-171 | the saved name is trimmed and empty exactly for a blank name; age is present exactly when non-zero; weight and height are absent exactly when left empty; all three tag lists are clean |
| FamilyProfile.FormFor | FamilyKitchenHub_fe/src/components/dashboard/FamilyProfile.jsx:102-113 | the edit form keeps name and activity, defaults gender and status when empty, and shows each of age, weight and height empty exactly when the stored value is missing or zero and as the stored value otherwise |
| FamilyProfile.EditFormRoundTrip | FamilyKitchenHub_fe/src/components/dashboard/FamilyProfile.jsx:99-116 | opening a normalised member for edit and saving unchanged saves the same profile |
| FamilyProfile.EditById | FamilyKitchenHub_fe/src/components/dashboard/FamilyProfile.jsx:179-181 | the edit keeps length, order and every id; members with the id get the payload, and all others are unchanged |
| FamilyProfile.RemoveById | FamilyKitchenHub_fe/src/components/dashboard/FamilyProfile.jsx:198 | a member survives exactly when it was there and has another id |
| FamilyProfile.RemoveByIdConcat | FamilyKitchenHub_fe/src/components/dashboard/FamilyProfile.jsx:198 | removal works piece by piece, so the remaining members keep their order |
| FamilyProfile.RemoveByIdAbsent | FamilyKitchenHub_fe/src/components/dashboard/FamilyProfile.jsx:198 | deleting an id no member has changes nothing |
| FamilyProfile.RemoveByIdIdempotent | FamilyKitchenHub_fe/src/components/dashboard/FamilyProfile.jsx:196-199 | deleting twice is deleting once |
| FamilyProfile.EditByIdIdempotent | FamilyKitchenHub_fe/src/components/dashboard/FamilyProfile.jsx:178-181 | saving the same edit twice is saving it once |
| FamilyProfile.FamilyProfiles.constructor | FamilyKitchenHub_fe/src/components/dashboard/FamilyProfile.jsx:76-93 | the page starts with the stored list, no member being edited, the reset form and the modal closed |
| FamilyProfile.FamilyProfiles.OpenAdd | FamilyKitchenHub_fe/src/components/dashboard/FamilyProfile.jsx:133-137 | opening the add form clears editing, resets the form, opens the modal and keeps the list |
| FamilyProfile.FamilyProfiles.StartEdit | FamilyKitchenHub_fe/src/components/dashboard/FamilyProfile.jsx:99-116 | editing a member fills the form from it, with defaults "male" and "active" and the tags joined with ", ", and opens the modal |
| FamilyProfile.FamilyProfiles.CloseModal | FamilyKitchenHub_fe/src/components/dashboard/FamilyProfile.jsx:139-143 | closing clears editing and the form and keeps the list |
| FamilyProfile.FamilyProfiles.Save | FamilyKitchenHub_fe/src/components/dashboard/FamilyProfile.jsx:158-190 | a blank name alerts "Please enter a name." and changes nothing; otherwise the edited member gets the payload in place, or one new member is prepended, and the modal closes |
| FamilyProfile.FamilyProfiles.Delete | FamilyKitchenHub_fe/src/components/dashboard/FamilyProfile.jsx:196-199 | when confirmed, every member with the id is removed; otherwise nothing changes |
| FamilyProfile.FamilyProfiles.LoadSample | FamilyKitchenHub_fe/src/components/dashboard/FamilyProfile.jsx:201-205 | the list becomes the four sample profiles, in order, with the given ids |
| FamilyProfile.FamilyProfiles.ClearAll | FamilyKitchenHub_fe/src/components/dashboard/FamilyProfile.jsx:207-210 | when confirmed the list becomes empty; otherwise nothing changes |
| Fridge.StatusInfoCoversStatuses | FamilyKitchenHub_fe/src/components/dashboard/Fridge.jsx:69-85 | every status either add path can produce is a key of `statusInfo`, and its entry shows that status's text |
| Fridge.StatusKeyInjective | FamilyKitchenHub_fe/src/components/dashboard/Fridge.jsx:69-85 | different statuses are stored as different texts |
| Fridge.Classify | FamilyKitchenHub_fe/src/components/dashboard/Fridge.jsx:166-173 | Expired exactly when a date is given and the difference is negative; Expiring Soon exactly for 0..3 days; Fresh exactly with no date or more than 3 days |
| Fridge.ClassifyMonotonic | FamilyKitchenHub_fe/src/components/dashboard/Fridge.jsx:171-172 | a later expiry date never gives a more urgent status |
| Fridge.ExpiredDays | FamilyKitchenHub_fe/src/components/dashboard/Fridge.jsx:182 | `expiredDays` is never negative; it is positive exactly for Expired, where it is the absolute day difference |
| Fridge.QuickItem | FamilyKitchenHub_fe/src/components/dashboard/Fridge.jsx:147-156 | a quick item is Fresh, in "Main Fridge", with 0 expired days and empty quantity, category and expiry |
| Fridge.CustomItem | FamilyKitchenHub_fe/src/components/dashboard/Fridge.jsx:163-183 | name, quantity and category are trimmed; without an expiry date the item is Fresh with 0 expired days; with one, its status is the classification of the day difference; `expiredDays` is positive exactly for Expired |
| Fridge.QuickItemWellFormed | FamilyKitchenHub_fe/src/components/dashboard/Fridge.jsx:146-156 | a quick item made from a non-blank name has a non-empty trimmed name and consistent `expiredDays` |
| Fridge.CustomItemWellFormed | FamilyKitchenHub_fe/src/components/dashboard/Fridge.jsx:163-183 | a custom item made from a non-blank name is well formed, whatever the dates |
| Fridge.InitialIngredientsNotWellFormed | FamilyKitchenHub_fe/src/components/dashboard/Fridge.jsx:6-16 | the seeded Chicken Breast (Expiring Soon with 286 expired days) breaks the rule that added items keep |
| Fridge.FridgeManager.constructor | FamilyKitchenHub_fe/src/components/dashboard/Fridge.jsx:89-101 | the page starts with the seeded list, the modal closed and every form field at its initial value |
| Fridge.FridgeManager.OpenModal | FamilyKitchenHub_fe/src/components/dashboard/Fridge.jsx:118-128 | opening chooses the tab, opens the modal, resets every field and keeps the list |
| Fridge.FridgeManager.AddQuick | FamilyKitchenHub_fe/src/components/dashboard/Fridge.jsx:144-159 | a blank name alerts "Enter item name" and changes nothing; otherwise exactly one item goes in front of the unchanged old list: trimmed name, Fresh, "Main Fridge", 0 expired days, empty quantity, category and expiry. The modal closes |
| Fridge.FridgeManager.AddCustom | FamilyKitchenHub_fe/src/components/dashboard/Fridge.jsx:161-186 | a blank name alerts "Ingredient name required" and changes nothing; otherwise the custom item goes in front of the unchanged old list and the modal closes. The item has trimmed name, quantity and category, and its status and `expiredDays` come from the day difference |
| Fridge.FridgeManager.Commit | FamilyKitchenHub_fe/src/components/dashboard/Fridge.jsx:157-158 | prepending a well-formed item keeps the invariant: added items are well formed, the seeded items follow, and no item has negative `expiredDays` |
| AdminForms.Shown | FamilyKitchenHub_fe/src/pages/admin/IngredientsPage.jsx:272-274 | a null value is shown as "null" in a template literal |
| AdminForms.IntOrNull | FamilyKitchenHub_fe/src/pages/admin/RecipesPage.jsx:101-103 | null exactly for a falsy field, otherwise the integer read from that field |
| AdminForms.FloatOrZero | FamilyKitchenHub_fe/src/pages/admin/IngredientsPage.jsx:107-109 | 0 exactly for a falsy field, otherwise the float read from that field |
| AdminForms.OrElse | FamilyKitchenHub_fe/src/pages/admin/RecipesPage.jsx:74-80 | `v \|\| fallback` keeps a truthy value and otherwise gives the fallback |
| AdminForms.ListOrEmpty | FamilyKitchenHub_fe/src/pages/admin/RecipesPage.jsx:61 | an array result is kept; any other result, an error included, gives the empty list |
| IngredientsPage.ValidateAsWritten | FamilyKitchenHub_fe/src/pages/admin/IngredientsPage.jsx:91-102 | the checks run in order name, unit, calories. Each message occurs exactly when its check is the first to fail; there is no message exactly when all three pass |
| IngredientsPage.Validate | FamilyKitchenHub_fe/src/pages/admin/IngredientsPage.jsx:168-179 | the same ordered checks and messages, with calories required to be entered rather than truthy (see Findings) |
| IngredientsPage.ValidatorsDifferOnlyOnZero | FamilyKitchenHub_fe/src/pages/admin/IngredientsPage.jsx:99-102 | the corrected check accepts everything the check as written accepts, and they disagree only on a stored number 0, which only the corrected one accepts |
| IngredientsPage.ValidateAgrees | FamilyKitchenHub_fe/src/pages/admin/IngredientsPage.jsx:176 | the two validators agree on every form whose calories value is not a stored 0, and so on every typed-in form |
| IngredientsPage.Payload | FamilyKitchenHub_fe/src/pages/admin/IngredientsPage.jsx:104-118 | name and unit are sent untrimmed; calories are sent exactly when entered; each macro is 0 exactly when its field is falsy |
| IngredientsPage.ValidPayloadHasCalories | FamilyKitchenHub_fe/src/pages/admin/IngredientsPage.jsx:116 | a form that passes validation always sends a calories number |
| IngredientsPage.ValidAsWrittenPayloadHasCalories | FamilyKitchenHub_fe/src/pages/admin/IngredientsPage.jsx:99-116 | a form the check as written accepts has truthy calories and always sends a calories number |
| IngredientsPage.MacrosDefaultToZero | FamilyKitchenHub_fe/src/pages/admin/IngredientsPage.jsx:183-187 | empty or null fat, carbs and protein are all sent as 0 |
| IngredientsPage.FieldOrEmpty | FamilyKitchenHub_fe/src/pages/admin/IngredientsPage.jsx:59-61 | an undefined info field becomes '', and a defined one is kept |
| IngredientsPage.EditFormFor | FamilyKitchenHub_fe/src/pages/admin/IngredientsPage.jsx:52-75 | name and unit default to ''; null calories become '' and 0 is kept; each macro field is '' when the info is empty, when it does not parse or when that field is missing, and is the stored field's value when it is defined |
| IngredientsPage.EditThenSaveAccepted | FamilyKitchenHub_fe/src/pages/admin/IngredientsPage.jsx:70 | a stored ingredient with a name, a unit and any number of calories, 0 included, can be saved unchanged and sends its calories |
| IngredientsPage.EditThenSaveRefusesZeroAsWritten | FamilyKitchenHub_fe/src/pages/admin/IngredientsPage.jsx:99-102 | as written, saving unchanged any ingredient stored with a name, a unit and 0 calories is refused with "Please enter calories per 100g", whatever its nutritional info |
| IngredientsPage.EditThenSaveMacros | FamilyKitchenHub_fe/src/pages/admin/IngredientsPage.jsx:106-110 | saving unchanged an ingredient with readable nutritional info sends each defined macro as the float coercion of its stored value and each undefined one as 0 |
| IngredientsPage.Part | FamilyKitchenHub_fe/src/pages/admin/IngredientsPage.jsx:272-274 | a part starts with its field's name and ends in "g" |
| IngredientsPage.Labelled | FamilyKitchenHub_fe/src/pages/admin/IngredientsPage.jsx:271-274 | there are never more parts than fields |
| IngredientsPage.LabelledEmpty | FamilyKitchenHub_fe/src/pages/admin/IngredientsPage.jsx:275 | there are no parts exactly when no field is defined |
| IngredientsPage.LabelledShape | FamilyKitchenHub_fe/src/pages/admin/IngredientsPage.jsx:272-274 | every part `k` of the summary is `Name: valueg` for a defined field, and the lemma names that field's index |
| IngredientsPage.NutritionParts | FamilyKitchenHub_fe/src/pages/admin/IngredientsPage.jsx:271-274 | the parts are fat, then carbs, then protein, each only when defined |
| IngredientsPage.FormatNutritionalInfo | FamilyKitchenHub_fe/src/pages/admin/IngredientsPage.jsx:267-280 | absent or empty input gives "-"; input that fails to parse is returned unchanged; otherwise the defined fields' parts are joined by ", ", or "-" when there are none |
| IngredientsPage.NoFieldsShowDash | FamilyKitchenHub_fe/src/pages/admin/IngredientsPage.jsx:275 | a parsed value with none of the three fields has no parts |
| IngredientsPage.IngredientsPageState.constructor | FamilyKitchenHub_fe/src/pages/admin/IngredientsPage.jsx:8-27 | the page starts with no ingredients, both forms empty, no row in edit and the add row closed |
| IngredientsPage.IngredientsPageState.FetchIngredients | FamilyKitchenHub_fe/src/pages/admin/IngredientsPage.jsx:37-50 | the list becomes the fetched array, or empty for anything else |
| IngredientsPage.IngredientsPageState.HandleEdit | FamilyKitchenHub_fe/src/pages/admin/IngredientsPage.jsx:52-75 | the row enters edit mode with the form filled from the ingredient |
| IngredientsPage.IngredientsPageState.HandleCancelEdit | FamilyKitchenHub_fe/src/pages/admin/IngredientsPage.jsx:77-87 | edit mode ends and the edit form empties |
| IngredientsPage.IngredientsPageState.HandleSaveEdit | FamilyKitchenHub_fe/src/pages/admin/IngredientsPage.jsx:89-127 | with the check as written: a failing check (a stored 0 calories included) shows its message, sends nothing and changes nothing. Otherwise the payload is sent, and edit mode ends only when the server accepts it |
| IngredientsPage.IngredientsPageState.HandleAddNew | FamilyKitchenHub_fe/src/pages/admin/IngredientsPage.jsx:142-152 | the add row opens with an empty form |
| IngredientsPage.IngredientsPageState.HandleCancelAdd | FamilyKitchenHub_fe/src/pages/admin/IngredientsPage.jsx:154-164 | the add row closes with an empty form |
| IngredientsPage.IngredientsPageState.HandleSaveNew | FamilyKitchenHub_fe/src/pages/admin/IngredientsPage.jsx:166-212 | a failing check shows its message and changes nothing. Otherwise the payload is sent; on success the add row closes and empties, and on failure nothing changes |
| RecipesPage.Payload | FamilyKitchenHub_fe/src/pages/admin/RecipesPage.jsx:158-163 | empty or zero cooking time, servings and calories are sent as null, and other values as the integer read from them; every other field is sent as it is |
| RecipesPage.EditFormFor | FamilyKitchenHub_fe/src/pages/admin/RecipesPage.jsx:71-82 | each missing field becomes '', except difficulty and meal type, which fall back to EASY and BREAKFAST and so are always set |
| RecipesPage.EditThenSaveNumbers | FamilyKitchenHub_fe/src/pages/admin/RecipesPage.jsx:97-104 | saving an opened recipe unchanged sends each number exactly as coercing its stored value would |
| RecipesPage.StoredZeroSavedAsNull | FamilyKitchenHub_fe/src/pages/admin/RecipesPage.jsx:77 | a recipe stored with 0 servings is saved back with null servings |
| RecipesPage.CurrentIds | FamilyKitchenHub_fe/src/pages/admin/RecipesPage.jsx:244 | a non-array category list gives no ids; an array gives its ids, in order |
| RecipesPage.RemoveAll | FamilyKitchenHub_fe/src/pages/admin/RecipesPage.jsx:249 | an id survives the filter exactly when it was there and differs from the removed one |
| RecipesPage.RemoveAllConcat | FamilyKitchenHub_fe/src/pages/admin/RecipesPage.jsx:249 | removal works piece by piece, so the kept ids stay in order |
| RecipesPage.RemoveAllCounts | FamilyKitchenHub_fe/src/pages/admin/RecipesPage.jsx:249 | every occurrence of the id is removed, and every other id keeps its number of occurrences |
| RecipesPage.RemoveAllAbsent | FamilyKitchenHub_fe/src/pages/admin/RecipesPage.jsx:249 | removing an absent id changes nothing |
| RecipesPage.ToggledIds | FamilyKitchenHub_fe/src/pages/admin/RecipesPage.jsx:247-253 | toggling off leaves no occurrence of the id and keeps every other id; toggling on is the old list with the id appended at the end |
| RecipesPage.ToggleOnThenOff | FamilyKitchenHub_fe/src/pages/admin/RecipesPage.jsx:247-253 | selecting an unselected category, then unselecting it, gives the original list back |
| RecipesPage.ToggleOffTwice | FamilyKitchenHub_fe/src/pages/admin/RecipesPage.jsx:249 | toggling off twice is toggling off once |
| RecipesPage.NextStepOrder | FamilyKitchenHub_fe/src/pages/admin/RecipesPage.jsx:268 | the new step order is at least 1 |
| RecipesPage.NextStepOrderFresh | FamilyKitchenHub_fe/src/pages/admin/RecipesPage.jsx:268 | when the steps are numbered 1..n, count + 1 is an unused order and keeps the numbering |
| RecipesPage.NextStepOrderAfterDelete | FamilyKitchenHub_fe/src/pages/admin/RecipesPage.jsx:268 | for steps numbered 1..n, after any step but the last is deleted, count + 1 equals the order of the last remaining step |
| RecipesPage.RecipesPageState.constructor | FamilyKitchenHub_fe/src/pages/admin/RecipesPage.jsx:10-40 | the page starts with empty lists, both forms at their defaults, no row in edit and an empty step input |
| RecipesPage.RecipesPageState.FetchRecipes | FamilyKitchenHub_fe/src/pages/admin/RecipesPage.jsx:56-69 | a non-array result or an error gives the empty recipe list |
| RecipesPage.RecipesPageState.HandleEdit | FamilyKitchenHub_fe/src/pages/admin/RecipesPage.jsx:71-82 | the row enters edit mode with the form filled from the recipe |
| RecipesPage.RecipesPageState.HandleCancelEdit | FamilyKitchenHub_fe/src/pages/admin/RecipesPage.jsx:84-95 | edit mode ends and the form resets |
| RecipesPage.RecipesPageState.HandleSaveEdit | FamilyKitchenHub_fe/src/pages/admin/RecipesPage.jsx:97-113 | the coerced form is always sent; edit mode ends only when the server accepts it |
| RecipesPage.RecipesPageState.HandleAddNew | FamilyKitchenHub_fe/src/pages/admin/RecipesPage.jsx:128-141 | the add row opens with the defaults plus empty instructions and image URL |
| RecipesPage.RecipesPageState.HandleCancelAdd | FamilyKitchenHub_fe/src/pages/admin/RecipesPage.jsx:143-154 | the add row closes and the form resets |
| RecipesPage.RecipesPageState.HandleSaveNew | FamilyKitchenHub_fe/src/pages/admin/RecipesPage.jsx:156-181 | the coerced form is sent; on success the add row closes and resets, and on failure nothing changes |
| RecipesPage.RecipesPageState.HandleToggleCategoryAsWritten | FamilyKitchenHub_fe/src/pages/admin/RecipesPage.jsx:241-264 | as written: nothing is sent, the success toast always shows, and the category list becomes whatever the refetch returns (not an array when the refetch fails) |
| RecipesPage.RecipesPageState.HandleToggleCategory | FamilyKitchenHub_fe/src/pages/admin/RecipesPage.jsx:241-264 | as intended: the id list sent is the displayed ids with every occurrence removed, or with the id appended. On success the toast says which, and the refetch replaces the list; on failure the error toast shows and nothing changes |
| RecipesPage.RecipesPageState.HandleAddStep | FamilyKitchenHub_fe/src/pages/admin/RecipesPage.jsx:266-279 | the new step is sent with order = step count + 1 and the description as given |
| RecipesPage.RecipesPageState.SubmitNewStep | FamilyKitchenHub_fe/src/pages/admin/RecipesPage.jsx:672-677 | blank input sends nothing and is kept. Otherwise the untrimmed input is sent as a new step and the input is cleared |
| RecipeIngredientService.ApplyUpdate | FamilyKitchenHub/src/main/java/com/c2se04/familykitchenhub/Service/RecipeIngredientService.java:51-56 | quantity and unit are overwritten only when given (non-null), and id, recipe and ingredient never change |
| RecipeIngredientService.StoreUpdate | FamilyKitchenHub/src/main/java/com/c2se04/familykitchenhub/Service/RecipeIngredientService.java:46-58 | an update keeps the set of ids and every other entry, and keeps entries stored under their own ids |
| RecipeIngredientService.ApplyUpdateIdempotent | FamilyKitchenHub/src/main/java/com/c2se04/familykitchenhub/Service/RecipeIngredientService.java:51-56 | applying the same update twice is applying it once |
| RecipeIngredientService.ApplyUpdateEmpty | FamilyKitchenHub/src/main/java/com/c2se04/familykitchenhub/Service/RecipeIngredientService.java:51-56 | an update with neither field changes nothing |
| RecipeIngredientService.ApplyUpdateCompose | FamilyKitchenHub/src/main/java/com/c2se04/familykitchenhub/Service/RecipeIngredientService.java:51-56 | two updates are one update in which the later given fields win |
| RecipeIngredientService.StoreUpdateIdempotent | FamilyKitchenHub/src/main/java/com/c2se04/familykitchenhub/Service/RecipeIngredientService.java:46-58 | the same update applied twice to the store gives the store after one application |
| RecipeIngredientService.ByRecipe | FamilyKitchenHub/src/main/java/com/c2se04/familykitchenhub/Service/RecipeIngredientService.java:28-30 | exactly the entries whose recipe id matches, unchanged |
| RecipeIngredientService.ByRecipeAfterAdd | FamilyKitchenHub/src/main/java/com/c2se04/familykitchenhub/Service/RecipeIngredientService.java:40-42 | a new entry joins its own recipe's entries and no other recipe's |
| RecipeIngredientService.ByRecipeAfterDelete | FamilyKitchenHub/src/main/java/com/c2se04/familykitchenhub/Service/RecipeIngredientService.java:62-66 | a delete removes the entry from its recipe's entries and nothing else |
| RecipeIngredientService.ByRecipeAfterUpdate | FamilyKitchenHub/src/main/java/com/c2se04/familykitchenhub/Service/RecipeIngredientService.java:51-58 | an update never moves an entry between recipes |
| RecipeIngredientService.RecipeIngredientStore.constructor | FamilyKitchenHub/src/main/java/com/c2se04/familykitchenhub/Service/RecipeIngredientService.java:19-26 | the store starts with the given recipes and ingredients and no entries |
| RecipeIngredientService.RecipeIngredientStore.GetIngredientsByRecipeId | FamilyKitchenHub/src/main/java/com/c2se04/familykitchenhub/Service/RecipeIngredientService.java:28-30 | every stored entry of the recipe is returned, and every returned entry is a stored entry of that recipe |
| RecipeIngredientService.RecipeIngredientStore.AddIngredient | FamilyKitchenHub/src/main/java/com/c2se04/familykitchenhub/Service/RecipeIngredientService.java:33-43 | an unknown recipe fails with not-found, then an absent or unknown ingredient fails, and in both cases nothing is saved. Otherwise the entry, linked to that recipe and ingredient, is stored under the new id and nothing else changes |
| RecipeIngredientService.RecipeIngredientStore.UpdateIngredient | FamilyKitchenHub/src/main/java/com/c2se04/familykitchenhub/Service/RecipeIngredientService.java:46-59 | an unknown id fails and changes nothing; otherwise only that entry changes, and only in its given fields |
| RecipeIngredientService.RecipeIngredientStore.DeleteIngredient | FamilyKitchenHub/src/main/java/com/c2se04/familykitchenhub/Service/RecipeIngredientService.java:62-67 | an unknown id fails and changes nothing; otherwise exactly that entry is removed |

## Findings

| source | as written | input that shows it | evidently intended | confidence | as-written member | corrected member |
|---|---|---|---|---|---|---|
| FamilyKitchenHub_fe/src/pages/admin/IngredientsPage.jsx:99-102 | `if (!editForm.caloriesPer100g)` refuses the number 0 | an ingredient stored with `caloriesPer100g` 0, opened for edit and saved without retyping: line 70 keeps the number 0 in the form, and the save is refused with "Please enter calories per 100g" | line 70 tests only for null and undefined so that a stored 0 survives; the check should refuse only a missing value, and the payload at line 116 should then send the 0 | medium (not executed) | IngredientsPage.EditThenSaveRefusesZeroAsWritten | IngredientsPage.EditThenSaveAccepted |
| FamilyKitchenHub_fe/src/pages/admin/RecipesPage.jsx:33,255 | `await setRecipeCategories(recipeId, newIds)` calls the state setter that line 33 declares, which shadows the service function imported at line 2 | any click on a category checkbox, with the server up or down: no request is made, the state becomes the number `recipeId`, "Category added" or "Category removed" shows, and the refetch at line 259 brings back the unchanged list | call the service's `setRecipeCategories` to store the new id list, showing the error toast when it fails | high (not executed) | RecipesPage.RecipesPageState.HandleToggleCategoryAsWritten | RecipesPage.RecipesPageState.HandleToggleCategory |

`IngredientsPage.ValidateAsWritten` is the check as written, and `HandleSaveEdit` uses it. `IngredientsPage.Validate` is the corrected check, and `HandleSaveNew` uses it; `ValidatorsDifferOnlyOnZero` shows the two differ only on a stored 0. `Payload` sends calories when they are entered (`Entered`). On every typed-in form, which is all the add row ever holds, the two validators agree (`ValidateAgrees`), because a text field is falsy only when it is empty.

`RecipesPage.RecipesPageState.HandleToggleCategoryAsWritten` models the handler as written. `HandleToggleCategory` models the service call that was evidently meant, and `ToggledIds`, `ToggleOnThenOff` and `RemoveAllCounts` state what that call would send.

## Left out

- Rendering, styling, modal state where no rule depends on it, `localStorage` persistence (the stored list is a constructor argument), and DOM effects.
- REST calls and toasts. Each call is represented by its request body and a `serverOk` outcome; the category toggle as written makes no call at all. A refetch is modelled only for the category toggle, where its result is the `refetched` parameter; the other refetches after a successful call are not modelled.
- `window.confirm` is the `confirmed` parameter.
- Dates. The `Date` arithmetic and `Math.ceil` that produce the day difference are not modelled; the difference is the `diffDays` parameter. `toLocaleDateString` formatting is not modelled either; the formatted date is a parameter.
- Fridge.FridgeManager.AddCustom: one day difference serves both the status and `expiredDays`. The source reads the clock twice, so around midnight the two could differ.
- FamilyProfile.CalcBmi: stops at exact real division. `Math.round(bmi*10)/10` is not modelled, because rounding is floating point.
- JSON parsing. `parse` is what `JSON.parse` gives. Malformed text and a JSON `null` both count as `Unparseable`, since reading a field of `null` throws into the same catch. JSON booleans, arrays and objects as field values are not distinguished from text. `JSON.stringify` of the nutritional info is represented by the `NutritionInfo` record.
- `parseInt`, `parseFloat` and `Number` edge cases. The number a parse yields is kept symbolic (`IntOf`, `FloatOf`). A number field is carried by the text JavaScript shows for it, so NaN is not modelled.
- Generated ids. `Date.now()`, `Math.random()` and the database key are parameters (`freshId`, `ids`), and the store requires the key to be unused.
- JPA `save` of an entity that already carries an id (a merge) is not modelled; addIngredient always inserts under the new key. `@Transactional`, rollback and the entity graph are not modelled; an entry refers to its recipe and ingredient by id.
- RecipeIngredientService.RecipeIngredientStore.AddIngredient: a draft whose ingredient reference is null, or whose ingredient id is null, fails with `NoIngredientReference`. In the source that case throws a Java runtime exception (dereferencing null, or `findById(null)` refusing its argument), not a not-found one.
- Concurrency: `Promise.all`, and the ordering of asynchronous refetches.
- Other handlers of the two admin pages:
  - tags of an ingredient;
  - step update and delete;
  - the recipe-ingredient sub-table;
  - expand and collapse;
  - recipe and ingredient delete.

  Each only calls the server and refetches.
- The other pages (tags, allergies, categories, dashboard, static screens), which only fetch, display or alert.
