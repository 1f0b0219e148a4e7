/**
 * The recipe admin page: the category-id list sent when a category is
 * toggled, the order given to a new step and the guard on the step input,
 * the numeric coercion of the save handlers, the edit form filled from a
 * stored recipe, and the normalisation of the fetched recipe list.
 */
module RecipesPage {
  import opened Wrappers
  import opened Strings
  import opened AdminForms

  /** A recipe as the server lists it. */
  datatype Recipe = Recipe(
    id: int,
    title: Value,
    description: Value,
    cookingTimeMinutes: Value,
    servings: Value,
    totalCalories: Value,
    difficultyLevel: Value,
    mealType: Value)

  /**
   * The inputs of the add row and of the edit row. `instructions` and
   * `imageUrl` have no input: they are present, as '', only in the form
   * `handleAddNew` sets up, and absent otherwise.
   */
  datatype RecipeForm = RecipeForm(
    title: Value,
    description: Value,
    cookingTimeMinutes: Value,
    servings: Value,
    totalCalories: Value,
    difficultyLevel: Value,
    mealType: Value,
    instructions: Option<string>,
    imageUrl: Option<string>)

  /** The form the page starts with, and the one cancel and a successful save leave. */
  const EmptyForm := RecipeForm(Text(""), Text(""), Text(""), Text(""), Text(""), Text("EASY"), Text("BREAKFAST"), None, None)

  /** The form `handleAddNew` opens the add row with. */
  const AddNewForm := RecipeForm(Text(""), Text(""), Text(""), Text(""), Text(""), Text("EASY"), Text("BREAKFAST"), Some(""), Some(""))

  /** The body of a create or update request: the form, with the three numbers coerced. */
  datatype RecipePayload = RecipePayload(
    title: Value,
    description: Value,
    cookingTimeMinutes: Option<NumberOut>,
    servings: Option<NumberOut>,
    totalCalories: Option<NumberOut>,
    difficultyLevel: Value,
    mealType: Value,
    instructions: Option<string>,
    imageUrl: Option<string>)

  datatype Category = Category(id: int, name: string)

  datatype Step = Step(id: int, stepOrder: int, description: string)

  /** The body of a create-step request for a recipe. */
  datatype StepRequest = StepRequest(recipeId: int, stepOrder: int, description: string)

  // ---------------------------------------------------------------------------
  // Numeric coercion and the edit form
  // ---------------------------------------------------------------------------

  /**
   * `{...form, n: form.n ? parseInt(form.n) : null}` for the three numeric
   * fields: an empty (or zero) field is sent as null, any other as the
   * integer read from it; every other field is sent as it is.
   */
  function Payload(f: RecipeForm): (p: RecipePayload)
    ensures p.cookingTimeMinutes.None? <==> !Truthy(f.cookingTimeMinutes)
    ensures p.servings.None? <==> !Truthy(f.servings)
    ensures p.totalCalories.None? <==> !Truthy(f.totalCalories)
    ensures p.cookingTimeMinutes.Some? ==> p.cookingTimeMinutes.value == IntOf(f.cookingTimeMinutes)
    ensures p.servings.Some? ==> p.servings.value == IntOf(f.servings)
    ensures p.totalCalories.Some? ==> p.totalCalories.value == IntOf(f.totalCalories)
    ensures p.title == f.title && p.description == f.description
    ensures p.difficultyLevel == f.difficultyLevel && p.mealType == f.mealType
    ensures p.instructions == f.instructions && p.imageUrl == f.imageUrl
  {
    RecipePayload(
      f.title, f.description,
      IntOrNull(f.cookingTimeMinutes), IntOrNull(f.servings), IntOrNull(f.totalCalories),
      f.difficultyLevel, f.mealType, f.instructions, f.imageUrl)
  }

  /**
   * handleEdit: the edit form for a stored recipe; every missing (or zero)
   * field becomes '', except difficulty and meal type, which fall back to
   * EASY and BREAKFAST.
   */
  function EditFormFor(r: Recipe): (f: RecipeForm)
    ensures f.title == OrElse(r.title, "") && f.description == OrElse(r.description, "")
    ensures f.cookingTimeMinutes == OrElse(r.cookingTimeMinutes, "")
    ensures f.servings == OrElse(r.servings, "") && f.totalCalories == OrElse(r.totalCalories, "")
    ensures f.difficultyLevel == OrElse(r.difficultyLevel, "EASY") && Truthy(f.difficultyLevel)
    ensures f.mealType == OrElse(r.mealType, "BREAKFAST") && Truthy(f.mealType)
    ensures f.instructions.None? && f.imageUrl.None?
  {
    RecipeForm(
      OrElse(r.title, ""), OrElse(r.description, ""),
      OrElse(r.cookingTimeMinutes, ""), OrElse(r.servings, ""), OrElse(r.totalCalories, ""),
      OrElse(r.difficultyLevel, "EASY"), OrElse(r.mealType, "BREAKFAST"), None, None)
  }

  /**
   * Opening a recipe for edit and saving it unchanged sends each numeric
   * field exactly as coercing the stored value would: null for a missing
   * value and also for a stored 0, the parsed integer otherwise.
   */
  lemma EditThenSaveNumbers(r: Recipe)
    ensures Payload(EditFormFor(r)).cookingTimeMinutes == IntOrNull(r.cookingTimeMinutes)
    ensures Payload(EditFormFor(r)).servings == IntOrNull(r.servings)
    ensures Payload(EditFormFor(r)).totalCalories == IntOrNull(r.totalCalories)
  {
  }

  /** In particular a recipe stored with 0 servings is saved back with null servings. */
  lemma StoredZeroSavedAsNull(r: Recipe)
    requires r.servings == Number("0")
    ensures Payload(EditFormFor(r)).servings.None?
  {
  }

  // ---------------------------------------------------------------------------
  // Category toggle
  // ---------------------------------------------------------------------------

  /** `Array.isArray(cats) ? cats.map(c => c.id) : []`. */
  function CurrentIds(cats: Fetched<Category>): (ids: seq<int>)
    ensures !cats.ArrayOf? ==> ids == []
    ensures cats.ArrayOf? ==> |ids| == |cats.elems| && forall i :: 0 <= i < |ids| ==> ids[i] == cats.elems[i].id
  {
    if cats.ArrayOf? then seq(|cats.elems|, i requires 0 <= i < |cats.elems| => cats.elems[i].id) else []
  }

  /** `ids.filter(x => x !== id)`: every occurrence of `id` removed, the rest in order. */
  function RemoveAll(ids: seq<int>, id: int): (r: seq<int>)
    ensures forall y :: y in r <==> y in ids && y != id
    ensures |r| <= |ids|
  {
    if ids == [] then []
    else if ids[0] == id then RemoveAll(ids[1..], id)
    else [ids[0]] + RemoveAll(ids[1..], id)
  }

  /** Removal works piece by piece, so the kept ids stay in their order. */
  lemma {:induction false} RemoveAllConcat(a: seq<int>, b: seq<int>, id: int)
    ensures RemoveAll(a + b, id) == RemoveAll(a, id) + RemoveAll(b, id)
  {
    if a == [] {
      assert a + b == b;
    } else {
      assert (a + b)[0] == a[0] && (a + b)[1..] == a[1..] + b;
      RemoveAllConcat(a[1..], b, id);
      var h := if a[0] == id then [] else [a[0]];
      assert RemoveAll(a, id) == h + RemoveAll(a[1..], id);
      assert RemoveAll(a + b, id) == h + RemoveAll(a[1..] + b, id);
    }
  }

  /** Removal keeps the number of occurrences of every other id and drops all of `id`. */
  lemma {:induction false} RemoveAllCounts(ids: seq<int>, id: int)
    ensures multiset(RemoveAll(ids, id))[id] == 0
    ensures forall y :: y != id ==> multiset(RemoveAll(ids, id))[y] == multiset(ids)[y]
  {
    if ids != [] {
      RemoveAllCounts(ids[1..], id);
      assert ids == [ids[0]] + ids[1..];
      var h := if ids[0] == id then [] else [ids[0]];
      assert multiset(RemoveAll(ids, id)) == multiset(h) + multiset(RemoveAll(ids[1..], id));
      assert multiset(ids) == multiset([ids[0]]) + multiset(ids[1..]);
    }
  }

  /** Removing an id that is not there changes nothing. */
  lemma {:induction false} RemoveAllAbsent(ids: seq<int>, id: int)
    requires id !in ids
    ensures RemoveAll(ids, id) == ids
  {
    if ids != [] {
      RemoveAllAbsent(ids[1..], id);
      assert ids == [ids[0]] + ids[1..];
    }
  }

  /**
   * handleToggleCategory's new id list: a selected category is removed
   * (every occurrence), an unselected one appended at the end.
   */
  function ToggledIds(current: seq<int>, id: int, isCurrentlySelected: bool): (r: seq<int>)
    ensures isCurrentlySelected ==> id !in r && forall y :: y != id ==> (y in r <==> y in current)
    ensures !isCurrentlySelected ==> |r| == |current| + 1 && r[..|current|] == current && r[|current|] == id
  {
    if isCurrentlySelected then RemoveAll(current, id) else current + [id]
  }

  /** Selecting an unselected category and then unselecting it gives the original list back. */
  lemma ToggleOnThenOff(current: seq<int>, id: int)
    requires id !in current
    ensures ToggledIds(ToggledIds(current, id, false), id, true) == current
  {
    RemoveAllConcat(current, [id], id);
    RemoveAllAbsent(current, id);
    assert RemoveAll([id], id) == [];
  }

  /** Toggling off is idempotent: a second removal changes nothing. */
  lemma ToggleOffTwice(current: seq<int>, id: int)
    ensures ToggledIds(ToggledIds(current, id, true), id, true) == ToggledIds(current, id, true)
  {
    RemoveAllAbsent(RemoveAll(current, id), id);
  }

  // ---------------------------------------------------------------------------
  // Steps
  // ---------------------------------------------------------------------------

  /** The steps carry the orders 1, 2, …, n in list order. */
  predicate Numbered(steps: seq<Step>)
  {
    forall i :: 0 <= i < |steps| ==> steps[i].stepOrder == i + 1
  }

  /** The order given to a new step: one more than the number of steps. */
  function NextStepOrder(steps: seq<Step>): (n: int)
    ensures n >= 1
  {
    |steps| + 1
  }

  /**
   * When the steps are numbered 1..n the new order is unused, and the list
   * with the new step appended is numbered 1..n+1.
   */
  lemma NextStepOrderFresh(steps: seq<Step>, id: int, description: string)
    requires Numbered(steps)
    ensures forall s :: s in steps ==> s.stepOrder != NextStepOrder(steps)
    ensures Numbered(steps + [Step(id, NextStepOrder(steps), description)])
  {
    forall s | s in steps
      ensures s.stepOrder != NextStepOrder(steps)
    {
      var i :| 0 <= i < |steps| && steps[i] == s;
    }
  }

  /**
   * Counting is not numbering: once any step but the last is deleted from
   * steps numbered 1..n, the next step is given order n, which the last
   * remaining step already has.
   */
  lemma NextStepOrderAfterDelete(steps: seq<Step>, j: nat)
    requires Numbered(steps) && |steps| >= 2 && j < |steps| - 1
    ensures var rest := steps[..j] + steps[j + 1..];
            |rest| == |steps| - 1 && rest[|rest| - 1] == steps[|steps| - 1]
            && NextStepOrder(rest) == rest[|rest| - 1].stepOrder
  {
    var rest := steps[..j] + steps[j + 1..];
    assert rest[|rest| - 1] == steps[|steps| - 1];
  }

  // ---------------------------------------------------------------------------
  // The page state
  // ---------------------------------------------------------------------------

  /** The state of the recipe admin page that the modelled handlers read and change. */
  class RecipesPageState {
    var recipes: seq<Recipe>
    var editingId: Option<int>
    var editForm: RecipeForm
    var newRecipe: RecipeForm
    var showAddRow: bool
    var recipeCategories: Fetched<Category>
    var recipeSteps: seq<Step>
    var newStepText: string

    constructor ()
      ensures recipes == [] && editingId.None? && editForm == EmptyForm && newRecipe == EmptyForm
      ensures !showAddRow && recipeCategories == ArrayOf([]) && recipeSteps == [] && newStepText == ""
    {
      recipes := [];
      editingId := None;
      editForm := EmptyForm;
      newRecipe := EmptyForm;
      showAddRow := false;
      recipeCategories := ArrayOf([]);
      recipeSteps := [];
      newStepText := "";
    }

    /** fetchRecipes: the list becomes the fetched array; anything else, an error included, empties it. */
    method FetchRecipes(result: Fetched<Recipe>)
      modifies this`recipes
      ensures result.ArrayOf? ==> recipes == result.elems
      ensures !result.ArrayOf? ==> recipes == []
    {
      recipes := ListOrEmpty(result);
    }

    /** handleEdit. */
    method HandleEdit(r: Recipe)
      modifies this`editingId, this`editForm
      ensures editingId == Some(r.id) && editForm == EditFormFor(r)
    {
      editingId := Some(r.id);
      editForm := EditFormFor(r);
    }

    /** handleCancelEdit. */
    method HandleCancelEdit()
      modifies this`editingId, this`editForm
      ensures editingId.None? && editForm == EmptyForm
    {
      editingId := None;
      editForm := EmptyForm;
    }

    /**
     * handleSaveEdit: the coerced form is sent (there is no validation);
     * the row leaves edit mode only when the server accepts it.
     */
    method HandleSaveEdit(id: int, serverOk: bool) returns (sent: (int, RecipePayload), toast: Toast)
      modifies this`editingId
      ensures sent == (id, Payload(editForm))
      ensures serverOk ==> toast == ToastSuccess("Recipe updated successfully!") && editingId.None?
      ensures !serverOk ==> toast == ToastError("Failed to update recipe") && editingId == old(editingId)
    {
      sent := (id, Payload(editForm));
      if serverOk {
        toast := ToastSuccess("Recipe updated successfully!");
        editingId := None;
      } else {
        toast := ToastError("Failed to update recipe");
      }
    }

    /** handleAddNew: the add row opens with the extra empty `instructions` and `imageUrl`. */
    method HandleAddNew()
      modifies this`showAddRow, this`newRecipe
      ensures showAddRow && newRecipe == AddNewForm
    {
      showAddRow := true;
      newRecipe := AddNewForm;
    }

    /** handleCancelAdd. */
    method HandleCancelAdd()
      modifies this`showAddRow, this`newRecipe
      ensures !showAddRow && newRecipe == EmptyForm
    {
      showAddRow := false;
      newRecipe := EmptyForm;
    }

    /**
     * handleSaveNew: the coerced form is sent; when the server accepts it
     * the add row closes and its form is reset.
     */
    method HandleSaveNew(serverOk: bool) returns (sent: RecipePayload, toast: Toast)
      modifies this`showAddRow, this`newRecipe
      ensures sent == Payload(old(newRecipe))
      ensures serverOk ==> toast == ToastSuccess("Recipe created successfully!") && !showAddRow && newRecipe == EmptyForm
      ensures !serverOk ==> toast == ToastError("Failed to create recipe")
                            && showAddRow == old(showAddRow) && newRecipe == old(newRecipe)
    {
      sent := Payload(newRecipe);
      if serverOk {
        toast := ToastSuccess("Recipe created successfully!");
        HandleCancelAdd();  // the add row closes and resets, as on cancel
      } else {
        toast := ToastError("Failed to create recipe");
      }
    }

    /**
     * handleToggleCategory as written. The component's own state setter
     * `setRecipeCategories` shadows the service function of the same name,
     * so the awaited call stores the recipe id (a number, not an array) as
     * the category list and sends nothing. The success toast follows
     * unconditionally, and the refetch then replaces the list with what the
     * server returns (`refetched`); when the refetch fails its catch leaves
     * the number in place.
     */
    method HandleToggleCategoryAsWritten(recipeId: int, categoryId: int, isCurrentlySelected: bool,
                                         refetched: Fetched<Category>)
      returns (sent: Option<(int, seq<int>)>, toast: Toast)
      modifies this`recipeCategories
      ensures sent.None?
      ensures toast == ToastSuccess(if isCurrentlySelected then "Category removed" else "Category added")
      ensures recipeCategories == if refetched.FetchFailed? then NotArray else refetched
    {
      var currentIds := CurrentIds(recipeCategories);
      var newIds := ToggledIds(currentIds, categoryId, isCurrentlySelected);
      recipeCategories := NotArray;  // setRecipeCategories(recipeId, newIds) keeps only its first argument
      sent := None;
      toast := ToastSuccess(if isCurrentlySelected then "Category removed" else "Category added");
      if !refetched.FetchFailed? {
        recipeCategories := refetched;
      }
    }

    /**
     * handleToggleCategory as intended, calling the service: the id list
     * computed from the categories on display (none when they are not an
     * array) is sent for the recipe. On success the toast says what
     * changed and the refetch replaces the list (a failed refetch keeps
     * it); on failure the error toast shows and nothing changes.
     */
    method HandleToggleCategory(recipeId: int, categoryId: int, isCurrentlySelected: bool, serverOk: bool,
                                refetched: Fetched<Category>)
      returns (sent: (int, seq<int>), toast: Toast)
      modifies this`recipeCategories
      ensures sent.0 == recipeId
      ensures isCurrentlySelected ==> sent.1 == RemoveAll(CurrentIds(old(recipeCategories)), categoryId)
      ensures !isCurrentlySelected ==> sent.1 == CurrentIds(old(recipeCategories)) + [categoryId]
      ensures serverOk ==> toast == ToastSuccess(if isCurrentlySelected then "Category removed" else "Category added")
      ensures serverOk ==> recipeCategories == if refetched.FetchFailed? then old(recipeCategories) else refetched
      ensures !serverOk ==> toast == ToastError("Failed to update category") && recipeCategories == old(recipeCategories)
    {
      var currentIds := CurrentIds(recipeCategories);
      var newIds := ToggledIds(currentIds, categoryId, isCurrentlySelected);
      sent := (recipeId, newIds);
      if !serverOk {
        toast := ToastError("Failed to update category");
        return;
      }
      toast := ToastSuccess(if isCurrentlySelected then "Category removed" else "Category added");
      if !refetched.FetchFailed? {
        recipeCategories := refetched;
      }
    }

    /** handleAddStep: the new step gets the next order and the description as given. */
    method HandleAddStep(recipeId: int, description: string) returns (sent: StepRequest)
      ensures sent == StepRequest(recipeId, |recipeSteps| + 1, description)
    {
      var newOrder := NextStepOrder(recipeSteps);
      sent := StepRequest(recipeId, newOrder, description);
    }

    /**
     * The add-step button and the Enter key: a blank input does nothing;
     * otherwise the input, untrimmed, is sent as a new step and cleared.
     */
    method SubmitNewStep(recipeId: int) returns (sent: Option<StepRequest>)
      modifies this`newStepText
      ensures IsBlank(old(newStepText)) ==> sent.None? && newStepText == old(newStepText)
      ensures !IsBlank(old(newStepText)) ==>
                sent == Some(StepRequest(recipeId, |recipeSteps| + 1, old(newStepText))) && newStepText == ""
    {
      var text := newStepText;
      if IsBlank(text) {
        return None;
      }
      var request := HandleAddStep(recipeId, text);
      sent := Some(request);
      newStepText := "";
    }
  }
}
