/**
 * The ingredient admin page: the required-field validator of the add and
 * edit rows, the payload they send (macro-nutrients defaulting to 0), the
 * edit form filled from a stored ingredient, and the formatter that shows
 * the stored nutritional-info JSON as "Fat: …g, Carbs: …g, Protein: …g".
 */
module IngredientsPage {
  import opened Wrappers
  import opened Strings
  import opened AdminForms

  /** An ingredient as the server lists it; `nutritionalInfo` is JSON text, or absent. */
  datatype Ingredient = Ingredient(
    id: int,
    name: Option<string>,
    unit: Option<string>,
    calories: Value,
    nutritionalInfo: Option<string>)

  /**
   * What `JSON.parse` makes of stored nutritional-info text: a failure
   * (malformed text, or `null`, whose fields cannot be read), or a value
   * whose `fat`, `carbs` and `protein` properties are each defined or not.
   */
  datatype InfoParse = Unparseable | Parsed(fat: Option<Value>, carbs: Option<Value>, protein: Option<Value>)

  /** The six inputs of the add row and of the edit row. */
  datatype IngredientForm = IngredientForm(
    name: string,
    unit: string,
    calories: Value,
    fat: Value,
    carbs: Value,
    protein: Value)

  const EmptyForm := IngredientForm("", "", Text(""), Text(""), Text(""), Text(""))

  const NameRequired := "Please enter an ingredient name"
  const UnitRequired := "Please enter a unit"
  const CaloriesRequired := "Please enter calories per 100g"

  /** The macro-nutrients sent to the server, as the JSON object `{fat, carbs, protein}`. */
  datatype NutritionInfo = NutritionInfo(fat: NumberOut, carbs: NumberOut, protein: NumberOut)

  /** The body of a create or update request. */
  datatype IngredientPayload = IngredientPayload(
    name: string,
    unit: string,
    calories: Option<NumberOut>,
    info: NutritionInfo)

  // ---------------------------------------------------------------------------
  // The validator
  // ---------------------------------------------------------------------------

  /**
   * The validator as written: the first failing check, in the order name,
   * unit, calories, gives its message; the calories check is `!calories`,
   * JavaScript falsiness.
   */
  function ValidateAsWritten(f: IngredientForm): (r: Option<string>)
    ensures r == Some(NameRequired) <==> IsBlank(f.name)
    ensures r == Some(UnitRequired) <==> !IsBlank(f.name) && IsBlank(f.unit)
    ensures r == Some(CaloriesRequired) <==> !IsBlank(f.name) && !IsBlank(f.unit) && !Truthy(f.calories)
    ensures r == None <==> !IsBlank(f.name) && !IsBlank(f.unit) && Truthy(f.calories)
  {
    if IsBlank(f.name) then Some(NameRequired)
    else if IsBlank(f.unit) then Some(UnitRequired)
    else if !Truthy(f.calories) then Some(CaloriesRequired)
    else None
  }

  /** A calories value was entered: the field is neither empty nor null (the number 0 counts as entered). */
  predicate Entered(v: Value)
  {
    v != Text("") && !v.Null?
  }

  /**
   * The validator with the calories check corrected to "nothing entered":
   * same order and messages, and a stored 0 is accepted.
   */
  function Validate(f: IngredientForm): (r: Option<string>)
    ensures r == Some(NameRequired) <==> IsBlank(f.name)
    ensures r == Some(UnitRequired) <==> !IsBlank(f.name) && IsBlank(f.unit)
    ensures r == Some(CaloriesRequired) <==> !IsBlank(f.name) && !IsBlank(f.unit) && !Entered(f.calories)
    ensures r == None <==> !IsBlank(f.name) && !IsBlank(f.unit) && Entered(f.calories)
  {
    if IsBlank(f.name) then Some(NameRequired)
    else if IsBlank(f.unit) then Some(UnitRequired)
    else if !Entered(f.calories) then Some(CaloriesRequired)
    else None
  }

  /** On anything but a stored number 0 the two validators agree; in particular on every typed-in form. */
  lemma ValidateAgrees(f: IngredientForm)
    requires f.calories != Number("0")
    ensures Validate(f) == ValidateAsWritten(f)
  {
  }

  /**
   * The corrected check accepts every form the check as written accepts,
   * and the two give different answers only on a stored number 0.
   */
  lemma ValidatorsDifferOnlyOnZero(f: IngredientForm)
    ensures ValidateAsWritten(f).None? ==> Validate(f).None?
    ensures Validate(f) != ValidateAsWritten(f) ==>
              f.calories == Number("0") && Validate(f).None? && ValidateAsWritten(f) == Some(CaloriesRequired)
  {
  }

  // ---------------------------------------------------------------------------
  // The request body
  // ---------------------------------------------------------------------------

  /**
   * The request body: name and unit as typed (not trimmed), calories read
   * with `parseInt` when entered, and every macro read with `parseFloat`
   * when given and 0 otherwise.
   */
  function Payload(f: IngredientForm): (p: IngredientPayload)
    ensures p.name == f.name && p.unit == f.unit
    ensures p.calories.None? <==> !Entered(f.calories)
    ensures p.calories.Some? ==> p.calories.value == IntOf(f.calories)
    ensures p.info.fat.Zero? <==> !Truthy(f.fat)
    ensures p.info.carbs.Zero? <==> !Truthy(f.carbs)
    ensures p.info.protein.Zero? <==> !Truthy(f.protein)
  {
    IngredientPayload(
      f.name, f.unit,
      if Entered(f.calories) then Some(IntOf(f.calories)) else None,
      NutritionInfo(FloatOrZero(f.fat), FloatOrZero(f.carbs), FloatOrZero(f.protein)))
  }

  /** A form that passes validation always sends a calories number. */
  lemma ValidPayloadHasCalories(f: IngredientForm)
    requires Validate(f) == None
    ensures Payload(f).calories == Some(IntOf(f.calories))
  {
  }

  /** A form the check as written accepts sends its calories too, so the edit handler never sends null calories. */
  lemma ValidAsWrittenPayloadHasCalories(f: IngredientForm)
    requires ValidateAsWritten(f) == None
    ensures Payload(f).calories == Some(IntOf(f.calories)) && Truthy(f.calories)
  {
  }

  /** Empty (or null) macro fields are sent as 0; the untouched add row sends 0 for all three. */
  lemma MacrosDefaultToZero(f: IngredientForm)
    requires f.fat in {Text(""), Null} && f.carbs in {Text(""), Null} && f.protein in {Text(""), Null}
    ensures Payload(f).info == NutritionInfo(Zero, Zero, Zero)
  {
  }

  // ---------------------------------------------------------------------------
  // The edit form
  // ---------------------------------------------------------------------------

  /** `info.x !== undefined ? info.x : ''`. */
  function FieldOrEmpty(x: Option<Value>): (v: Value)
    ensures x.None? ==> v == Text("")
    ensures x.Some? ==> v == x.value
  {
    if x.Some? then x.value else Text("")
  }

  /**
   * handleEdit: the edit form for a stored ingredient. Name and unit
   * default to ''; null calories become '' (0 is kept); the macro fields
   * come from the parsed nutritional info and are '' when absent, when the
   * info is empty or when it does not parse. `parse` is what `JSON.parse`
   * gives for the stored text.
   */
  function EditFormFor(ing: Ingredient, parse: InfoParse): (f: IngredientForm)
    ensures f.name == (if ing.name.Some? then ing.name.value else "")
    ensures f.unit == (if ing.unit.Some? then ing.unit.value else "")
    ensures ing.calories.Null? ==> f.calories == Text("")
    ensures !ing.calories.Null? ==> f.calories == ing.calories
    ensures ing.nutritionalInfo in {None, Some("")} || parse.Unparseable? ==>
              f.fat == Text("") && f.carbs == Text("") && f.protein == Text("")
    ensures ing.nutritionalInfo !in {None, Some("")} && parse.Parsed? ==>
              && (parse.fat.None? ==> f.fat == Text(""))
              && (parse.carbs.None? ==> f.carbs == Text(""))
              && (parse.protein.None? ==> f.protein == Text(""))
              && (parse.fat.Some? ==> f.fat == parse.fat.value)
              && (parse.carbs.Some? ==> f.carbs == parse.carbs.value)
              && (parse.protein.Some? ==> f.protein == parse.protein.value)
  {
    var name := if ing.name.Some? then ing.name.value else "";
    var unit := if ing.unit.Some? then ing.unit.value else "";
    var calories := if ing.calories.Null? then Text("") else ing.calories;
    if ing.nutritionalInfo in {None, Some("")} || parse.Unparseable? then
      IngredientForm(name, unit, calories, Text(""), Text(""), Text(""))
    else
      IngredientForm(name, unit, calories, FieldOrEmpty(parse.fat), FieldOrEmpty(parse.carbs), FieldOrEmpty(parse.protein))
  }

  /**
   * Opening a stored ingredient for edit and saving it unchanged passes the
   * corrected validator whenever it has a name, a unit and any calories
   * value, 0 included.
   */
  lemma EditThenSaveAccepted(ing: Ingredient, parse: InfoParse)
    requires ing.name.Some? && !IsBlank(ing.name.value)
    requires ing.unit.Some? && !IsBlank(ing.unit.value)
    requires ing.calories.Number?
    ensures Validate(EditFormFor(ing, parse)) == None
    ensures Payload(EditFormFor(ing, parse)).calories == Some(IntOf(ing.calories))
  {
  }

  /**
   * As written, the same round trip is refused for every ingredient stored
   * with 0 calories, whatever its nutritional info: the edit form keeps the
   * number 0, and `!0` holds.
   */
  lemma EditThenSaveRefusesZeroAsWritten(ing: Ingredient, parse: InfoParse)
    requires ing.name.Some? && !IsBlank(ing.name.value)
    requires ing.unit.Some? && !IsBlank(ing.unit.value)
    requires ing.calories == Number("0")
    ensures ValidateAsWritten(EditFormFor(ing, parse)) == Some(CaloriesRequired)
  {
  }

  /**
   * Opening a stored ingredient with readable nutritional info and saving it
   * unchanged sends each defined macro as `parseFloat` of its stored value
   * (0 when that value is falsy) and each undefined macro as 0.
   */
  lemma EditThenSaveMacros(ing: Ingredient, parse: InfoParse)
    requires ing.nutritionalInfo.Some? && ing.nutritionalInfo.value != "" && parse.Parsed?
    ensures var info := Payload(EditFormFor(ing, parse)).info;
            && info.fat == (if parse.fat.Some? then FloatOrZero(parse.fat.value) else Zero)
            && info.carbs == (if parse.carbs.Some? then FloatOrZero(parse.carbs.value) else Zero)
            && info.protein == (if parse.protein.Some? then FloatOrZero(parse.protein.value) else Zero)
  {
  }

  // ---------------------------------------------------------------------------
  // parseNutritionalInfo
  // ---------------------------------------------------------------------------

  /** The text shown for one defined field: "Fat: 3g". */
  function Part(key: string, v: Value): (t: string)
    ensures |t| >= |key| + 3 && t[|t| - 1] == 'g'
    ensures t[..|key|] == key
  {
    key + ": " + Shown(v) + "g"
  }

  /** The parts for a list of labelled optional fields: one per defined field, in list order. */
  function Labelled(fields: seq<(string, Option<Value>)>): (parts: seq<string>)
    ensures |parts| <= |fields|
  {
    if fields == [] then []
    else
      var (key, x) := fields[0];
      (if x.Some? then [Part(key, x.value)] else []) + Labelled(fields[1..])
  }

  /** The three fields in the order they are shown. */
  function Fields(fat: Option<Value>, carbs: Option<Value>, protein: Option<Value>): seq<(string, Option<Value>)>
  {
    [("Fat", fat), ("Carbs", carbs), ("Protein", protein)]
  }

  /** There are no parts exactly when no field is defined. */
  lemma {:induction false} LabelledEmpty(fields: seq<(string, Option<Value>)>)
    ensures Labelled(fields) == [] <==> forall i :: 0 <= i < |fields| ==> fields[i].1.None?
  {
    if fields != [] {
      LabelledEmpty(fields[1..]);
      var x := fields[0].1;
      var head := if x.Some? then [Part(fields[0].0, x.value)] else [];
      assert Labelled(fields) == head + Labelled(fields[1..]);
      assert forall i :: 1 <= i < |fields| ==> fields[i] == fields[1..][i - 1];
      assert head == [] <==> x.None?;
      assert (forall i :: 0 <= i < |fields| ==> fields[i].1.None?) <==>
             x.None? && (forall i :: 0 <= i < |fields[1..]| ==> fields[1..][i].1.None?);
    }
  }

  /** Part `t` is the part of the defined field `i`. */
  predicate PartOf(fields: seq<(string, Option<Value>)>, i: int, t: string)
  {
    0 <= i < |fields| && fields[i].1.Some? && t == Part(fields[i].0, fields[i].1.value)
  }

  /** Part `k` is the part of a defined field; `i` is that field's index. */
  lemma {:induction false} LabelledShape(fields: seq<(string, Option<Value>)>, k: nat) returns (i: nat)
    requires k < |Labelled(fields)|
    ensures PartOf(fields, i, Labelled(fields)[k])
  {
    var (key, x) := fields[0];
    var head := if x.Some? then [Part(key, x.value)] else [];
    var tail := Labelled(fields[1..]);
    assert Labelled(fields) == head + tail;
    if k < |head| {
      i := 0;
      assert Labelled(fields)[k] == head[k];
    } else {
      var j := LabelledShape(fields[1..], k - |head|);
      assert Labelled(fields)[k] == tail[k - |head|];
      i := j + 1;
      assert fields[i] == fields[1..][j];
    }
  }

  /** The parts of the three fields: fat, then carbs, then protein, each only when defined. */
  lemma NutritionParts(fat: Option<Value>, carbs: Option<Value>, protein: Option<Value>)
    ensures Labelled(Fields(fat, carbs, protein)) ==
              (if fat.Some? then [Part("Fat", fat.value)] else [])
              + (if carbs.Some? then [Part("Carbs", carbs.value)] else [])
              + (if protein.Some? then [Part("Protein", protein.value)] else [])
  {
    var fs := Fields(fat, carbs, protein);
    assert fs[1..] == [("Carbs", carbs), ("Protein", protein)];
    assert fs[1..][1..] == [("Protein", protein)];
    assert fs[1..][1..][1..] == [];
    assert Labelled(fs[1..][1..]) == (if protein.Some? then [Part("Protein", protein.value)] else []) + Labelled([]);
    assert Labelled(fs[1..]) == (if carbs.Some? then [Part("Carbs", carbs.value)] else []) + Labelled(fs[1..][1..]);
  }

  /**
   * parseNutritionalInfo: "-" for absent or empty input; the input itself
   * when it does not parse; otherwise the parts of the defined fields
   * joined by ", ", or "-" when there are none.
   */
  method FormatNutritionalInfo(nutritionalInfo: Option<string>, parse: InfoParse) returns (r: string)
    ensures nutritionalInfo in {None, Some("")} ==> r == "-"
    ensures nutritionalInfo !in {None, Some("")} && parse.Unparseable? ==> r == nutritionalInfo.value
    ensures nutritionalInfo !in {None, Some("")} && parse.Parsed? ==>
              var parts := Labelled(Fields(parse.fat, parse.carbs, parse.protein));
              r == if parts == [] then "-" else Join(parts, ", ")
  {
    if nutritionalInfo in {None, Some("")} {
      return "-";
    }
    if parse.Unparseable? {
      return nutritionalInfo.value;
    }
    var parts: seq<string> := [];
    if parse.fat.Some? {
      parts := parts + [Part("Fat", parse.fat.value)];
    }
    if parse.carbs.Some? {
      parts := parts + [Part("Carbs", parse.carbs.value)];
    }
    if parse.protein.Some? {
      parts := parts + [Part("Protein", parse.protein.value)];
    }
    NutritionParts(parse.fat, parse.carbs, parse.protein);
    assert parts == (if parse.fat.Some? then [Part("Fat", parse.fat.value)] else [])
                    + (if parse.carbs.Some? then [Part("Carbs", parse.carbs.value)] else [])
                    + (if parse.protein.Some? then [Part("Protein", parse.protein.value)] else []);
    r := if |parts| > 0 then Join(parts, ", ") else "-";
  }

  /** Stored info that parses to a value with none of the three fields shows as "-". */
  lemma NoFieldsShowDash()
    ensures Labelled(Fields(None, None, None)) == []
  {
    LabelledEmpty(Fields(None, None, None));
  }

  // ---------------------------------------------------------------------------
  // The page state
  // ---------------------------------------------------------------------------

  /** The state of the ingredient admin page that the handlers change. */
  class IngredientsPageState {
    var ingredients: seq<Ingredient>
    var editingId: Option<int>
    var editForm: IngredientForm
    var newIngredient: IngredientForm
    var showAddRow: bool

    constructor ()
      ensures ingredients == [] && editingId.None? && editForm == EmptyForm
      ensures newIngredient == EmptyForm && !showAddRow
    {
      ingredients := [];
      editingId := None;
      editForm := EmptyForm;
      newIngredient := EmptyForm;
      showAddRow := false;
    }

    /** fetchIngredients: the list becomes the fetched array, or empty for anything else. */
    method FetchIngredients(result: Fetched<Ingredient>)
      modifies this`ingredients
      ensures result.ArrayOf? ==> ingredients == result.elems
      ensures !result.ArrayOf? ==> ingredients == []
    {
      ingredients := ListOrEmpty(result);
    }

    /** handleEdit: the row enters edit mode with the form filled from the ingredient. */
    method HandleEdit(ing: Ingredient, parse: InfoParse)
      modifies this`editingId, this`editForm
      ensures editingId == Some(ing.id) && editForm == EditFormFor(ing, parse)
    {
      editingId := Some(ing.id);
      editForm := EditFormFor(ing, parse);
    }

    /** handleCancelEdit. */
    method HandleCancelEdit()
      modifies this`editingId, this`editForm
      ensures editingId.None? && editForm == EmptyForm
    {
      editingId := None;
      editForm := EmptyForm;
    }

    /**
     * handleSaveEdit, with the check as written (so a stored 0 calories is
     * refused): a failing check shows its message, sends nothing and
     * changes nothing; otherwise the update request is sent, and only when
     * the server accepts it does the row leave edit mode. `serverOk` is the
     * outcome of the request.
     */
    method HandleSaveEdit(id: int, serverOk: bool) returns (sent: Option<(int, IngredientPayload)>, toast: Toast)
      modifies this`editingId
      ensures ValidateAsWritten(old(editForm)).Some? ==>
                sent.None? && toast == ToastError(ValidateAsWritten(old(editForm)).value) && editingId == old(editingId)
      ensures ValidateAsWritten(old(editForm)).None? ==> sent == Some((id, Payload(old(editForm))))
      ensures ValidateAsWritten(old(editForm)).None? && serverOk ==>
                toast == ToastSuccess("Ingredient updated successfully!") && editingId.None?
      ensures ValidateAsWritten(old(editForm)).None? && !serverOk ==>
                toast == ToastError("Failed to update ingredient") && editingId == old(editingId)
    {
      var check := ValidateAsWritten(editForm);
      if check.Some? {
        return None, ToastError(check.value);
      }
      sent := Some((id, Payload(editForm)));
      if serverOk {
        toast := ToastSuccess("Ingredient updated successfully!");
        editingId := None;
      } else {
        toast := ToastError("Failed to update ingredient");
      }
    }

    /** handleAddNew: the add row opens with an empty form. */
    method HandleAddNew()
      modifies this`showAddRow, this`newIngredient
      ensures showAddRow && newIngredient == EmptyForm
    {
      showAddRow := true;
      newIngredient := EmptyForm;
    }

    /** handleCancelAdd: the add row closes with an empty form. */
    method HandleCancelAdd()
      modifies this`showAddRow, this`newIngredient
      ensures !showAddRow && newIngredient == EmptyForm
    {
      showAddRow := false;
      newIngredient := EmptyForm;
    }

    /**
     * handleSaveNew: a failing check shows its message and sends nothing;
     * otherwise the create request is sent, and when the server accepts it
     * the add row closes and its form is emptied.
     */
    method HandleSaveNew(serverOk: bool) returns (sent: Option<IngredientPayload>, toast: Toast)
      modifies this`showAddRow, this`newIngredient
      ensures Validate(old(newIngredient)).Some? ==>
                && sent.None? && toast == ToastError(Validate(old(newIngredient)).value)
                && showAddRow == old(showAddRow) && newIngredient == old(newIngredient)
      ensures Validate(old(newIngredient)).None? ==> sent == Some(Payload(old(newIngredient)))
      ensures Validate(old(newIngredient)).None? && serverOk ==>
                toast == ToastSuccess("Ingredient created successfully!") && !showAddRow && newIngredient == EmptyForm
      ensures Validate(old(newIngredient)).None? && !serverOk ==>
                toast == ToastError("Failed to create ingredient")
                && showAddRow == old(showAddRow) && newIngredient == old(newIngredient)
    {
      var form := newIngredient;
      var check := Validate(form);
      if check.Some? {
        return None, ToastError(check.value);
      }
      sent := Some(Payload(form));
      if serverOk {
        toast := ToastSuccess("Ingredient created successfully!");
        HandleCancelAdd();  // the add row closes and empties, as on cancel
      } else {
        toast := ToastError("Failed to create ingredient");
      }
    }
  }
}
