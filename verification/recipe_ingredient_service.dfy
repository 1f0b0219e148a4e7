/**
 * The back-end service that links ingredients to recipes: a recipe
 * ingredient records which recipe and which ingredient it joins, with a
 * quantity and a unit. The three repositories it consults are maps (or,
 * where only existence is asked, sets) inside one store object.
 */
module RecipeIngredientService {
  import opened Wrappers

  /** A stored recipe ingredient; `quantity` and `unit` may be null. */
  datatype RecipeIngredient = RecipeIngredient(
    id: int,
    recipeId: int,
    ingredientId: int,
    quantity: Option<real>,
    unit: Option<string>)

  /** The entity handed to addIngredient: its ingredient reference (absent when null), quantity and unit. */
  datatype Draft = Draft(ingredientId: Option<int>, quantity: Option<real>, unit: Option<string>)

  /** The entity handed to updateIngredient: only its quantity and unit are read. */
  datatype Details = Details(quantity: Option<real>, unit: Option<string>)

  /**
   * Why an operation fails: the three not-found exceptions, and the null
   * ingredient reference that makes addIngredient throw before any lookup
   * of the ingredient.
   */
  datatype ServiceError =
    | RecipeNotFound(recipeId: int)
    | IngredientNotFound
    | EntryNotFound(id: int)
    | NoIngredientReference

  /** Every entry is stored under its own id. */
  ghost predicate KeysMatch(m: map<int, RecipeIngredient>)
  {
    forall k :: k in m ==> m[k].id == k
  }

  // ---------------------------------------------------------------------------
  // The partial update
  // ---------------------------------------------------------------------------

  /** updateIngredient's change to one entry: quantity and unit are overwritten only where the details give them. */
  function ApplyUpdate(e: RecipeIngredient, d: Details): (r: RecipeIngredient)
    ensures r.id == e.id && r.recipeId == e.recipeId && r.ingredientId == e.ingredientId
    ensures r.quantity == (if d.quantity.Some? then d.quantity else e.quantity)
    ensures r.unit == (if d.unit.Some? then d.unit else e.unit)
  {
    var q := if d.quantity.Some? then e.(quantity := d.quantity) else e;
    if d.unit.Some? then q.(unit := d.unit) else q
  }

  /** The effect of updateIngredient on the whole store; an unknown id leaves it as it is. */
  function StoreUpdate(m: map<int, RecipeIngredient>, id: int, d: Details): (r: map<int, RecipeIngredient>)
    ensures r.Keys == m.Keys
    ensures forall k :: k in m && k != id ==> r[k] == m[k]
    ensures KeysMatch(m) ==> KeysMatch(r)
  {
    if id in m then m[id := ApplyUpdate(m[id], d)] else m
  }

  /** Applying the same update twice gives the same entry as applying it once. */
  lemma ApplyUpdateIdempotent(e: RecipeIngredient, d: Details)
    ensures ApplyUpdate(ApplyUpdate(e, d), d) == ApplyUpdate(e, d)
  {
  }

  /** An update with neither quantity nor unit leaves the entry unchanged. */
  lemma ApplyUpdateEmpty(e: RecipeIngredient)
    ensures ApplyUpdate(e, Details(None, None)) == e
  {
  }

  /** Two updates in a row are one update in which the later one's given fields win. */
  lemma ApplyUpdateCompose(e: RecipeIngredient, d1: Details, d2: Details)
    ensures ApplyUpdate(ApplyUpdate(e, d1), d2) ==
              ApplyUpdate(e, Details(if d2.quantity.Some? then d2.quantity else d1.quantity,
                                     if d2.unit.Some? then d2.unit else d1.unit))
  {
  }

  /** Applying the same update to the store twice gives the same store as applying it once. */
  lemma StoreUpdateIdempotent(m: map<int, RecipeIngredient>, id: int, d: Details)
    ensures StoreUpdate(StoreUpdate(m, id, d), id, d) == StoreUpdate(m, id, d)
  {
    if id in m {
      ApplyUpdateIdempotent(m[id], d);
      assert StoreUpdate(m, id, d)[id] == ApplyUpdate(m[id], d);
    }
  }

  // ---------------------------------------------------------------------------
  // Lookup by recipe
  // ---------------------------------------------------------------------------

  /** The entries of one recipe, keyed by id. */
  function ByRecipe(m: map<int, RecipeIngredient>, recipeId: int): (r: map<int, RecipeIngredient>)
    ensures forall k :: k in r <==> k in m && m[k].recipeId == recipeId
    ensures forall k :: k in r ==> r[k] == m[k]
  {
    map k | k in m && m[k].recipeId == recipeId :: m[k]
  }

  /** Adding an entry under a new id adds it to its own recipe's entries and to no other recipe's. */
  lemma ByRecipeAfterAdd(m: map<int, RecipeIngredient>, k: int, e: RecipeIngredient, recipeId: int)
    requires k !in m
    ensures e.recipeId == recipeId ==> ByRecipe(m[k := e], recipeId) == ByRecipe(m, recipeId)[k := e]
    ensures e.recipeId != recipeId ==> ByRecipe(m[k := e], recipeId) == ByRecipe(m, recipeId)
  {
    if e.recipeId == recipeId {
      assert ByRecipe(m[k := e], recipeId).Keys == ByRecipe(m, recipeId).Keys + {k};
    } else {
      assert ByRecipe(m[k := e], recipeId).Keys == ByRecipe(m, recipeId).Keys;
    }
  }

  /** Deleting an entry removes it from its recipe's entries and nothing else. */
  lemma ByRecipeAfterDelete(m: map<int, RecipeIngredient>, id: int, recipeId: int)
    ensures ByRecipe(m - {id}, recipeId) == ByRecipe(m, recipeId) - {id}
  {
    assert ByRecipe(m - {id}, recipeId).Keys == ByRecipe(m, recipeId).Keys - {id};
  }

  /** An update never moves an entry from one recipe to another. */
  lemma ByRecipeAfterUpdate(m: map<int, RecipeIngredient>, id: int, d: Details, recipeId: int)
    ensures ByRecipe(StoreUpdate(m, id, d), recipeId).Keys == ByRecipe(m, recipeId).Keys
  {
  }

  // ---------------------------------------------------------------------------
  // The service
  // ---------------------------------------------------------------------------

  /** The three repositories the service works on. */
  class RecipeIngredientStore {
    /** The ids of the stored recipes (only their existence is consulted). */
    var recipes: set<int>
    /** The ids of the stored ingredients (only their existence is consulted). */
    var ingredients: set<int>
    /** The recipe-ingredient repository, by id. */
    var entries: map<int, RecipeIngredient>

    ghost predicate Valid()
      reads this
    {
      KeysMatch(entries)
    }

    constructor (recipes: set<int>, ingredients: set<int>)
      ensures Valid()
      ensures this.recipes == recipes && this.ingredients == ingredients && entries == map[]
    {
      this.recipes := recipes;
      this.ingredients := ingredients;
      entries := map[];
    }

    /** getIngredientsByRecipeId: exactly the stored entries whose recipe id matches. */
    method GetIngredientsByRecipeId(recipeId: int) returns (r: set<RecipeIngredient>)
      requires Valid()
      ensures forall k :: k in entries && entries[k].recipeId == recipeId ==> entries[k] in r
      ensures forall e :: e in r ==> e.recipeId == recipeId && e.id in entries && entries[e.id] == e
    {
      var mine := ByRecipe(entries, recipeId);
      r := set k | k in mine :: mine[k];
    }

    /**
     * addIngredient: the recipe must exist, then the ingredient the draft
     * refers to; on success the entry, linked to both, is saved under the
     * id the repository generates (`freshId`). A failure saves nothing.
     */
    method AddIngredient(recipeId: int, draft: Draft, freshId: int) returns (r: Result<RecipeIngredient, ServiceError>)
      requires Valid() && freshId !in entries
      modifies this`entries
      ensures Valid()
      ensures recipeId !in recipes ==> r == Failure(RecipeNotFound(recipeId)) && entries == old(entries)
      ensures recipeId in recipes && draft.ingredientId.None? ==>
                r == Failure(NoIngredientReference) && entries == old(entries)
      ensures recipeId in recipes && draft.ingredientId.Some? && draft.ingredientId.value !in ingredients ==>
                r == Failure(IngredientNotFound) && entries == old(entries)
      ensures recipeId in recipes && draft.ingredientId.Some? && draft.ingredientId.value in ingredients ==>
                && r.Success?
                && r.value == RecipeIngredient(freshId, recipeId, draft.ingredientId.value, draft.quantity, draft.unit)
                && entries == old(entries)[freshId := r.value]
    {
      if recipeId !in recipes {
        return Failure(RecipeNotFound(recipeId));
      }
      if draft.ingredientId.None? {
        return Failure(NoIngredientReference);
      }
      var ingredientId := draft.ingredientId.value;
      if ingredientId !in ingredients {
        return Failure(IngredientNotFound);
      }
      var saved := RecipeIngredient(freshId, recipeId, ingredientId, draft.quantity, draft.unit);
      entries := entries[freshId := saved];
      r := Success(saved);
    }

    /**
     * updateIngredient: an unknown id fails and changes nothing; otherwise
     * the entry gets the given quantity and unit (where not null), every
     * other field and every other entry staying as they were.
     */
    method UpdateIngredient(id: int, details: Details) returns (r: Result<RecipeIngredient, ServiceError>)
      requires Valid()
      modifies this`entries
      ensures Valid()
      ensures entries == StoreUpdate(old(entries), id, details)
      ensures id !in old(entries) ==> r == Failure(EntryNotFound(id))
      ensures id in old(entries) ==> r == Success(entries[id])
    {
      if id !in entries {
        return Failure(EntryNotFound(id));
      }
      var entry := entries[id];
      if details.quantity.Some? {
        entry := entry.(quantity := details.quantity);
      }
      if details.unit.Some? {
        entry := entry.(unit := details.unit);
      }
      entries := entries[id := entry];
      r := Success(entry);
    }

    /** deleteIngredient: an unknown id fails; otherwise exactly that entry is removed. */
    method DeleteIngredient(id: int) returns (err: Option<ServiceError>)
      requires Valid()
      modifies this`entries
      ensures Valid()
      ensures id !in old(entries) ==> err == Some(EntryNotFound(id)) && entries == old(entries)
      ensures id in old(entries) ==> err.None? && entries == old(entries) - {id}
    {
      if id !in entries {
        return Some(EntryNotFound(id));
      }
      entries := entries - {id};
      err := None;
    }
  }
}
