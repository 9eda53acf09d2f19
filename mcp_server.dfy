/**
 * The tool server: recipe search with a capped limit, lookup by exact name,
 * the label listings built from caches filled once at start-up, and the
 * shopping-list tools over the tool server's own set-backed manager.
 */
module McpServer {
  import opened Wrappers
  import opened Json
  import opened Ordering
  import opened Slices
  import opened RecipeQuery
  import opened SetShoppingList

  /** The limit used when the caller gives none. */
  const DefaultLimit: int := 10
  /** The largest limit honoured. */
  const MaxLimit: int := 50

  /** `min(args.get('limit', 10), 50)`. */
  function EffectiveLimit(limit: Option<int>): (l: int)
    ensures l <= MaxLimit
    ensures limit.None? ==> l == DefaultLimit
    ensures limit.Some? && limit.value <= MaxLimit ==> l == limit.value
    ensures limit.Some? && limit.value > MaxLimit ==> l == MaxLimit
  {
    var given := if limit.Some? then limit.value else DefaultLimit;
    if given < MaxLimit then given else MaxLimit
  }

  /** The reply of `search_recipes`. */
  datatype SearchReply = SearchReply(
    recipes: seq<Recipe>,
    totalFound: nat,
    returned: nat,
    filtersApplied: SearchFilters,
    limit: int)

  /**
   * `search_recipes`: the matching recipes in load order, cut to the
   * effective limit; `total_found` counts them before the cut. A limit below
   * one behaves as Python's `xs[:limit]` does.
   */
  function SearchRecipes(rs: seq<Recipe>, f: SearchFilters, limit: Option<int>): (r: SearchReply)
    ensures r.limit == EffectiveLimit(limit) && r.filtersApplied == f
    ensures r.totalFound == |Search(rs, f)| <= |rs|
    ensures r.returned == |r.recipes| <= r.totalFound
    ensures r.recipes == Search(rs, f)[..r.returned]
    ensures r.limit >= 0 ==> r.returned == (if r.limit < r.totalFound then r.limit else r.totalFound)
    ensures forall x :: x in r.recipes <==> x in Search(rs, f)[..r.returned]
    ensures forall x :: x in r.recipes ==> x in rs && Matches(x, f)
  {
    var found := Search(rs, f);
    SearchIsSubsequence(rs, f);
    forall x | x in found ensures x in rs && Matches(x, f) { SearchMembership(rs, f, x); }
    var l := EffectiveLimit(limit);
    var kept := Prefix(found, l);
    assert kept == found[..|kept|];
    assert forall x :: x in kept ==> x in found;
    SearchReply(kept, |found|, |kept|, f, l)
  }

  /** The reply of `get_recipe_details` when a name is given. */
  datatype Details = Found(recipe: Recipe) | NotFound(requested: Json)

  /**
   * `get_recipe_details`: an error for a missing or empty name, otherwise the
   * first recipe whose name equals it, or "not found".
   */
  function GetRecipeDetails(rs: seq<Recipe>, recipeName: Json): (r: Result<Details, string>)
    ensures r.Err? <==> !Truthy(recipeName)
    ensures r.Err? ==> r.error == "Recipe name is required"
    ensures r.Ok? && r.value.NotFound? ==> r.value.requested == recipeName
    ensures r.Ok? && r.value.Found? <==>
      Truthy(recipeName) && recipeName.JString? && exists k :: 0 <= k < |rs| && rs[k].name == recipeName.s
    ensures r.Ok? && r.value.Found? ==>
      exists k :: 0 <= k < |rs| && rs[k] == r.value.recipe && rs[k].name == recipeName.s
                  && forall j :: 0 <= j < k ==> rs[j].name != recipeName.s
  {
    if !Truthy(recipeName) then Err("Recipe name is required")
    else if !recipeName.JString? then Ok(NotFound(recipeName))
    else
      match FindByName(rs, recipeName.s)
      case None => Ok(NotFound(recipeName))
      case Some(recipe) => Ok(Found(recipe))
  }

  /** The loaded recipes and the three label caches filled from them at start-up. */
  datatype Catalog = Catalog(
    recipes: seq<Recipe>,
    allIngredients: set<string>,
    allDietTypes: set<string>,
    allMealTypes: set<string>)

  /** Each cache holds the union of its field over all recipes. */
  predicate CachesBuilt(c: Catalog)
  {
    c.allIngredients == Labels(c.recipes, Ingredients)
    && c.allDietTypes == Labels(c.recipes, Diet)
    && c.allMealTypes == Labels(c.recipes, MealType)
  }

  /** The start-up loop: one pass over the recipes updating the three caches. */
  method BuildCatalog(rs: seq<Recipe>) returns (c: Catalog)
    ensures c.recipes == rs
    ensures CachesBuilt(c)
  {
    var ingredients, diets, mealTypes := {}, {}, {};
    var i := 0;
    while i < |rs|
      invariant 0 <= i <= |rs|
      invariant ingredients == Labels(rs[..i], Ingredients)
      invariant diets == Labels(rs[..i], Diet)
      invariant mealTypes == Labels(rs[..i], MealType)
    {
      LabelsStep(rs, i, Ingredients);
      LabelsStep(rs, i, Diet);
      LabelsStep(rs, i, MealType);
      var recipe := rs[i];
      if |recipe.ingredients| > 0 { ingredients := ingredients + Elements(recipe.ingredients); }
      if |recipe.diet| > 0 { diets := diets + Elements(recipe.diet); }
      if |recipe.mealType| > 0 { mealTypes := mealTypes + Elements(recipe.mealType); }
      i := i + 1;
    }
    assert rs[..|rs|] == rs;
    c := Catalog(rs, ingredients, diets, mealTypes);
  }

  /** `get_all_ingredients`: every ingredient of every recipe, once each, sorted. */
  function GetAllIngredients(c: Catalog): (r: Listing)
    requires CachesBuilt(c)
    ensures ListsUnion(r, c.recipes, Ingredients)
  {
    ListingOfUnion(c.recipes, Ingredients);
    ListLabels(c.allIngredients)
  }

  /** `get_all_diet_types`: every diet label, once each, sorted. */
  function GetAllDietTypes(c: Catalog): (r: Listing)
    requires CachesBuilt(c)
    ensures ListsUnion(r, c.recipes, Diet)
  {
    ListingOfUnion(c.recipes, Diet);
    ListLabels(c.allDietTypes)
  }

  /** `get_all_meal_types`: every meal-type label, once each, sorted. */
  function GetAllMealTypes(c: Catalog): (r: Listing)
    requires CachesBuilt(c)
    ensures ListsUnion(r, c.recipes, MealType)
  {
    ListingOfUnion(c.recipes, MealType);
    ListLabels(c.allMealTypes)
  }

  /** The message line of a shopping-list reply. */
  datatype Message = Processed(n: nat) | RemovalAttempted(n: nat) | Cleared

  /** A shopping-list reply: the optional message, the list and its length. */
  datatype ShoppingReply = ShoppingReply(message: Option<Message>, shoppingList: seq<string>, count: nat)

  /** The reply carries the full contents `s`, sorted and without duplicates, and their count. */
  ghost predicate Lists(r: ShoppingReply, s: set<string>)
  {
    StrictlySorted(r.shoppingList) && (forall x :: x in r.shoppingList <==> x in s)
    && r.count == |r.shoppingList| == |s|
  }

  /** The argument value the shopping tools read, `args.get('ingredients', [])`. */
  function IngredientsArg(ingredients: Option<Json>): Json
  {
    if ingredients.None? then JArray([]) else ingredients.value
  }

  /** `get_shopping_list`: the current contents and their count, nothing changed. */
  method GetShoppingList(m: ShoppingListManager) returns (r: ShoppingReply)
    ensures r.message.None?
    ensures Lists(r, m.shoppingList)
  {
    var list := m.GetList();
    r := ShoppingReply(None, list, |list|);
  }

  /**
   * `add_ingredients_to_shopping_list`: a non-list raises before anything is
   * added; otherwise every element is offered to the manager and the message
   * counts the elements, not the insertions.
   */
  method AddIngredientsTool(m: ShoppingListManager, ingredients: Option<Json>)
    returns (r: Result<ShoppingReply, string>)
    modifies m
    ensures var v := IngredientsArg(ingredients);
      if !v.JArray? then r == Err("Ingredients must be an array") && m.shoppingList == old(m.shoppingList)
      else m.shoppingList == AddedAll(old(m.shoppingList), v.items)
           && r.Ok? && r.value.message == Some(Processed(|v.items|)) && Lists(r.value, m.shoppingList)
  {
    var v := IngredientsArg(ingredients);
    if !v.JArray? {
      return Err("Ingredients must be an array");
    }
    var items := v.items;
    var i := 0;
    while i < |items|
      invariant 0 <= i <= |items|
      invariant m.shoppingList == AddedAll(old(m.shoppingList), items[..i])
    {
      assert items[..i + 1][..i] == items[..i];
      var _ := m.AddIngredient(items[i]);
      i := i + 1;
    }
    assert items[..i] == items;
    var list := m.GetList();
    return Ok(ShoppingReply(Some(Processed(|items|)), list, |list|));
  }

  /**
   * `remove_ingredients_from_shopping_list`: a non-list raises before anything
   * is removed; otherwise the manager discards the given strings, and an
   * unhashable element makes it raise part-way.
   */
  method RemoveIngredientsTool(m: ShoppingListManager, ingredients: Option<Json>)
    returns (r: Result<ShoppingReply, string>)
    modifies m
    ensures var v := IngredientsArg(ingredients);
      if !v.JArray? then r == Err("Ingredients must be an array") && m.shoppingList == old(m.shoppingList)
      else m.shoppingList == Discarded(old(m.shoppingList), v.items)
           && (r.Ok? <==> HashablePrefix(v.items) == |v.items|)
           && (r.Ok? ==> r.value.message == Some(RemovalAttempted(|v.items|)) && Lists(r.value, m.shoppingList))
  {
    var v := IngredientsArg(ingredients);
    if !v.JArray? {
      return Err("Ingredients must be an array");
    }
    var outcome := m.RemoveIngredients(v);
    if outcome.Raised? {
      return Err("unhashable type");
    }
    var list := m.GetList();
    return Ok(ShoppingReply(Some(RemovalAttempted(|v.items|)), list, |list|));
  }

  /** `clear_shopping_list`: the contents become empty and the reply says so with count 0. */
  method ClearTool(m: ShoppingListManager) returns (r: ShoppingReply)
    modifies m
    ensures m.shoppingList == {}
    ensures r == ShoppingReply(Some(Cleared), [], 0)
  {
    m.ClearList();
    r := ShoppingReply(Some(Cleared), [], 0);
  }
}
