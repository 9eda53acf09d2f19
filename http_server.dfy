/**
 * The HTTP server: label listings from two start-up caches, sorted recipe
 * names, paginated listing and search, and the validating shopping-list
 * routes over the HTTP server's own set-backed manager.
 */
module HttpServer {
  import opened Wrappers
  import opened Json
  import opened Ordering
  import opened Slices
  import opened RecipeQuery
  import opened SetShoppingList

  /** A route's answer: a 200 payload, a 400 with its error text, or an uncaught exception (500). */
  datatype Reply<T> = Success(value: T) | BadRequest(error: string) | ServerError

  /** The loaded recipes and the two label caches filled from them at start-up. */
  datatype Catalog = Catalog(recipes: seq<Recipe>, allIngredients: set<string>, allDietTypes: set<string>)

  predicate CachesBuilt(c: Catalog)
  {
    c.allIngredients == Labels(c.recipes, Ingredients) && c.allDietTypes == Labels(c.recipes, Diet)
  }

  /** One start-up cache loop: `cache.update(field)` for every recipe whose field is non-empty. */
  method CollectLabels(rs: seq<Recipe>, f: Field) returns (cache: set<string>)
    ensures cache == Labels(rs, f)
  {
    cache := {};
    var i := 0;
    while i < |rs|
      invariant 0 <= i <= |rs|
      invariant cache == Labels(rs[..i], f)
    {
      LabelsStep(rs, i, f);
      if |FieldOf(rs[i], f)| > 0 {
        cache := cache + Elements(FieldOf(rs[i], f));
      }
      i := i + 1;
    }
    assert rs[..|rs|] == rs;
  }

  /** Start-up: the ingredient loop, then the diet loop. */
  method BuildCatalog(rs: seq<Recipe>) returns (c: Catalog)
    ensures c.recipes == rs
    ensures CachesBuilt(c)
  {
    var ingredients := CollectLabels(rs, Ingredients);
    var diets := CollectLabels(rs, Diet);
    c := Catalog(rs, ingredients, diets);
  }

  /** `/get_all_ingredients`. */
  function GetAllIngredients(c: Catalog): (r: Listing)
    requires CachesBuilt(c)
    ensures ListsUnion(r, c.recipes, Ingredients)
  {
    ListingOfUnion(c.recipes, Ingredients);
    ListLabels(c.allIngredients)
  }

  /** `/get_all_diets`. */
  function GetAllDiets(c: Catalog): (r: Listing)
    requires CachesBuilt(c)
    ensures ListsUnion(r, c.recipes, Diet)
  {
    ListingOfUnion(c.recipes, Diet);
    ListLabels(c.allDietTypes)
  }

  /** `recipe.get('name')` is truthy. */
  predicate Named(r: Recipe) { r.name != "" }

  /**
   * `[recipe['name'] for recipe in recipes if recipe.get('name')]`: the names
   * of the named recipes, one per recipe and in load order, so a name shared by
   * several recipes is listed once for each.
   */
  function NamesOf(rs: seq<Recipe>): (names: seq<string>)
    ensures |names| == |Filter(rs, Named)|
    ensures forall i :: 0 <= i < |names| ==> names[i] == Filter(rs, Named)[i].name
    ensures forall x :: x in names <==> x != "" && exists k :: 0 <= k < |rs| && rs[k].name == x
  {
    if rs == [] then []
    else
      var rest := NamesOf(rs[1..]);
      assert forall k :: 1 <= k < |rs| ==> rs[k] == rs[1..][k - 1];
      assert Filter(rs, Named) == (if Named(rs[0]) then [rs[0]] else []) + Filter(rs[1..], Named);
      (if rs[0].name != "" then [rs[0].name] else []) + rest
  }

  /** `/get_recipe_names`: the non-empty names sorted, duplicates kept, with their count. */
  function GetRecipeNames(rs: seq<Recipe>): (r: Listing)
    ensures r.count == |r.items| == |Filter(rs, Named)|
    ensures Sorted(r.items)
    ensures multiset(r.items) == multiset(NamesOf(rs))
    ensures forall x :: x in r.items <==> x != "" && exists k :: 0 <= k < |rs| && rs[k].name == x
  {
    var names := NamesOf(rs);
    var sorted := SortSeq(names);
    assert forall x :: x in sorted <==> x in multiset(sorted);
    assert forall x :: x in names <==> x in multiset(names);
    assert |sorted| == |multiset(sorted)| == |multiset(names)| == |names|;
    Listing(|sorted|, sorted)
  }

  /** The fixed page size. */
  const PerPage: nat := 10

  /** The pagination block of a listing. */
  datatype PageInfo = PageInfo(page: int, perPage: nat, total: nat, totalPages: nat, hasNext: bool, hasPrev: bool)

  /** One page of recipes and its pagination block. */
  datatype Page = Page(recipes: seq<Recipe>, pagination: PageInfo)

  /** `(total + per_page - 1) // per_page`: the least number of pages that hold `total` items. */
  function TotalPages(total: nat): (n: nat)
    ensures PerPage * n >= total
    ensures n > 0 ==> PerPage * (n - 1) < total
  {
    (total + PerPage - 1) / PerPage
  }

  /**
   * The pagination of both listing routes: items
   * `xs[(page - 1) * 10 : (page - 1) * 10 + 10]` with Python's slice rules,
   * the total before pagination, and the page flags.
   */
  function Paginate(xs: seq<Recipe>, page: int): (r: Page)
    ensures r.pagination == PageInfo(page, PerPage, |xs|, TotalPages(|xs|), page < TotalPages(|xs|), page > 1)
    ensures page >= 1 ==>
      var lo := if PerPage * (page - 1) < |xs| then PerPage * (page - 1) else |xs|;
      var hi := if PerPage * page < |xs| then PerPage * page else |xs|;
      r.recipes == xs[lo..hi]
    ensures page >= 1 ==> |r.recipes| <= PerPage
    ensures page >= 1 && page > TotalPages(|xs|) ==> r.recipes == []
    ensures 1 <= page < TotalPages(|xs|) ==> |r.recipes| == PerPage
  {
    var start := (page - 1) * PerPage;
    var total := |xs|;
    var info := PageInfo(page, PerPage, total, TotalPages(total), page < TotalPages(total), page > 1);
    Page(Slice(xs, start, start + PerPage), info)
  }

  /** Pages `p` to `last`, concatenated. */
  function PagesFrom(xs: seq<Recipe>, p: int, last: int): seq<Recipe>
    decreases last - p
  {
    if p > last then [] else Paginate(xs, p).recipes + PagesFrom(xs, p + 1, last)
  }

  /** Reading pages 1 to `total_pages` in turn yields every recipe once, in order. */
  lemma PagesCoverAll(xs: seq<Recipe>)
    ensures PagesFrom(xs, 1, TotalPages(|xs|)) == xs
  {
    PagesFromSuffix(xs, 1);
  }

  lemma {:induction false} PagesFromSuffix(xs: seq<Recipe>, p: int)
    requires p >= 1
    ensures PagesFrom(xs, p, TotalPages(|xs|)) ==
      xs[(if PerPage * (p - 1) < |xs| then PerPage * (p - 1) else |xs|)..]
    decreases TotalPages(|xs|) - p
  {
    var lo := if PerPage * (p - 1) < |xs| then PerPage * (p - 1) else |xs|;
    if p <= TotalPages(|xs|) {
      PagesFromSuffix(xs, p + 1);
      var hi := if PerPage * p < |xs| then PerPage * p else |xs|;
      assert xs[lo..] == xs[lo..hi] + xs[hi..];
    } else {
      assert lo == |xs|;
    }
  }

  /** 23 recipes make 3 pages: page 3 holds the last 3, page 4 is empty but still reports the totals. */
  lemma TwentyThreeRecipes(xs: seq<Recipe>)
    requires |xs| == 23
    ensures TotalPages(|xs|) == 3
    ensures Paginate(xs, 3).recipes == xs[20..] && !Paginate(xs, 3).pagination.hasNext
    ensures Paginate(xs, 4).recipes == [] && Paginate(xs, 4).pagination.total == 23
    ensures Paginate(xs, 4).pagination.totalPages == 3
  {
  }

  /** `/get_recipes`: a page of all recipes in load order. */
  function GetRecipesRoute(c: Catalog, page: int): (r: Page)
    ensures r == Paginate(c.recipes, page)
    ensures r.pagination.total == |c.recipes|
    ensures r.pagination.totalPages == TotalPages(|c.recipes|)
    ensures r.pagination.hasNext <==> page < TotalPages(|c.recipes|)
    ensures r.pagination.hasPrev <==> page > 1
    ensures forall x :: x in r.recipes ==> x in c.recipes
  {
    Paginate(c.recipes, page)
  }

  const MissingSearchParameter: string :=
    "Please provide at least one search parameter: 'diet', 'meal_type', 'name', 'includes_ingredients', or 'excludes_ingredients'"

  /** `/search_recipes`: a 400 when no parameter is given, otherwise a page of the matching recipes. */
  function SearchRecipesRoute(rs: seq<Recipe>, f: SearchFilters, page: int): (r: Reply<Page>)
    ensures NoFilters(f) <==> r == BadRequest(MissingSearchParameter)
    ensures r.Success? ==> r.value == Paginate(Search(rs, f), page)
    ensures r.Success? ==> r.value.pagination.total == |Search(rs, f)|
    ensures r.Success? ==> forall x :: x in r.value.recipes ==> x in rs && Matches(x, f)
    ensures !r.ServerError?
  {
    if NoFilters(f) then BadRequest(MissingSearchParameter)
    else
      var found := Search(rs, f);
      var p := Paginate(found, page);
      forall x | x in p.recipes ensures x in rs && Matches(x, f) { SearchMembership(rs, f, x); }
      Success(p)
  }

  /** The payload of a successful `/add_ingredients`: how many elements were given, and the list. */
  datatype AddReply = AddReply(added: nat, shoppingList: seq<string>)

  /** `request.get_json()` of a JSON request, already parsed; `None` when the request is not JSON. */
  type Body = Option<Json>

  /** `data.get('ingredients')`, with a missing key read as null. */
  function IngredientsField(fields: map<string, Json>): Json
  {
    if "ingredients" in fields then fields["ingredients"] else JNull
  }

  /**
   * `/add_ingredients`: the checks in source order, each answering 400 with
   * nothing changed; an empty list is already refused as "No ingredients
   * provided", so "Ingredients array is empty" is never answered.
   */
  method AddIngredientsRoute(m: ShoppingListManager, body: Body) returns (r: Reply<AddReply>)
    modifies m
    ensures body.None? ==> r == BadRequest("Request must be JSON")
    ensures body.Some? && !Truthy(body.value) ==> r == BadRequest("Invalid JSON")
    ensures body.Some? && Truthy(body.value) && !body.value.JObject? ==> r == ServerError
    ensures body.Some? && body.value.JObject? && Truthy(body.value) ==>
      var v := IngredientsField(body.value.fields);
      if !Truthy(v) then r == BadRequest("No ingredients provided")
      else if !v.JArray? then r == BadRequest("Ingredients must be an array")
      else r.Success? && r.value.added == |v.items|
           && m.shoppingList == AddedAll(old(m.shoppingList), v.items)
           && StrictlySorted(r.value.shoppingList)
           && (forall x :: x in r.value.shoppingList <==> x in m.shoppingList)
    ensures !r.Success? ==> m.shoppingList == old(m.shoppingList)
    ensures r != BadRequest("Ingredients array is empty")
  {
    if body.None? { return BadRequest("Request must be JSON"); }
    var data := body.value;
    if !Truthy(data) { return BadRequest("Invalid JSON"); }
    if !data.JObject? { return ServerError; }
    var ingredients := IngredientsField(data.fields);
    if !Truthy(ingredients) { return BadRequest("No ingredients provided"); }
    if !ingredients.JArray? { return BadRequest("Ingredients must be an array"); }
    var items := ingredients.items;
    var i := 0;
    while i < |items|
      invariant 0 <= i <= |items|
      invariant m.shoppingList == AddedAll(old(m.shoppingList), items[..i])
    {
      assert items[..i + 1][..i] == items[..i];
      var _ := m.AddIngredient(items[i]);
      i := i + 1;
    }
    assert items[..i] == items;
    var list := m.GetList();
    return Success(AddReply(|items|, list));
  }

  /**
   * `/remove_ingredients`: a missing or null list and an empty list are told
   * apart; on success the contents lose exactly the given strings. An
   * unhashable element makes the manager raise part-way.
   */
  method RemoveIngredientsRoute(m: ShoppingListManager, body: Body) returns (r: Reply<seq<string>>)
    modifies m
    ensures body.None? ==> r == BadRequest("Request must be JSON")
    ensures body.Some? && !Truthy(body.value) ==> r == BadRequest("Invalid JSON")
    ensures body.Some? && Truthy(body.value) && !body.value.JObject? ==> r == ServerError
    ensures body.Some? && body.value.JObject? && Truthy(body.value) ==>
      var v := IngredientsField(body.value.fields);
      if v.JNull? then r == BadRequest("No ingredients provided")
      else if !v.JArray? then r == BadRequest("Ingredients must be an array")
      else if v.items == [] then r == BadRequest("Ingredients array is empty")
      else m.shoppingList == Discarded(old(m.shoppingList), v.items)
           && (if HashablePrefix(v.items) == |v.items| then r.Success? else r == ServerError)
           && (r.Success? ==> StrictlySorted(r.value) && forall x :: x in r.value <==> x in m.shoppingList)
    ensures r.BadRequest? ==> m.shoppingList == old(m.shoppingList)
    ensures body.Some? && Truthy(body.value) && !body.value.JObject? ==> m.shoppingList == old(m.shoppingList)
  {
    if body.None? { return BadRequest("Request must be JSON"); }
    var data := body.value;
    if !Truthy(data) { return BadRequest("Invalid JSON"); }
    if !data.JObject? { return ServerError; }
    var ingredients := IngredientsField(data.fields);
    if ingredients.JNull? { return BadRequest("No ingredients provided"); }
    if !ingredients.JArray? { return BadRequest("Ingredients must be an array"); }
    if ingredients.items == [] { return BadRequest("Ingredients array is empty"); }
    var outcome := m.RemoveIngredients(ingredients);
    if outcome.Raised? { return ServerError; }
    var list := m.GetList();
    return Success(list);
  }

  /** `/clear_shopping_list`. */
  method ClearRoute(m: ShoppingListManager) returns (message: string)
    modifies m
    ensures m.shoppingList == {}
    ensures message == "Shopping list cleared"
  {
    m.ClearList();
    message := "Shopping list cleared";
  }

  /** `/get_shopping_list`: the current contents, sorted; nothing changed. */
  method GetShoppingListRoute(m: ShoppingListManager) returns (list: seq<string>)
    ensures StrictlySorted(list)
    ensures forall x :: x in list <==> x in m.shoppingList
  {
    list := m.GetList();
  }
}
