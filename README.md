# Rohlik recipe and shopping-list service, modelled in Dafny

This project models the core of a small recipe service. The service keeps recipe records in memory. It has two front ends over the same logic: a tool server (`mcp_server.py`) and a Flask HTTP server (`shopping_list_mcp_server/server.py`). They run as separate processes, and each builds its own shopping-list manager at start-up.

The model covers:

- **The query engine.** Five optional filters are applied one after another in load order:
  - diet, by case-insensitive equality with some label;
  - meal type, in the same way;
  - name, as a case-insensitive substring;
  - comma-separated ingredients that must occur;
  - comma-separated ingredients that must not occur.

  The model also covers exact-name lookup and the start-up caches of ingredient, diet and meal-type labels.
- **Output shaping.** The tool server cuts its result to a limit of at most 50, with 10 as the default. The HTTP server paginates in pages of 10, using ceiling division and `has_next`/`has_prev` flags.
- **The set-backed shopping-list manager**, of which each server keeps its own instance. Entries are stripped on insertion, duplicates disappear, the list is returned sorted, and removal takes exact strings.
- **The older list-backed manager.** It appends, keeps duplicates, and hands out its own list object, so callers alias it.
- **The CSV loader.** It splits each row's `ingredients` cell on commas and strips every piece. Any failure gives an empty result.
- **The vector-store loader's data preparation.** For each row it builds an id, a document text and a metadata record, then splits the rows into batches of 50.
- **`sanitize_string`**, which is defined identically in both utility modules.

## Python semantics

Each Python operation the services rely on is written out:

- **`str.strip()`** removes exactly the characters `str.isspace` accepts (`Strings.IsSpace`).
- **`str.split(',')`** keeps empty pieces.
- **`str.lower()`** covers ASCII, Latin-1 and the regular case pairs of Latin Extended-A. That range holds the Czech letters of the data set.
- **`t in s`** is the substring test.
- **Truthiness** (`if x:`) is modelled on a small JSON value type, `Json.Json`. Requests and tool arguments arrive as untyped values.
- **Slices** with a negative bound count from the end (`Slices.Slice`). A limit or page number below one therefore behaves as in Python.
- **`sorted`** on strings is modelled as lexicographic order on code points (`Ordering.LexLe`).

## Proof structure

Each operation is tied to a reference definition:

- **Search.** `RecipeQuery.Search` is the source's chain of five comprehensions. `RecipeQuery.SearchIsConjunction` proves it equal to one filter by `RecipeQuery.Matches`, the conjunction of the given filters.
- **Shopping-list methods.** These are proved against the functions `SetShoppingList.Added`, `SetShoppingList.AddedAll` and `SetShoppingList.Discarded`. Lemmas then state what those functions mean.
- **Label caches.** The cache loops are proved to compute `RecipeQuery.Labels`. `RecipeQuery.LabelsMembership` characterises that function as a union.

## Model

| member | source | states |
|---|---|---|
| RecipeQuery.SearchIsConjunction | mcp_server.py:216-255 | The five filter steps applied in turn equal one filter by the conjunction of the given filters. A filter that is missing or empty imposes nothing. |
| RecipeQuery.SearchMembership | mcp_server.py:216-255 | A recipe is in the result exactly when it is loaded and passes every given filter. |
| RecipeQuery.SearchIsSubsequence | mcp_server.py:216-255 | The result is an order-preserving subsequence of the loaded recipes. |
| RecipeQuery.FiltersCommute | mcp_server.py:216-255 | Applying two filters in either order gives the same list. |
| RecipeQuery.SearchWithoutFilters | shopping_list_mcp_server/server.py:130 | With no filter given, the search returns all recipes in load order. |
| RecipeQuery.Filter | mcp_server.py:220-223 | The comprehension never grows the list: an element survives exactly when it is present and passes the test. |
| RecipeQuery.FilterIsSubsequence | shopping_list_mcp_server/server.py:133-136 | A comprehension keeps the survivors in their original order. |
| RecipeQuery.FilterFilter | shopping_list_mcp_server/server.py:130-170 | Two comprehensions in sequence equal one comprehension by the conjunction of their tests. |
| RecipeQuery.FilterAppend | shopping_list_mcp_server/server.py:130-170 | A comprehension distributes over concatenation. |
| RecipeQuery.FilterCongruent | shopping_list_mcp_server/server.py:130-170 | A comprehension depends only on its test's values on the list's elements. |
| RecipeQuery.FilterAll | shopping_list_mcp_server/server.py:130-170 | A test that holds for every element keeps the whole list. |
| RecipeQuery.DietStepIsFilter | mcp_server.py:219-223 | The diet step filters by "diet non-empty and some label equals the query ignoring case" when a diet is given, and is the identity otherwise. |
| RecipeQuery.MealTypeStepIsFilter | mcp_server.py:225-229 | The meal-type step works like the diet step on meal-type labels. |
| RecipeQuery.NameStepIsFilter | mcp_server.py:231-235 | The name step keeps recipes with a non-empty name that contains the lowered query. |
| RecipeQuery.IncludesStepIsFilter | mcp_server.py:237-245 | The include step keeps recipes that have ingredients and have every term inside some lowered ingredient. |
| RecipeQuery.ExcludesStepIsFilter | mcp_server.py:247-255 | The exclude step keeps recipes that have ingredients and have no term inside any lowered ingredient. |
| RecipeQuery.IngredientlessDropped | mcp_server.py:241 | Under an include or exclude filter, a recipe without ingredients is never returned, even when every term is blank. |
| RecipeQuery.TermsOf | mcp_server.py:238 | No term is empty: blank pieces are dropped. |
| RecipeQuery.TermsOfMembership | mcp_server.py:238 | The terms are exactly the stripped, lowered, non-blank comma pieces. |
| RecipeQuery.SingleTerm | shopping_list_mcp_server/server.py:152 | A parameter without commas gives its stripped, lowered self as the only term, or no term when it is blank. |
| RecipeQuery.PlainTerm | shopping_list_mcp_server/server.py:163 | A word without commas, outer whitespace or capitals is its own single term. |
| RecipeQuery.SearchPair | mcp_server.py:216-255 | Searching two recipes keeps each one exactly when it matches, in order. |
| RecipeQuery.DietKeepsLabelled | mcp_server.py:219-223 | A diet filter keeps a recipe carrying the label and drops one without diet labels. |
| RecipeQuery.IncludeMatches | mcp_server.py:237-245 | A recipe with an ingredient containing the word passes the include filter on that word. |
| RecipeQuery.IncludeKeepsBoth | mcp_server.py:237-245 | An ingredient word both recipes contain keeps both, in order. |
| RecipeQuery.ExcludeMatches | mcp_server.py:247-255 | Under an exclude filter, a recipe passes exactly when it has ingredients and none contains the word. |
| RecipeQuery.ExcludeDropsOne | mcp_server.py:247-255 | Excluding a word only the second recipe contains keeps only the first. |
| RecipeQuery.IncludeOnionScenario | shopping_list_mcp_server/server.py:150-159 | Including "cibule" keeps both the soup and the goulash. |
| RecipeQuery.VegetarianScenario | shopping_list_mcp_server/server.py:132-136 | The diet "vegetarian" keeps only the soup. |
| RecipeQuery.ExcludeBeefScenario | shopping_list_mcp_server/server.py:161-170 | Excluding "hovězí" keeps only the soup. It matches the capitalised "Hovězí" of the goulash through lowering. |
| RecipeQuery.OnionIsPlain | shopping_list_mcp_server/server.py:152 | "cibule" is a plain term, and the lowered "Cibule" contains it. |
| RecipeQuery.GoulashHasBeef | shopping_list_mcp_server/server.py:167 | The lowered "Hovězí" contains "hovězí". |
| RecipeQuery.SoupLacksBeef | shopping_list_mcp_server/server.py:167 | No lowered soup ingredient contains "hovězí". |
| RecipeQuery.LetterAbsent | mcp_server.py:252 | A term whose first letter does not occur in the text in either case does not occur in the lowered text. |
| RecipeQuery.LowerToAscii | mcp_server.py:252 | Only a lower-case ASCII letter and its capital lower to that letter. |
| RecipeQuery.FirstCharAbsent | mcp_server.py:252 | A term whose first character is absent from the text does not occur in it. |
| RecipeQuery.FilterPair | shopping_list_mcp_server/server.py:130-170 | A comprehension over two elements keeps each one exactly when it passes. |
| RecipeQuery.FindByName | mcp_server.py:326 | The value is None exactly when no name equals the query. Otherwise it is the first recipe, in load order, with that exact name. |
| RecipeQuery.Elements | mcp_server.py:39 | Definition: the set of a list's elements, which `set.update` with that list adds. |
| RecipeQuery.Search | mcp_server.py:216-255 | The chain of the five comprehensions, each applied only when its parameter is truthy, starting from a copy of the recipe list. |
| RecipeQuery.Matches | mcp_server.py:218-255 | The reference definition of a match: the conjunction of the filters whose parameters are given. |
| RecipeQuery.MatchesDiet | mcp_server.py:219-223 | The recipe has diet labels and one of them, lowered, equals the lowered query. |
| RecipeQuery.MatchesMealType | mcp_server.py:225-229 | The recipe has meal-type labels and one of them, lowered, equals the lowered query. |
| RecipeQuery.MatchesName | mcp_server.py:231-235 | The name is non-empty and its lowered form contains the lowered query. |
| RecipeQuery.QueryCaseIgnored | mcp_server.py:222-234 | The diet, meal-type and name filters give the same answer for a query and its lowered form. |
| RecipeQuery.MatchesIncludes | mcp_server.py:237-245 | The recipe has ingredients and every term occurs in some lowered ingredient. |
| RecipeQuery.MatchesExcludes | mcp_server.py:247-255 | The recipe has ingredients and no term occurs in any lowered ingredient. |
| RecipeQuery.Labels | mcp_server.py:33-43 | The union of one label field over the recipes, as the start-up cache loop accumulates it. |
| RecipeQuery.LabelsMembership | mcp_server.py:33-43 | A label is in the union exactly when some recipe carries it in that field. |
| RecipeQuery.LabelsStep | mcp_server.py:37-43 | One loop step that updates the cache when the field is non-empty keeps the cache equal to the union over the recipes seen so far. |
| RecipeQuery.ListLabels | mcp_server.py:341-344 | The listing holds the cache's elements once each, in ascending order, with `count` equal to their number. |
| RecipeQuery.ListingOfUnion | mcp_server.py:339-358 | Listing the union cache lists exactly the labels some recipe carries, sorted, without duplicates, and counted. |
| McpServer.EffectiveLimit | mcp_server.py:214 | The limit is 10 when none is given, the given value when it is at most 50, and exactly 50 when a larger value is given. |
| McpServer.SearchRecipes | mcp_server.py:207-272 | `recipes` is the prefix of the search result of length min(limit, total_found) for a non-negative limit. `total_found` is the count before the cut and `returned` is the prefix length. Every returned recipe is loaded and matches. The filters and the limit are echoed. |
| McpServer.GetRecipeDetails | mcp_server.py:319-337 | A missing or empty name is an error. Otherwise the reply is the first recipe with exactly that name, or not-found with the requested name. "Found" holds exactly when some recipe has the name. |
| McpServer.BuildCatalog | mcp_server.py:33-43 | One pass over the recipes fills the three caches with the unions of ingredients, diets and meal types. |
| McpServer.GetAllIngredients | mcp_server.py:339-344 | The listing holds the distinct ingredients of all recipes, strictly sorted, with count equal to length. |
| McpServer.GetAllDietTypes | mcp_server.py:346-351 | The listing holds the distinct diet labels in the same way. |
| McpServer.GetAllMealTypes | mcp_server.py:353-358 | The listing holds the distinct meal-type labels in the same way. |
| McpServer.GetShoppingList | mcp_server.py:274-279 | The reply holds the full contents, sorted and without duplicates, with `count` equal to their number. |
| McpServer.AddIngredientsTool | mcp_server.py:281-294 | A non-list is an error with nothing changed. Otherwise every element is offered in turn and the reply carries the full sorted list, its count, and the number of elements given. |
| McpServer.RemoveIngredientsTool | mcp_server.py:296-308 | A non-list is an error before any removal. Otherwise the given strings are discarded, and it succeeds exactly when no element is unhashable. The reply carries the full sorted list, its count, and the number of elements given. |
| McpServer.ClearTool | mcp_server.py:310-317 | The contents become empty and the reply is the cleared message with an empty list and count 0. |
| HttpServer.CollectLabels | shopping_list_mcp_server/server.py:17-26 | A cache loop computes the union of the field over all recipes. |
| HttpServer.BuildCatalog | shopping_list_mcp_server/server.py:16-26 | Start-up fills the ingredient and diet caches with their unions. |
| HttpServer.GetAllIngredients | shopping_list_mcp_server/server.py:28-34 | The listing holds the distinct ingredients, strictly sorted, with count equal to length. |
| HttpServer.GetAllDiets | shopping_list_mcp_server/server.py:36-42 | The listing holds the distinct diet labels, strictly sorted, with count equal to length. |
| HttpServer.NamesOf | shopping_list_mcp_server/server.py:47 | Entry i is the name of the i-th recipe with a non-empty name, so there is one entry per named recipe and a shared name appears once per recipe. The names listed are exactly the non-empty names of the recipes. |
| HttpServer.GetRecipeNames | shopping_list_mcp_server/server.py:44-51 | The result is a sorted permutation of the names of the named recipes, with duplicates kept, and `count` is its length, the number of named recipes. |
| HttpServer.TotalPages | shopping_list_mcp_server/server.py:72 | The page count is the least number of 10-item pages that hold the total. |
| HttpServer.Paginate | shopping_list_mcp_server/server.py:172-181 | Page p holds items [10(p-1), 10p) clamped to the list, so at most 10 items. A page past the last is empty. Pages before the last are full. `total`, `total_pages`, `has_next` and `has_prev` follow the source's formulas. |
| HttpServer.PagesCoverAll | shopping_list_mcp_server/server.py:172-181 | Reading pages 1 to `total_pages` in turn yields every item once, in order. |
| HttpServer.PagesFromSuffix | shopping_list_mcp_server/server.py:174-176 | The pages from p onwards concatenate to the items from index 10(p-1) onwards. |
| HttpServer.TwentyThreeRecipes | shopping_list_mcp_server/server.py:172-181 | 23 items make 3 pages. Page 3 holds the last 3 and has no next page. Page 4 is empty but still reports the totals. |
| HttpServer.GetRecipesRoute | shopping_list_mcp_server/server.py:57-86 | The reply is the page of all recipes as `Paginate` defines it: the slice for that page, `total` the number of recipes, `total_pages` its ceiling over 10, `has_next` exactly when the page is before the last, `has_prev` exactly when it is after the first. |
| HttpServer.SearchRecipesRoute | shopping_list_mcp_server/server.py:115-193 | With no parameter given, the reply is exactly the 400 message. Otherwise it is the page of the search result, so `total` counts the matches and every item is a loaded recipe that matches. |
| HttpServer.AddIngredientsRoute | shopping_list_mcp_server/server.py:88-113 | The checks come in source order: not JSON, falsy body, missing or falsy list, non-list. Each answers 400 with nothing changed, and a non-dict body raises. Otherwise every element is offered and the reply holds the number given and the sorted contents. "Ingredients array is empty" is never answered. |
| HttpServer.RemoveIngredientsRoute | shopping_list_mcp_server/server.py:200-224 | A missing or null list, a non-list and an empty list get their own 400s with nothing changed. A truthy body that is not a dict raises before any removal, leaving the list unchanged. Otherwise the given strings before the first unhashable element are discarded. The reply is the sorted contents when every element is hashable, and otherwise the uncaught exception (a 500). |
| HttpServer.ClearRoute | shopping_list_mcp_server/server.py:195-198 | The contents become empty and the message is "Shopping list cleared". |
| HttpServer.GetShoppingListRoute | shopping_list_mcp_server/server.py:53-55 | The reply is the contents, sorted, with nothing changed. |
| SetShoppingList.ShoppingListManager.constructor | shopping_list_mcp_server/shopping_list_manager.py:2-3 | The list starts empty. |
| SetShoppingList.ShoppingListManager.AddIngredient | shopping_list_mcp_server/shopping_list_manager.py:5-10 | It returns true exactly for a non-empty string, and then inserts its strip. Anything else changes nothing. |
| SetShoppingList.ShoppingListManager.GetList | shopping_list_mcp_server/shopping_list_manager.py:12-14 | It returns the contents in strictly ascending order, each once, with nothing changed. |
| SetShoppingList.ShoppingListManager.ClearList | shopping_list_mcp_server/shopping_list_manager.py:16-18 | The contents become empty, which also makes clearing idempotent. |
| SetShoppingList.ShoppingListManager.RemoveIngredients | shopping_list_mcp_server/shopping_list_manager.py:20-26 | A non-list returns false with no change. A list discards its strings in turn and returns true. An unhashable element raises, and only the strings before it are removed. |
| SetShoppingList.Added | shopping_list_mcp_server/shopping_list_manager.py:5-10 | `add_ingredient` on the contents: insert the strip of a non-empty string, otherwise nothing. |
| SetShoppingList.AddedAll | mcp_server.py:287-288 | The contents after offering each element of a list to `add_ingredient` in turn. |
| SetShoppingList.Discarded | shopping_list_mcp_server/shopping_list_manager.py:20-26 | The contents minus the strings among the elements before the first unhashable one, where `discard` raises. |
| SetShoppingList.AddedAllMembership | shopping_list_mcp_server/shopping_list_manager.py:5-10 | Adding a list inserts exactly the stripped non-empty strings among its elements. |
| SetShoppingList.DiscardStrings | shopping_list_mcp_server/shopping_list_manager.py:24-25 | For a list of strings, the result is the old contents minus exactly those strings. |
| SetShoppingList.AddSameAfterStrip | shopping_list_mcp_server/shopping_list_manager.py:8 | A second add of a string that strips to the same text changes nothing: no duplicates. |
| SetShoppingList.BlankInsertsEmpty | shopping_list_mcp_server/shopping_list_manager.py:7-8 | A whitespace-only string passes the truthiness test and inserts the empty string. |
| SetShoppingList.RejectedLeavesUnchanged | shopping_list_mcp_server/shopping_list_manager.py:7-10 | An empty string or a non-string leaves the contents unchanged. |
| SetShoppingList.RemoveAbsentIsNoOp | shopping_list_mcp_server/shopping_list_manager.py:21-25 | Removing only absent strings changes nothing. |
| SetShoppingList.RemovalIsExact | shopping_list_mcp_server/shopping_list_manager.py:25 | Removal does not strip: an entry not given verbatim stays. |
| SetShoppingList.MilkOnce | shopping_list_mcp_server/shopping_list_manager.py:3-8 | Adding "Mléko " and then "Mléko" leaves the single entry "Mléko". |
| SetShoppingList.RemovalScenario | shopping_list_mcp_server/shopping_list_manager.py:20-26 | Removing Cibule, Máslo and an absent item from four entries leaves Mléko and Chléb. |
| SetShoppingList.ListScenario | shopping_list_mcp_server/shopping_list_manager.py:12-14 | The only strictly sorted listing of Mléko, Cibule and Chléb is Chléb, Cibule, Mléko. |
| ListShoppingList.ShoppingListManager.constructor | src/shopping_list_manager.py:2-3 | The manager starts with a fresh empty list. |
| ListShoppingList.ShoppingListManager.AddIngredient | src/shopping_list_manager.py:5-10 | For a non-empty string it returns true and appends its strip to the same list object. Otherwise it returns false with nothing changed. |
| ListShoppingList.ShoppingListManager.GetList | src/shopping_list_manager.py:12-14 | It returns the manager's own list object, not a copy. |
| ListShoppingList.ShoppingListManager.ClearList | src/shopping_list_manager.py:16-18 | The manager is rebound to a fresh empty list. |
| ListShoppingList.PyList.Append | src/shopping_list_manager.py:8 | `append` adds the element at the end. |
| ListShoppingList.AliasingScenario | src/shopping_list_manager.py:5-18 | A list obtained from `get_list` sees later adds, duplicates included, and keeps its contents after a clear. The manager's new list is empty. |
| RecipeLoader.LoadRecipes | src/recipe_loader.py:4-22 | An unreadable source, or a row whose ingredients cell cannot be split, gives []. Otherwise there is one converted record per row, in row order. |
| RecipeLoader.ConvertRow | src/recipe_loader.py:16-18 | The keys are kept and every other column is passed through unchanged. `ingredients`, if present, becomes the list of its stripped comma pieces. |
| RecipeLoader.StripEach | src/recipe_loader.py:17 | The comprehension keeps the number of pieces and strips each one. |
| RecipeLoader.IngredientList | src/recipe_loader.py:17 | `[i.strip() for i in text.split(',')]`: the stripped comma pieces of one cell, empty pieces kept. |
| RecipeLoader.IngredientListLength | src/recipe_loader.py:17 | The list has one more entry than there are commas: empty pieces are kept. |
| RecipeLoader.EmptyCellGivesOneEmptyPiece | src/recipe_loader.py:17 | An empty cell gives [""]. |
| RecipeLoader.IngredientListEntries | src/recipe_loader.py:17 | No entry contains a comma or starts or ends with whitespace. |
| ChromaLoader.BuildCollectionData | load_recipes_to_chroma.py:53-82 | ids, documents and metadatas are as long as the rows. Entry k of each is the id, the stripped document template and the metadata record of row k. |
| ChromaLoader.Columns | load_recipes_to_chroma.py:53-82 | The loop appends one entry per row to each of three lists, in row order. |
| ChromaLoader.StepsPreview | load_recipes_to_chroma.py:76 | The preview is the prefix of the steps of length min(200, length). |
| ChromaLoader.PrimaryLabel | load_recipes_to_chroma.py:78-79 | The primary label has no comma and no outer whitespace. |
| ChromaLoader.PrimaryLabelBeforeComma | load_recipes_to_chroma.py:78-79 | The primary label of "a,b" is a, stripped, for any comma-free a; a leading comma gives "". |
| ChromaLoader.PrimaryLabelOfSingle | load_recipes_to_chroma.py:78-79 | A label without commas is its own primary label, stripped ('' stays ''). |
| ChromaLoader.FirstPiece | load_recipes_to_chroma.py:78 | The first piece of splitting "a,b" is a when a has no comma. |
| ChromaLoader.IngredientCount | load_recipes_to_chroma.py:80 | The count is 0 exactly for an empty cell, and otherwise the number of commas plus one. |
| ChromaLoader.MetadataOf | load_recipes_to_chroma.py:69-82 | The metadata record: the name and the label texts, the 200-character steps preview, the primary diet and meal type, and the ingredient count. |
| ChromaLoader.Template | load_recipes_to_chroma.py:60-66 | The filled-in document template, each of its five lines and the closing quote preceded by a newline and eight spaces. |
| ChromaLoader.DocumentText | load_recipes_to_chroma.py:60-66 | The filled-in template, stripped. |
| ChromaLoader.DocumentTextIsLines | load_recipes_to_chroma.py:60-66 | When the steps end in non-whitespace, stripping removes exactly the template's leading and trailing indentation. |
| ChromaLoader.HeadingStart | load_recipes_to_chroma.py:61 | The document's first line starts with "Recipe: ", so its first character is not whitespace. |
| ChromaLoader.IndentIsSpace | load_recipes_to_chroma.py:60-66 | The template's newline and indentation are whitespace. |
| ChromaLoader.BatchRanges | load_recipes_to_chroma.py:84-98 | There are ceil(n/50) batches. Batch k has number k+1 and range [50k, min(50k+50, n)). The ranges tile [0, n). |
| ChromaLoader.AllRowsAdded | load_recipes_to_chroma.py:94-98 | Adding the slices of the batch ranges one after another adds every row exactly once, in order. |
| ChromaLoader.BatchesCoverRows | load_recipes_to_chroma.py:94-98 | Contiguous ranges from `from` to the end concatenate to the suffix from `from`. |
| ChromaLoader.TilesBounded | load_recipes_to_chroma.py:88-89 | Every batch range lies inside [0, n). |
| Utils.SanitizeString | shopping_list_mcp_server/utils.py:1-5 | A non-string gives "". A string gives its slice with only whitespace around it, neither starting nor ending with whitespace. |
| Utils.SanitizeIdempotent | shopping_list_mcp_server/utils.py:4 | Sanitising a sanitised string changes nothing. |
| Utils.SanitizeIsOuterTrim | src/utils.py:3-4 | For a string, the result is the unique whitespace-framed slice with no outer whitespace, i.e. the input minus its leading and trailing whitespace. |
| Utils.SanitizeBlank | src/utils.py:4 | A whitespace-only string becomes "". |
| Strings.Strip | shopping_list_mcp_server/shopping_list_manager.py:8 | The strip is a slice with only whitespace around it that neither starts nor ends with whitespace. It is empty exactly for all-whitespace input. |
| Strings.StripUnique | src/utils.py:4 | That slice characterisation determines the strip completely. |
| Strings.StripIdempotent | src/utils.py:4 | Stripping twice is stripping once. |
| Strings.StripUnchanged | src/recipe_loader.py:17 | A string without outer whitespace is its own strip. |
| Strings.StripKeepsAbsent | load_recipes_to_chroma.py:78 | Stripping never introduces a character. |
| Strings.StripFramed | load_recipes_to_chroma.py:60-66 | Whitespace on both sides of a body without outer whitespace is exactly what the strip removes. |
| Strings.Split | src/recipe_loader.py:17 | Splitting gives at least one piece, and no piece contains the separator. |
| Strings.SplitCount | load_recipes_to_chroma.py:80 | The number of pieces is the number of separators plus one. |
| Strings.SplitJoin | src/recipe_loader.py:17 | Joining the pieces with the separator gives the string back. |
| Strings.SplitNoSeparator | mcp_server.py:238 | A string without separators splits into itself. |
| Strings.Lower | mcp_server.py:222 | Lowering keeps the length and maps each character independently. |
| Strings.LowerIdempotent | mcp_server.py:222 | Lowering twice is lowering once, so lowering an already lowered query changes nothing. |
| Strings.Contains | mcp_server.py:234 | `t in s`: t is a prefix of s or of one of its suffixes. |
| Strings.ContainsAt | mcp_server.py:234 | `t in s` holds exactly when t is the slice of s at some offset. |
| Ordering.SortSet | shopping_list_mcp_server/shopping_list_manager.py:14 | `sorted` of a set has the set's elements, each once, in strictly ascending order. |
| Ordering.StrictlySortedUnique | shopping_list_mcp_server/shopping_list_manager.py:14 | Only one strictly sorted sequence has a given set of elements. |
| Ordering.SortSeq | shopping_list_mcp_server/server.py:50 | `sorted` of a list is a sorted permutation of it. |
| Ordering.Insert | shopping_list_mcp_server/server.py:50 | Insertion into a sorted list keeps it sorted and adds exactly the element. |
| Ordering.LeastExists | mcp_server.py:343 | Every non-empty finite set of strings has a least element. |
| Ordering.LexLeAntisymmetric | mcp_server.py:343 | The string order is antisymmetric. |
| Ordering.LexLeTransitive | mcp_server.py:343 | The string order is transitive. |
| Ordering.LexLeTotal | mcp_server.py:343 | The string order is total. |
| Slices.Slice | shopping_list_mcp_server/server.py:176 | Definition: `xs[start:stop]`, the slice between the normalised bounds, or empty when they cross. Its meaning for callers is proved in Slices.PrefixLength, Slices.PrefixNegative and HttpServer.Paginate. |
| Slices.Bound | shopping_list_mcp_server/server.py:176 | Definition: a negative bound counts from the end, and every bound is clamped to [0, n]. |
| Slices.PrefixLength | mcp_server.py:258 | `xs[:limit]` with limit >= 0 is the leading min(limit, length) elements. |
| Slices.PrefixNegative | mcp_server.py:258 | `xs[:limit]` with a negative limit drops that many elements from the end. |
| Json.StringSet | shopping_list_mcp_server/shopping_list_manager.py:24-25 | The set of string elements holds exactly the strings the list contains. |
| Json.HashablePrefix | shopping_list_mcp_server/shopping_list_manager.py:24-25 | The elements before the index are hashable, and the element at it, if any, is not: that is where `discard` raises. |
| Json.Truthy | shopping_list_mcp_server/shopping_list_manager.py:7 | Python truthiness: null, false, zero and the empty string, list and dict are falsy; everything else is truthy. |
| Json.NonEmptyStringIsTruthyString | shopping_list_mcp_server/shopping_list_manager.py:7 | `ingredient and isinstance(ingredient, str)` holds exactly for a non-empty string. |

## Left out

- The tool schemas, the tool dispatcher and the stdio transport of the tool server are not modelled. They are declarations and protocol plumbing, and their JSON serialisation is only the container of the values modelled here.
- Flask routing, `jsonify` and status codes are not modelled.
  - Each route returns a `Reply`: success, a 400 with its message, or an uncaught exception.
  - A body that is not JSON is `None`. Parsing a malformed JSON body is not modelled.
  - The `page` argument is taken as an already-converted integer. Flask's fallback to 1 for a non-integer `page` is not modelled.
- The semantic-search routes of the HTTP server and the vector-store query modules are not modelled. They wrap a library that is not part of this model.
- The vector-store loader's client and collection calls, CSV reading and printing are not modelled. Only the ids, documents, metadata and batch ranges handed to the collection are.
- Concurrency of the module-level manager and recipe list is not modelled. The model is single-threaded.
- The servers import a recipe loader that is not part of this model, so loaded records are taken as given.
  - Their `diet` and `meal_type` fields are lists of strings, as the client's record type declares.
  - The loader shown (`src/recipe_loader.py`) is modelled on its own and splits only `ingredients`.
- RecipeQuery.MatchesDiet: a filter argument that is not a string (which would make `.lower()` raise) is not modelled. Filters are `Option<string>`.
- Strings.LowerChar: `str.lower` beyond ASCII, Latin-1 and Latin Extended-A is taken as the identity. U+0130, which Python lowers to two characters, is left unchanged.
- Ordering.LexLe: Python's string order is modelled as code-point order with a proper prefix first.
- McpServer.EffectiveLimit: the limit is an optional integer. A `limit` argument that is null or not a number, which would make `min` raise a `TypeError` at mcp_server.py:214, is not modelled.
- McpServer.GetRecipeDetails: the not-found message and suggestion texts are not built. The reply records only the requested name.
- McpServer.AddIngredientsTool: messages are the `Message` datatype, not their formatted English text.
- ChromaLoader.MetadataOf: a CSV row missing a column (a `KeyError` in the source) is not modelled. Every row has all six columns as text.
- RecipeLoader.LoadRecipes: reading the file is the parameter `source`. A read failure part-way through the file is modelled the same as an unreadable file, so the result is [] in both cases. The in-place overwrite of the row dictionary is modelled as building the converted row as a value.
- ChromaLoader.DocumentText: the document is the stripped template. Its text is characterised only when the steps end in non-whitespace (ChromaLoader.DocumentTextIsLines).
