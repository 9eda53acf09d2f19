/**
 * The recipe query engine shared, line for line, by the tool server and the
 * HTTP server: recipe records, the five AND-combined filters, lookup by exact
 * name, and the label caches unioned over all records.
 */
module RecipeQuery {
  import opened Wrappers
  import opened Strings
  import opened Ordering

  /** One recipe record as loaded from the dataset; list fields keep their order and duplicates. */
  datatype Recipe = Recipe(
    id: string,
    name: string,
    ingredients: seq<string>,
    steps: string,
    diet: seq<string>,
    mealType: seq<string>)

  /** The five optional search parameters; a missing argument is `None`. */
  datatype SearchFilters = SearchFilters(
    diet: Option<string>,
    mealType: Option<string>,
    name: Option<string>,
    includesIngredients: Option<string>,
    excludesIngredients: Option<string>)

  /** Python's `if param:` on an optional string argument: present and non-empty. */
  predicate Given(p: Option<string>)
  {
    p.Some? && p.value != ""
  }

  /** No filter imposes a constraint. */
  predicate NoFilters(f: SearchFilters)
  {
    !Given(f.diet) && !Given(f.mealType) && !Given(f.name)
    && !Given(f.includesIngredients) && !Given(f.excludesIngredients)
  }

  /** The diet filter: some diet label equals the query, ignoring case. */
  predicate MatchesDiet(r: Recipe, q: string)
  {
    |r.diet| > 0 && exists d :: d in r.diet && Lower(d) == Lower(q)
  }

  /** The meal-type filter: some meal-type label equals the query, ignoring case. */
  predicate MatchesMealType(r: Recipe, q: string)
  {
    |r.mealType| > 0 && exists m :: m in r.mealType && Lower(m) == Lower(q)
  }

  /** The name filter: the query occurs in the non-empty name, ignoring case. */
  predicate MatchesName(r: Recipe, q: string)
  {
    r.name != "" && Contains(Lower(r.name), Lower(q))
  }

  /**
   * The query's own case does not matter: the diet, meal-type and name filters
   * lower the query before comparing, and lowering is idempotent.
   */
  lemma QueryCaseIgnored(r: Recipe, q: string)
    ensures MatchesDiet(r, Lower(q)) <==> MatchesDiet(r, q)
    ensures MatchesMealType(r, Lower(q)) <==> MatchesMealType(r, q)
    ensures MatchesName(r, Lower(q)) <==> MatchesName(r, q)
  {
    LowerIdempotent(q);
  }

  /** Stripped, lowered, non-blank pieces of a list of comma-separated pieces. */
  function TermsOf(pieces: seq<string>): (terms: seq<string>)
    ensures forall t :: t in terms ==> t != ""
  {
    if pieces == [] then []
    else (if Strip(pieces[0]) != "" then [Lower(Strip(pieces[0]))] else []) + TermsOf(pieces[1..])
  }

  /** The terms are exactly the stripped, lowered non-blank pieces. */
  lemma {:induction false} TermsOfMembership(pieces: seq<string>, t: string)
    ensures t in TermsOf(pieces) <==> exists p :: p in pieces && Strip(p) != "" && t == Lower(Strip(p))
  {
    if pieces != [] {
      TermsOfMembership(pieces[1..], t);
      assert forall p :: p in pieces <==> p == pieces[0] || p in pieces[1..];
    }
  }

  /**
   * `[ing.strip().lower() for ing in s.split(',') if ing.strip()]`: the
   * ingredient terms of an include or exclude parameter.
   */
  function Terms(s: string): seq<string>
  {
    TermsOf(Split(s, ','))
  }

  /** A parameter without commas yields its stripped, lowered self as the only term, unless it is blank. */
  lemma SingleTerm(w: string)
    requires ',' !in w
    ensures Terms(w) == if Strip(w) == "" then [] else [Lower(Strip(w))]
  {
    SplitNoSeparator(w, ',');
    assert [w][1..] == [];
    assert TermsOf([w]) == (if Strip(w) != "" then [Lower(Strip(w))] else []) + TermsOf([]);
  }

  /** Some ingredient of `r`, lowered, contains the term. */
  predicate HasIngredient(r: Recipe, term: string)
  {
    exists i :: i in r.ingredients && Contains(Lower(i), term)
  }

  /** The include filter: the recipe has ingredients and every term occurs in one of them. */
  predicate MatchesIncludes(r: Recipe, terms: seq<string>)
  {
    |r.ingredients| > 0 && forall t :: t in terms ==> HasIngredient(r, t)
  }

  /** The exclude filter: the recipe has ingredients and no term occurs in any of them. */
  predicate MatchesExcludes(r: Recipe, terms: seq<string>)
  {
    |r.ingredients| > 0 && forall t :: t in terms ==> !HasIngredient(r, t)
  }

  /** `[x for x in rs if keep(x)]`. */
  function Filter(rs: seq<Recipe>, keep: Recipe -> bool): (r: seq<Recipe>)
    ensures |r| <= |rs|
    ensures forall x :: x in r <==> x in rs && keep(x)
  {
    if rs == [] then []
    else (if keep(rs[0]) then [rs[0]] else []) + Filter(rs[1..], keep)
  }

  /** `if diet:` keep the recipes whose diet matches. */
  function DietStep(rs: seq<Recipe>, f: SearchFilters): seq<Recipe>
  {
    if Given(f.diet) then var q := f.diet.value; Filter(rs, r => MatchesDiet(r, q)) else rs
  }

  /** `if meal_type:` keep the recipes whose meal type matches. */
  function MealTypeStep(rs: seq<Recipe>, f: SearchFilters): seq<Recipe>
  {
    if Given(f.mealType) then var q := f.mealType.value; Filter(rs, r => MatchesMealType(r, q)) else rs
  }

  /** `if name:` keep the recipes whose name contains the query. */
  function NameStep(rs: seq<Recipe>, f: SearchFilters): seq<Recipe>
  {
    if Given(f.name) then var q := f.name.value; Filter(rs, r => MatchesName(r, q)) else rs
  }

  /** `if includes_ingredients:` keep the recipes that have every term. */
  function IncludesStep(rs: seq<Recipe>, f: SearchFilters): seq<Recipe>
  {
    if Given(f.includesIngredients) then
      var t := Terms(f.includesIngredients.value); Filter(rs, r => MatchesIncludes(r, t))
    else rs
  }

  /** `if excludes_ingredients:` keep the recipes that have none of the terms. */
  function ExcludesStep(rs: seq<Recipe>, f: SearchFilters): seq<Recipe>
  {
    if Given(f.excludesIngredients) then
      var t := Terms(f.excludesIngredients.value); Filter(rs, r => MatchesExcludes(r, t))
    else rs
  }

  /**
   * The search: the five list comprehensions applied one after the other,
   * each only when its parameter is given.
   */
  function Search(rs: seq<Recipe>, f: SearchFilters): seq<Recipe>
  {
    ExcludesStep(IncludesStep(NameStep(MealTypeStep(DietStep(rs, f), f), f), f), f)
  }

  predicate DietOk(r: Recipe, f: SearchFilters) { Given(f.diet) ==> MatchesDiet(r, f.diet.value) }
  predicate MealTypeOk(r: Recipe, f: SearchFilters) { Given(f.mealType) ==> MatchesMealType(r, f.mealType.value) }
  predicate NameOk(r: Recipe, f: SearchFilters) { Given(f.name) ==> MatchesName(r, f.name.value) }
  predicate IncludesOk(r: Recipe, f: SearchFilters)
  {
    Given(f.includesIngredients) ==> MatchesIncludes(r, Terms(f.includesIngredients.value))
  }
  predicate ExcludesOk(r: Recipe, f: SearchFilters)
  {
    Given(f.excludesIngredients) ==> MatchesExcludes(r, Terms(f.excludesIngredients.value))
  }

  /** The reference definition: a recipe matches when it passes every given filter. */
  predicate Matches(r: Recipe, f: SearchFilters)
  {
    DietOk(r, f) && MealTypeOk(r, f) && NameOk(r, f) && IncludesOk(r, f) && ExcludesOk(r, f)
  }

  /** `a` can be obtained from `b` by deleting elements: an order-preserving subsequence. */
  predicate IsSubsequence(a: seq<Recipe>, b: seq<Recipe>)
  {
    a == [] || (b != [] && ((a[0] == b[0] && IsSubsequence(a[1..], b[1..])) || IsSubsequence(a, b[1..])))
  }

  /** Filtering keeps the surviving elements in their original order. */
  lemma {:induction false} FilterIsSubsequence(rs: seq<Recipe>, keep: Recipe -> bool)
    ensures IsSubsequence(Filter(rs, keep), rs)
  {
    if rs != [] {
      FilterIsSubsequence(rs[1..], keep);
      var a := Filter(rs, keep);
      if keep(rs[0]) {
        assert a[0] == rs[0] && a[1..] == Filter(rs[1..], keep);
      } else {
        assert a == Filter(rs[1..], keep);
      }
    }
  }

  /** Filters depend only on the predicate's values on the input. */
  lemma {:induction false} FilterCongruent(rs: seq<Recipe>, p: Recipe -> bool, q: Recipe -> bool)
    requires forall x :: x in rs ==> p(x) == q(x)
    ensures Filter(rs, p) == Filter(rs, q)
  {
    if rs != [] {
      assert rs[0] in rs;
      FilterCongruent(rs[1..], p, q);
    }
  }

  /** Filtering twice is filtering once by the conjunction. */
  lemma {:induction false} FilterFilter(rs: seq<Recipe>, p: Recipe -> bool, q: Recipe -> bool, pq: Recipe -> bool)
    requires forall x :: pq(x) == (p(x) && q(x))
    ensures Filter(Filter(rs, p), q) == Filter(rs, pq)
  {
    if rs != [] {
      FilterFilter(rs[1..], p, q, pq);
      var head := if p(rs[0]) then [rs[0]] else [];
      FilterAppend(head, Filter(rs[1..], p), q);
    }
  }

  /** Filtering distributes over concatenation. */
  lemma {:induction false} FilterAppend(a: seq<Recipe>, b: seq<Recipe>, p: Recipe -> bool)
    ensures Filter(a + b, p) == Filter(a, p) + Filter(b, p)
  {
    if a != [] {
      FilterAppend(a[1..], b, p);
      assert (a + b)[1..] == a[1..] + b;
    } else {
      assert a + b == b;
    }
  }

  /** A filter that keeps everything is the identity. */
  lemma {:induction false} FilterAll(rs: seq<Recipe>, p: Recipe -> bool)
    requires forall x :: x in rs ==> p(x)
    ensures Filter(rs, p) == rs
  {
    if rs != [] {
      assert rs[0] in rs;
      FilterAll(rs[1..], p);
      assert rs == [rs[0]] + rs[1..];
    }
  }

  lemma DietStepIsFilter(rs: seq<Recipe>, f: SearchFilters, p: Recipe -> bool)
    requires forall r :: p(r) == DietOk(r, f)
    ensures DietStep(rs, f) == Filter(rs, p)
  {
    if Given(f.diet) { var q := f.diet.value; FilterCongruent(rs, r => MatchesDiet(r, q), p); }
    else { FilterAll(rs, p); }
  }

  lemma MealTypeStepIsFilter(rs: seq<Recipe>, f: SearchFilters, p: Recipe -> bool)
    requires forall r :: p(r) == MealTypeOk(r, f)
    ensures MealTypeStep(rs, f) == Filter(rs, p)
  {
    if Given(f.mealType) { var q := f.mealType.value; FilterCongruent(rs, r => MatchesMealType(r, q), p); }
    else { FilterAll(rs, p); }
  }

  lemma NameStepIsFilter(rs: seq<Recipe>, f: SearchFilters, p: Recipe -> bool)
    requires forall r :: p(r) == NameOk(r, f)
    ensures NameStep(rs, f) == Filter(rs, p)
  {
    if Given(f.name) { var q := f.name.value; FilterCongruent(rs, r => MatchesName(r, q), p); }
    else { FilterAll(rs, p); }
  }

  lemma IncludesStepIsFilter(rs: seq<Recipe>, f: SearchFilters, p: Recipe -> bool)
    requires forall r :: p(r) == IncludesOk(r, f)
    ensures IncludesStep(rs, f) == Filter(rs, p)
  {
    if Given(f.includesIngredients) {
      var t := Terms(f.includesIngredients.value);
      FilterCongruent(rs, r => MatchesIncludes(r, t), p);
    } else { FilterAll(rs, p); }
  }

  lemma ExcludesStepIsFilter(rs: seq<Recipe>, f: SearchFilters, p: Recipe -> bool)
    requires forall r :: p(r) == ExcludesOk(r, f)
    ensures ExcludesStep(rs, f) == Filter(rs, p)
  {
    if Given(f.excludesIngredients) {
      var t := Terms(f.excludesIngredients.value);
      FilterCongruent(rs, r => MatchesExcludes(r, t), p);
    } else { FilterAll(rs, p); }
  }

  /**
   * The chain of comprehensions keeps exactly the recipes that pass all
   * given filters, in load order: it is one filter by `Matches`.
   */
  lemma SearchIsConjunction(rs: seq<Recipe>, f: SearchFilters, m: Recipe -> bool)
    requires forall r :: m(r) == Matches(r, f)
    ensures Search(rs, f) == Filter(rs, m)
  {
    var p1 := (r: Recipe) => DietOk(r, f);
    var q2 := (r: Recipe) => MealTypeOk(r, f);
    var q3 := (r: Recipe) => NameOk(r, f);
    var q4 := (r: Recipe) => IncludesOk(r, f);
    var q5 := (r: Recipe) => ExcludesOk(r, f);
    var p2 := (r: Recipe) => DietOk(r, f) && MealTypeOk(r, f);
    var p3 := (r: Recipe) => DietOk(r, f) && MealTypeOk(r, f) && NameOk(r, f);
    var p4 := (r: Recipe) => DietOk(r, f) && MealTypeOk(r, f) && NameOk(r, f) && IncludesOk(r, f);
    var a := DietStep(rs, f);
    DietStepIsFilter(rs, f, p1);
    var b := MealTypeStep(a, f);
    MealTypeStepIsFilter(a, f, q2);
    FilterFilter(rs, p1, q2, p2);
    var c := NameStep(b, f);
    NameStepIsFilter(b, f, q3);
    FilterFilter(rs, p2, q3, p3);
    var d := IncludesStep(c, f);
    IncludesStepIsFilter(c, f, q4);
    FilterFilter(rs, p3, q4, p4);
    ExcludesStepIsFilter(d, f, q5);
    FilterFilter(rs, p4, q5, m);
  }

  /** A recipe is in the search result exactly when it is loaded and matches every given filter. */
  lemma SearchMembership(rs: seq<Recipe>, f: SearchFilters, x: Recipe)
    ensures x in Search(rs, f) <==> x in rs && Matches(x, f)
  {
    SearchIsConjunction(rs, f, r => Matches(r, f));
  }

  /** The search result is an order-preserving subsequence of the recipes. */
  lemma SearchIsSubsequence(rs: seq<Recipe>, f: SearchFilters)
    ensures IsSubsequence(Search(rs, f), rs)
  {
    var m := (r: Recipe) => Matches(r, f);
    SearchIsConjunction(rs, f, m);
    FilterIsSubsequence(rs, m);
  }

  /** Without any given filter the search returns all recipes in load order. */
  lemma SearchWithoutFilters(rs: seq<Recipe>, f: SearchFilters)
    requires NoFilters(f)
    ensures Search(rs, f) == rs
  {
  }

  /** The order in which two filters are applied does not matter. */
  lemma FiltersCommute(rs: seq<Recipe>, p: Recipe -> bool, q: Recipe -> bool)
    ensures Filter(Filter(rs, p), q) == Filter(Filter(rs, q), p)
  {
    var pq := (x: Recipe) => p(x) && q(x);
    FilterFilter(rs, p, q, pq);
    FilterFilter(rs, q, p, pq);
  }

  /** Under include or exclude filters a recipe without ingredients is never returned, even when every term is blank. */
  lemma IngredientlessDropped(rs: seq<Recipe>, f: SearchFilters, x: Recipe)
    requires Given(f.includesIngredients) || Given(f.excludesIngredients)
    requires x.ingredients == []
    ensures x !in Search(rs, f)
  {
    SearchMembership(rs, f, x);
  }

  /** The first recipe, in load order, whose name equals `name` exactly. */
  function FindByName(rs: seq<Recipe>, name: string): (r: Option<Recipe>)
    ensures r.None? <==> forall k :: 0 <= k < |rs| ==> rs[k].name != name
    ensures r.Some? ==> exists k :: 0 <= k < |rs| && rs[k] == r.value && r.value.name == name
                                    && forall j :: 0 <= j < k ==> rs[j].name != name
  {
    if rs == [] then None
    else if rs[0].name == name then Some(rs[0])
    else
      var r := FindByName(rs[1..], name);
      assert forall k :: 1 <= k < |rs| ==> rs[k] == rs[1..][k - 1];
      if r.Some? then
        var k :| 0 <= k < |rs| - 1 && rs[1..][k] == r.value && r.value.name == name
                 && forall j :: 0 <= j < k ==> rs[1..][j].name != name;
        assert forall j :: 0 <= j < k + 1 ==> rs[j].name != name by {
          forall j | 0 <= j < k + 1 ensures rs[j].name != name {
            if j > 0 { assert rs[j] == rs[1..][j - 1]; }
          }
        }
        assert rs[k + 1] == r.value;
        r
      else r
  }

  /** The label fields whose values the servers cache. */
  datatype Field = Ingredients | Diet | MealType

  function FieldOf(r: Recipe, f: Field): seq<string>
  {
    match f
    case Ingredients => r.ingredients
    case Diet => r.diet
    case MealType => r.mealType
  }

  /** The distinct elements of a list. */
  function Elements(s: seq<string>): set<string>
  {
    set x | x in s
  }

  /** The union of one label field over the recipes: what the caches must hold. */
  function Labels(rs: seq<Recipe>, f: Field): set<string>
  {
    if rs == [] then {} else Labels(rs[..|rs| - 1], f) + Elements(FieldOf(rs[|rs| - 1], f))
  }

  /** A label is in the union exactly when some recipe carries it. */
  lemma {:induction false} LabelsMembership(rs: seq<Recipe>, f: Field, x: string)
    ensures x in Labels(rs, f) <==> exists k :: 0 <= k < |rs| && x in FieldOf(rs[k], f)
  {
    if rs != [] {
      var init := rs[..|rs| - 1];
      LabelsMembership(init, f, x);
      assert forall k :: 0 <= k < |init| ==> init[k] == rs[k];
      if x in Labels(rs, f) && x !in Labels(init, f) {
        assert x in FieldOf(rs[|rs| - 1], f);
      }
    }
  }

  /**
   * Adds one recipe's labels to a cache exactly as the cache loops do: only
   * when the field is non-empty, by `set.update`.
   */
  function AddLabels(cache: set<string>, r: Recipe, f: Field): set<string>
  {
    if |FieldOf(r, f)| > 0 then cache + Elements(FieldOf(r, f)) else cache
  }

  /** One step of a cache loop keeps the cache equal to the union over the recipes seen so far. */
  lemma LabelsStep(rs: seq<Recipe>, i: nat, f: Field)
    requires i < |rs|
    ensures AddLabels(Labels(rs[..i], f), rs[i], f) == Labels(rs[..i + 1], f)
  {
    assert rs[..i + 1][..i] == rs[..i];
  }

  /** A cache with its count and sorted contents, as the `get_all_*` endpoints return it. */
  datatype Listing = Listing(count: nat, items: seq<string>)

  /** `{"count": len(cache), "...": sorted(cache)}`. */
  function ListLabels(cache: set<string>): (r: Listing)
    ensures r.count == |r.items|
    ensures StrictlySorted(r.items)
    ensures forall x :: x in r.items <==> x in cache
  {
    Listing(|cache|, SortSet(cache))
  }

  /** `r` lists, counted and in ascending order, the union of field `f` over the recipes. */
  ghost predicate ListsUnion(r: Listing, rs: seq<Recipe>, f: Field)
  {
    r.count == |r.items| && StrictlySorted(r.items)
    && forall x :: x in r.items <==> exists k :: 0 <= k < |rs| && x in FieldOf(rs[k], f)
  }

  /** Listing a cache that holds the union of a field lists exactly that union. */
  lemma ListingOfUnion(rs: seq<Recipe>, f: Field)
    ensures ListsUnion(ListLabels(Labels(rs, f)), rs, f)
  {
    forall x { LabelsMembership(rs, f, x); }
  }

  /** A two-recipe catalog: a vegetarian soup and a goulash. */
  function SoupAndGoulash(): seq<Recipe>
  {
    [ Recipe("1", "Bramborová polévka", ["Brambory", "Cibule"], "", ["vegetarian"], ["polévka"]),
      Recipe("2", "Guláš", ["Hovězí", "Cibule"], "", [], ["hlavní chod"]) ]
  }

  function OnlyFilter(diet: Option<string>, includes: Option<string>, excludes: Option<string>): SearchFilters
  {
    SearchFilters(diet, None, None, includes, excludes)
  }

  /** A word without commas, outer whitespace or capitals is a single term. */
  lemma PlainTerm(w: string)
    requires ',' !in w && w != [] && !IsSpace(w[0]) && !IsSpace(w[|w| - 1]) && Lower(w) == w
    ensures Terms(w) == [w]
  {
    SingleTerm(w);
    StripUnchanged(w);
  }

  /** A term whose first character is nowhere in `s` does not occur in `s`. */
  lemma {:induction false} FirstCharAbsent(s: string, t: string)
    requires t != [] && t[0] !in s
    ensures !Contains(s, t)
    decreases |s|
  {
    if s != [] {
      assert s[0] != t[0];
      FirstCharAbsent(s[1..], t);
    }
  }

  /** Two-element filtering, spelled out. */
  lemma FilterPair(a: Recipe, b: Recipe, p: Recipe -> bool)
    ensures Filter([a, b], p) == (if p(a) then [a] else []) + (if p(b) then [b] else [])
  {
    assert [a, b][1..] == [b];
    assert [b][1..] == [];
  }

  /** A plain word: no comma, no outer whitespace, already lower case. */
  predicate PlainWord(w: string)
  {
    ',' !in w && w != [] && !IsSpace(w[0]) && !IsSpace(w[|w| - 1]) && Lower(w) == w
  }

  /** Searching two recipes keeps each of them exactly when it matches. */
  lemma SearchPair(a: Recipe, b: Recipe, f: SearchFilters)
    ensures Search([a, b], f) == (if Matches(a, f) then [a] else []) + (if Matches(b, f) then [b] else [])
  {
    var m := (r: Recipe) => Matches(r, f);
    SearchIsConjunction([a, b], f, m);
    FilterPair(a, b, m);
  }

  /** Filtering two recipes by a diet label keeps the labelled one and drops the unlabelled one. */
  lemma DietKeepsLabelled(a: Recipe, b: Recipe, d: string)
    requires d in a.diet && b.diet == []
    requires d != ""
    ensures Search([a, b], OnlyFilter(Some(d), None, None)) == [a]
  {
    SearchPair(a, b, OnlyFilter(Some(d), None, None));
  }

  /** A recipe with an ingredient containing a plain word passes the include filter on that word. */
  lemma IncludeMatches(r: Recipe, w: string, x: string)
    requires PlainWord(w)
    requires x in r.ingredients && Contains(Lower(x), w)
    ensures Matches(r, OnlyFilter(None, Some(w), None))
  {
    PlainTerm(w);
    assert HasIngredient(r, w);
  }

  /** An ingredient both recipes contain keeps both of them. */
  lemma IncludeKeepsBoth(a: Recipe, b: Recipe, w: string, x: string, y: string)
    requires PlainWord(w)
    requires x in a.ingredients && Contains(Lower(x), w)
    requires y in b.ingredients && Contains(Lower(y), w)
    ensures Search([a, b], OnlyFilter(None, Some(w), None)) == [a, b]
  {
    IncludeMatches(a, w, x);
    IncludeMatches(b, w, y);
    SearchPair(a, b, OnlyFilter(None, Some(w), None));
  }

  /** Under an exclude filter on a plain word, a recipe passes exactly when it has ingredients and none contains the word. */
  lemma ExcludeMatches(r: Recipe, w: string)
    requires PlainWord(w)
    ensures Matches(r, OnlyFilter(None, None, Some(w))) <==> r.ingredients != [] && !HasIngredient(r, w)
  {
    PlainTerm(w);
  }

  /** Excluding an ingredient only the second recipe contains keeps only the first. */
  lemma ExcludeDropsOne(a: Recipe, b: Recipe, w: string, y: string)
    requires PlainWord(w) && a.ingredients != []
    requires forall x :: x in a.ingredients ==> !Contains(Lower(x), w)
    requires y in b.ingredients && Contains(Lower(y), w)
    ensures Search([a, b], OnlyFilter(None, None, Some(w))) == [a]
  {
    ExcludeMatches(a, w);
    ExcludeMatches(b, w);
    assert HasIngredient(b, w);
    SearchPair(a, b, OnlyFilter(None, None, Some(w)));
  }

  /** Including "cibule" keeps both recipes of this catalog. */
  lemma IncludeOnionScenario()
    ensures Search(SoupAndGoulash(), OnlyFilter(None, Some("cibule"), None)) == SoupAndGoulash()
  {
    var rs := SoupAndGoulash();
    OnionIsPlain();
    assert rs == [rs[0], rs[1]];
    IncludeKeepsBoth(rs[0], rs[1], "cibule", "Cibule", "Cibule");
  }

  /** "cibule" is a plain word, and the lowered "Cibule" contains it. */
  lemma OnionIsPlain()
    ensures PlainWord("cibule") && Contains(Lower("Cibule"), "cibule")
  {
    assert Lower("Cibule") == "cibule" && IsPrefix("cibule", "cibule");
  }

  /** The diet "vegetarian" keeps only the soup: the goulash has no diet label. */
  lemma VegetarianScenario()
    ensures Search(SoupAndGoulash(), OnlyFilter(Some("vegetarian"), None, None)) == [SoupAndGoulash()[0]]
  {
    var rs := SoupAndGoulash();
    assert rs == [rs[0], rs[1]];
    DietKeepsLabelled(rs[0], rs[1], "vegetarian");
  }

  /** Only a lower-case ASCII letter and its capital lower to that letter. */
  lemma LowerToAscii(d: char, c: char)
    requires 'a' <= c <= 'z' && LowerChar(d) == c
    ensures d == c || d as int == c as int - 32
  {
  }

  /**
   * A term starting with a lower-case ASCII letter does not occur in the
   * lowered text when neither that letter nor its capital occurs in it.
   */
  lemma LetterAbsent(x: string, t: string)
    requires t != [] && 'a' <= t[0] <= 'z'
    requires t[0] !in x && (t[0] as int - 32) as char !in x
    ensures !Contains(Lower(x), t)
  {
    forall k | 0 <= k < |x| ensures Lower(x)[k] != t[0] {
      if Lower(x)[k] == t[0] { LowerToAscii(x[k], t[0]); }
    }
    FirstCharAbsent(Lower(x), t);
  }

  /** No lowered ingredient of the soup contains "hovězí". */
  lemma SoupLacksBeef(soup: Recipe)
    requires soup.ingredients == ["Brambory", "Cibule"]
    ensures forall x :: x in soup.ingredients ==> !Contains(Lower(x), "hovězí")
  {
    forall x | x in soup.ingredients ensures !Contains(Lower(x), "hovězí") {
      assert x == "Brambory" || x == "Cibule";
      LetterAbsent(x, "hovězí");
    }
  }

  /** The goulash's lowered "Hovězí" contains "hovězí", a plain word. */
  lemma GoulashHasBeef()
    ensures PlainWord("hovězí") && Contains(Lower("Hovězí"), "hovězí")
  {
    assert Lower("Hovězí") == "hovězí" && IsPrefix("hovězí", "hovězí");
  }

  /** Excluding "hovězí" keeps only the soup. */
  lemma ExcludeBeefScenario()
    ensures Search(SoupAndGoulash(), OnlyFilter(None, None, Some("hovězí"))) == [SoupAndGoulash()[0]]
  {
    var rs := SoupAndGoulash();
    GoulashHasBeef();
    SoupLacksBeef(rs[0]);
    assert rs == [rs[0], rs[1]];
    ExcludeDropsOne(rs[0], rs[1], "hovězí", "Hovězí");
  }
}
