/**
 * The data preparation of the vector-store loader: one id, one document text
 * and one metadata record per CSV row, in row order, then the index ranges of
 * the batches of at most 50 rows in which they are added.
 */
module ChromaLoader {
  import opened Strings

  /** A CSV row of the recipe file; every column is raw text. */
  datatype CsvRecipe = CsvRecipe(
    id: string,
    name: string,
    ingredients: string,
    diet: string,
    mealType: string,
    steps: string)

  /** The metadata stored beside each document. */
  datatype Metadata = Metadata(
    name: string,
    dietString: string,
    mealTypeString: string,
    ingredientsString: string,
    stepsPreview: string,
    primaryDiet: string,
    primaryMealType: string,
    ingredientCount: nat)

  /** The number of characters kept of the cooking steps. */
  const PreviewLength: nat := 200

  /** `steps[:200] if steps else ''`. */
  function StepsPreview(steps: string): (p: string)
    ensures |p| == (if |steps| < PreviewLength then |steps| else PreviewLength)
    ensures p == steps[..|p|]
  {
    if steps == "" then "" else if |steps| < PreviewLength then steps else steps[..PreviewLength]
  }

  /** `s.split(',')[0].strip() if s else ''`: the first comma-separated label. */
  function PrimaryLabel(s: string): (r: string)
    ensures ',' !in r
    ensures r == [] || (!IsSpace(r[0]) && !IsSpace(r[|r| - 1]))
  {
    if s == "" then ""
    else
      var first := Split(s, ',')[0];
      StripKeepsAbsent(first, ',');
      Strip(first)
  }

  /** A label without commas is its own primary label, stripped. */
  lemma PrimaryLabelOfSingle(s: string)
    requires ',' !in s
    ensures PrimaryLabel(s) == Strip(s)
  {
    if s != "" { SplitNoSeparator(s, ','); }
  }

  /** The first label is the text before the first comma, stripped. */
  lemma {:induction false} PrimaryLabelBeforeComma(a: string, b: string)
    requires ',' !in a
    ensures PrimaryLabel(a + "," + b) == Strip(a)
  {
    assert (a + "," + b)[|a|] == ',';
    FirstPiece(a, b);
  }

  /** Splitting `a + "," + b` yields `a` first when `a` has no comma. */
  lemma {:induction false} FirstPiece(a: string, b: string)
    requires ',' !in a
    ensures Split(a + "," + b, ',')[0] == a
  {
    if a == [] {
      assert (a + "," + b)[0] == ',';
    } else {
      assert (a + "," + b)[1..] == a[1..] + "," + b;
      FirstPiece(a[1..], b);
      assert [a[0]] + a[1..] == a;
    }
  }

  /** `len([i.strip() for i in ingredients.split(',')]) if ingredients else 0`. */
  function IngredientCount(ingredients: string): (n: nat)
    ensures ingredients == "" <==> n == 0
    ensures ingredients != "" ==> n == Occurrences(ingredients, ',') + 1
  {
    SplitCount(ingredients, ',');
    if ingredients == "" then 0 else |Split(ingredients, ',')|
  }

  /** The metadata record of one row; the `x if x else ''` fields are the text itself. */
  function MetadataOf(r: CsvRecipe): Metadata
  {
    Metadata(r.name, r.diet, r.mealType, r.ingredients, StepsPreview(r.steps),
             PrimaryLabel(r.diet), PrimaryLabel(r.mealType), IngredientCount(r.ingredients))
  }

  /** The indentation the document template puts before each line. */
  const Indent: string := "\n        "

  /** The five lines of the document, "Recipe: " to "Cooking Steps: ", up to the steps text. */
  function Heading(r: CsvRecipe): string
  {
    "Recipe: " + r.name
    + Indent + "Ingredients: " + r.ingredients
    + Indent + "Diet: " + r.diet
    + Indent + "Meal Type: " + r.mealType
    + Indent + "Cooking Steps: "
  }

  /** The five lines, ending with the steps text. */
  function Lines(r: CsvRecipe): string
  {
    Heading(r) + r.steps
  }

  /**
   * The document template with its fields filled in, before stripping: each
   * line follows a newline and eight spaces, and so does the closing quote.
   */
  function Template(r: CsvRecipe): string
  {
    Indent + Lines(r) + Indent
  }

  /** The text embedded for semantic search: the filled-in template, stripped. */
  function DocumentText(r: CsvRecipe): string
  {
    Strip(Template(r))
  }

  lemma IndentIsSpace()
    ensures AllSpace(Indent)
  {
    forall k | 0 <= k < |Indent| ensures IsSpace(Indent[k]) { }
  }

  /** The lines start with "Recipe: ", so with "R". */
  lemma HeadingStart(r: CsvRecipe)
    ensures |Heading(r)| >= 8 && Heading(r)[..8] == "Recipe: "
    ensures Heading(r)[0] == 'R'
  {
    var h := Heading(r);
    var rest := r.name + Indent + "Ingredients: " + r.ingredients + Indent + "Diet: " + r.diet
                + Indent + "Meal Type: " + r.mealType + Indent + "Cooking Steps: ";
    assert h == "Recipe: " + rest;
    assert ("Recipe: " + rest)[..8] == "Recipe: ";
  }

  /**
   * When the steps end in a character that is not whitespace, stripping
   * removes exactly the template's own leading and trailing indentation.
   */
  lemma DocumentTextIsLines(r: CsvRecipe)
    requires r.steps != "" && !IsSpace(r.steps[|r.steps| - 1])
    ensures DocumentText(r) == Lines(r)
  {
    var body := Lines(r);
    IndentIsSpace();
    HeadingStart(r);
    assert body[0] == 'R';
    assert body[|body| - 1] == r.steps[|r.steps| - 1];
    StripFramed(Indent, body, Indent);
  }

  /**
   * The loop over the rows: three lists built in step, each row contributing
   * one entry to each, in row order.
   */
  method Columns<R, A, B, C>(rows: seq<R>, f: R -> A, g: R -> B, h: R -> C)
    returns (firsts: seq<A>, seconds: seq<B>, thirds: seq<C>)
    ensures |firsts| == |seconds| == |thirds| == |rows|
    ensures forall k :: 0 <= k < |rows| ==>
      firsts[k] == f(rows[k]) && seconds[k] == g(rows[k]) && thirds[k] == h(rows[k])
  {
    firsts, seconds, thirds := [], [], [];
    var i := 0;
    while i < |rows|
      invariant 0 <= i <= |rows|
      invariant |firsts| == |seconds| == |thirds| == i
      invariant forall k :: 0 <= k < i ==>
        firsts[k] == f(rows[k]) && seconds[k] == g(rows[k]) && thirds[k] == h(rows[k])
    {
      firsts := firsts + [f(rows[i])];
      seconds := seconds + [g(rows[i])];
      thirds := thirds + [h(rows[i])];
      i := i + 1;
    }
  }

  /** The ids, documents and metadata records of the rows, one of each per row, in row order. */
  method BuildCollectionData(recipes: seq<CsvRecipe>)
    returns (ids: seq<string>, documents: seq<string>, metadatas: seq<Metadata>)
    ensures |ids| == |documents| == |metadatas| == |recipes|
    ensures forall k :: 0 <= k < |recipes| ==>
      ids[k] == recipes[k].id && documents[k] == DocumentText(recipes[k]) && metadatas[k] == MetadataOf(recipes[k])
  {
    ids, documents, metadatas := Columns(recipes, (r: CsvRecipe) => r.id, DocumentText, MetadataOf);
  }

  /** The number of rows added to the collection at once. */
  const BatchSize: nat := 50

  /** One batch: its 1-based number and the row range [start, end) it adds. */
  datatype Batch = Batch(num: nat, start: nat, end: nat)

  /** The batch ranges cover [0, n) in order, without gaps or overlaps, each holding 1 to 50 rows. */
  predicate Tiles(batches: seq<Batch>, n: nat)
  {
    (batches == [] <==> n == 0)
    && (batches != [] ==> batches[0].start == 0 && batches[|batches| - 1].end == n)
    && (forall k :: 0 <= k < |batches| ==> 0 < batches[k].end - batches[k].start <= BatchSize)
    && (forall k :: 0 <= k < |batches| - 1 ==> batches[k].end == batches[k + 1].start)
  }

  /**
   * `for i in range(0, n, 50)`: batch `k` has number `k + 1` and covers
   * [50k, min(50k + 50, n)); there are `ceil(n / 50)` of them, the
   * `total_batches` the loader announces.
   */
  method BatchRanges(n: nat) returns (batches: seq<Batch>)
    ensures |batches| == (n + BatchSize - 1) / BatchSize
    ensures forall k :: 0 <= k < |batches| ==>
      batches[k] == Batch(k + 1, BatchSize * k, if BatchSize * k + BatchSize < n then BatchSize * k + BatchSize else n)
    ensures Tiles(batches, n)
  {
    batches := [];
    var i := 0;
    while i < n
      invariant i == BatchSize * |batches|
      invariant i <= n || (n < i < n + BatchSize && |batches| > 0)
      invariant forall k :: 0 <= k < |batches| ==>
        batches[k] == Batch(k + 1, BatchSize * k, if BatchSize * k + BatchSize < n then BatchSize * k + BatchSize else n)
      decreases n - i
    {
      var batchEnd := if i + BatchSize < n then i + BatchSize else n;
      var batchNum := i / BatchSize + 1;
      batches := batches + [Batch(batchNum, i, batchEnd)];
      i := i + BatchSize;
    }
    assert (n + BatchSize - 1) / BatchSize == |batches|;
  }

  /** The rows of one batch: `xs[start:end]`. */
  function Rows<T>(xs: seq<T>, b: Batch): seq<T>
    requires b.start <= b.end <= |xs|
  {
    xs[b.start..b.end]
  }

  /** The rows of the batches, one batch after the other. */
  function Concat<T>(xs: seq<T>, batches: seq<Batch>): seq<T>
    requires forall k :: 0 <= k < |batches| ==> batches[k].start <= batches[k].end <= |xs|
  {
    if batches == [] then [] else Rows(xs, batches[0]) + Concat(xs, batches[1..])
  }

  /** Adding the batches one after the other adds every row exactly once, in order. */
  lemma {:induction false} BatchesCoverRows<T>(xs: seq<T>, batches: seq<Batch>, from: nat)
    requires batches != [] ==> batches[0].start == from && batches[|batches| - 1].end == |xs|
    requires batches == [] ==> from == |xs|
    requires forall k :: 0 <= k < |batches| ==> batches[k].start <= batches[k].end <= |xs|
    requires forall k :: 0 <= k < |batches| - 1 ==> batches[k].end == batches[k + 1].start
    ensures Concat(xs, batches) == xs[from..]
  {
    if batches != [] {
      BatchesCoverRows(xs, batches[1..], batches[0].end);
      assert xs[from..] == xs[from..batches[0].end] + xs[batches[0].end..];
    }
  }

  /** The batches of `BatchRanges(|xs|)` add all of `xs`. */
  lemma AllRowsAdded<T>(xs: seq<T>, batches: seq<Batch>)
    requires Tiles(batches, |xs|)
    ensures forall k :: 0 <= k < |batches| ==> batches[k].start <= batches[k].end <= |xs|
    ensures Concat(xs, batches) == xs
  {
    TilesBounded(batches, |xs|);
    BatchesCoverRows(xs, batches, 0);
  }

  /** Every range of a tiling lies inside [0, n). */
  lemma {:induction false} TilesBounded(batches: seq<Batch>, n: nat)
    requires Tiles(batches, n)
    ensures forall k :: 0 <= k < |batches| ==> batches[k].start <= batches[k].end <= n
  {
    if batches != [] {
      var last := |batches| - 1;
      forall k | 0 <= k < |batches| ensures batches[k].end <= n {
        var j := k;
        while j < last
          invariant k <= j <= last
          invariant batches[k].end <= batches[j].end
          decreases last - j
        {
          j := j + 1;
        }
      }
    }
  }
}
