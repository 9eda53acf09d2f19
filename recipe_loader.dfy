/**
 * The CSV loader: each row becomes one record in row order, its
 * `ingredients` column split on commas with every piece stripped, the other
 * columns kept as the raw text. Any failure gives an empty result.
 */
module RecipeLoader {
  import opened Wrappers
  import opened Strings

  /**
   * A CSV row as the dictionary reader yields it: column name to cell text;
   * `None` is the reader's filler for a column missing from a short row.
   */
  type Row = map<string, Option<string>>

  /** A cell of a loaded record: raw text (or the filler), or the list made from the ingredients text. */
  datatype Cell = Text(text: Option<string>) | Pieces(pieces: seq<string>)

  /** The column the loader converts. */
  const IngredientsKey: string := "ingredients"

  /** `[i.strip() for i in pieces]`. */
  function StripEach(pieces: seq<string>): (r: seq<string>)
    ensures |r| == |pieces|
    ensures forall k :: 0 <= k < |pieces| ==> r[k] == Strip(pieces[k])
  {
    if pieces == [] then [] else [Strip(pieces[0])] + StripEach(pieces[1..])
  }

  /** `[i.strip() for i in text.split(',')]`: the ingredient list made from one cell. */
  function IngredientList(text: string): (r: seq<string>)
  {
    StripEach(Split(text, ','))
  }

  /** The list has one entry per comma plus one: empty pieces are kept. */
  lemma IngredientListLength(text: string)
    ensures |IngredientList(text)| == Occurrences(text, ',') + 1
  {
    SplitCount(text, ',');
  }

  /** An empty cell gives a list holding one empty string. */
  lemma EmptyCellGivesOneEmptyPiece()
    ensures IngredientList("") == [""]
  {
    StripUnchanged("");
  }

  /** No entry contains a comma, and none starts or ends with whitespace. */
  lemma IngredientListEntries(text: string)
    ensures forall k :: 0 <= k < |IngredientList(text)| ==>
      var e := IngredientList(text)[k];
      ',' !in e && (e == [] || (!IsSpace(e[0]) && !IsSpace(e[|e| - 1])))
  {
    StrippedPieces(Split(text, ','), IngredientList(text));
  }

  /** Stripping comma-free pieces gives comma-free entries without outer whitespace. */
  lemma StrippedPieces(pieces: seq<string>, r: seq<string>)
    requires forall k :: 0 <= k < |pieces| ==> ',' !in pieces[k]
    requires |r| == |pieces| && forall k :: 0 <= k < |pieces| ==> r[k] == Strip(pieces[k])
    ensures forall k :: 0 <= k < |r| ==> ',' !in r[k] && (r[k] == [] || (!IsSpace(r[k][0]) && !IsSpace(r[k][|r[k]| - 1])))
  {
    forall k | 0 <= k < |pieces| ensures ',' !in r[k] {
      StripKeepsAbsent(pieces[k], ',');
    }
  }

  /** A row can be converted when its ingredients column, if any, holds text rather than the filler. */
  predicate Convertible(row: Row)
  {
    IngredientsKey in row ==> row[IngredientsKey].Some?
  }

  /** The per-row transform: the same columns, only `ingredients` replaced by its list. */
  function ConvertRow(row: Row): (r: map<string, Cell>)
    requires Convertible(row)
    ensures r.Keys == row.Keys
    ensures forall c :: c in row && c != IngredientsKey ==> r[c] == Text(row[c])
    ensures IngredientsKey in row ==> r[IngredientsKey] == Pieces(IngredientList(row[IngredientsKey].value))
  {
    map c | c in row :: if c == IngredientsKey then Pieces(IngredientList(row[c].value)) else Text(row[c])
  }

  /**
   * `load_recipes`: `None` stands for a file that cannot be opened or read.
   * Splitting the filler raises inside the `try`, so a non-convertible row
   * also gives `[]`: never a partial list.
   */
  method LoadRecipes(source: Option<seq<Row>>) returns (recipes: seq<map<string, Cell>>)
    ensures source.None? ==> recipes == []
    ensures source.Some? && (exists k :: 0 <= k < |source.value| && !Convertible(source.value[k])) ==> recipes == []
    ensures source.Some? && (forall k :: 0 <= k < |source.value| ==> Convertible(source.value[k])) ==>
      |recipes| == |source.value|
      && forall k :: 0 <= k < |recipes| ==> recipes[k] == ConvertRow(source.value[k])
  {
    if source.None? {
      return [];
    }
    var rows := source.value;
    recipes := [];
    var i := 0;
    while i < |rows|
      invariant 0 <= i <= |rows|
      invariant forall k :: 0 <= k < i ==> Convertible(rows[k])
      invariant |recipes| == i
      invariant forall k :: 0 <= k < i ==> recipes[k] == ConvertRow(rows[k])
    {
      if !Convertible(rows[i]) {
        return [];
      }
      recipes := recipes + [ConvertRow(rows[i])];
      i := i + 1;
    }
  }
}
