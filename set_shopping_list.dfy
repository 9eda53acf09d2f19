/**
 * The set-backed manager class each server instantiates: entries are stripped on
 * insertion, kept without duplicates and listed in ascending order.
 */
module SetShoppingList {
  import opened Json
  import opened Strings
  import opened Ordering

  /** What `add_ingredient` does to the contents: insert the stripped string, or nothing. */
  function Added(s: set<string>, x: Json): set<string>
  {
    if NonEmptyString(x) then s + {Strip(x.s)} else s
  }

  /** The contents after adding the elements of `items` one by one. */
  function AddedAll(s: set<string>, items: seq<Json>): set<string>
  {
    if items == [] then s else Added(AddedAll(s, items[..|items| - 1]), items[|items| - 1])
  }

  /** Adding a list inserts exactly the stripped non-empty strings among its elements. */
  lemma {:induction false} AddedAllMembership(s: set<string>, items: seq<Json>, x: string)
    ensures x in AddedAll(s, items) <==>
      x in s || exists j :: 0 <= j < |items| && NonEmptyString(items[j]) && x == Strip(items[j].s)
  {
    if items != [] {
      var init := items[..|items| - 1];
      AddedAllMembership(s, init, x);
      assert forall j :: 0 <= j < |init| ==> init[j] == items[j];
      if x in AddedAll(s, items) && x !in AddedAll(s, init) && x !in s {
        assert NonEmptyString(items[|items| - 1]);
      }
    }
  }

  /**
   * What the `discard` loop of `remove_ingredients` does to the contents: the
   * strings among the elements before the first unhashable one are removed.
   */
  function Discarded(s: set<string>, items: seq<Json>): set<string>
  {
    s - StringSet(items[..HashablePrefix(items)])
  }

  /** What a call of `remove_ingredients` returns: `True`, `False`, or the exception it raises. */
  datatype Outcome = Returned(b: bool) | Raised

  class ShoppingListManager {
    var shoppingList: set<string>

    constructor()
      ensures shoppingList == {}
    {
      shoppingList := {};
    }

    /** `add_ingredient`: true (and an insertion) exactly for a non-empty string. */
    method AddIngredient(ingredient: Json) returns (added: bool)
      modifies this
      ensures added == NonEmptyString(ingredient)
      ensures shoppingList == Added(old(shoppingList), ingredient)
    {
      if NonEmptyString(ingredient) {
        shoppingList := shoppingList + {Strip(ingredient.s)};
        return true;
      }
      return false;
    }

    /** `get_list`: the contents in ascending order, each once; the contents are not changed. */
    method GetList() returns (r: seq<string>)
      ensures StrictlySorted(r)
      ensures forall x :: x in r <==> x in shoppingList
      ensures |r| == |shoppingList|
    {
      r := SortSet(shoppingList);
    }

    /** `clear_list`: the contents become empty. */
    method ClearList()
      modifies this
      ensures shoppingList == {}
    {
      shoppingList := {};
    }

    /**
     * `remove_ingredients`: `False` for a non-list; otherwise each element is
     * discarded in turn, absent ones silently, until an unhashable element makes
     * `discard` raise; the elements already handled stay removed.
     */
    method RemoveIngredients(ingredients: Json) returns (r: Outcome)
      modifies this
      ensures !ingredients.JArray? ==> r == Returned(false) && shoppingList == old(shoppingList)
      ensures ingredients.JArray? ==>
        shoppingList == Discarded(old(shoppingList), ingredients.items)
        && r == (if HashablePrefix(ingredients.items) == |ingredients.items| then Returned(true) else Raised)
    {
      if !ingredients.JArray? {
        return Returned(false);
      }
      var items := ingredients.items;
      var k := HashablePrefix(items);
      var i := 0;
      while i < |items|
        invariant 0 <= i <= k
        invariant shoppingList == old(shoppingList) - StringSet(items[..i])
      {
        if !Hashable(items[i]) {
          return Raised;
        }
        assert items[..i + 1] == items[..i] + [items[i]];
        if items[i].JString? {
          shoppingList := shoppingList - {items[i].s};
        }
        i := i + 1;
      }
      assert items[..i] == items;
      return Returned(true);
    }
  }

  /** The hashable prefix of a list of strings is the whole list, so every string is discarded. */
  lemma DiscardStrings(s: set<string>, items: seq<Json>)
    requires forall j :: 0 <= j < |items| ==> items[j].JString?
    ensures forall x :: x in Discarded(s, items) <==> x in s && JString(x) !in items
  {
    assert HashablePrefix(items) == |items|;
    assert items[..|items|] == items;
  }

  /** Adding is idempotent, and a second add with the same text after stripping changes nothing. */
  lemma AddSameAfterStrip(s: set<string>, a: string, b: string)
    requires a != "" && b != "" && Strip(a) == Strip(b)
    ensures Added(Added(s, JString(a)), JString(b)) == Added(s, JString(a))
  {
  }

  /** A whitespace-only string passes the truthiness test and inserts the empty string. */
  lemma BlankInsertsEmpty(s: set<string>, w: string)
    requires w != "" && AllSpace(w)
    ensures Added(s, JString(w)) == s + {""}
  {
  }

  /** Empty strings and values that are not strings leave the contents as they are. */
  lemma RejectedLeavesUnchanged(s: set<string>, x: Json)
    requires !x.JString? || x.s == ""
    ensures Added(s, x) == s
  {
  }

  /** Removing strings none of which is present changes nothing. */
  lemma RemoveAbsentIsNoOp(s: set<string>, items: seq<Json>)
    requires forall x :: JString(x) in items ==> x !in s
    ensures Discarded(s, items) == s
  {
    var k := HashablePrefix(items);
    forall x | x in StringSet(items[..k]) ensures x !in s {
      assert JString(x) in items[..k];
    }
  }

  /** Removals take exactly the given strings: untrimmed, so " Máslo" does not remove "Máslo". */
  lemma RemovalIsExact(s: set<string>, items: seq<Json>, x: string)
    requires forall j :: 0 <= j < |items| ==> items[j].JString?
    requires x in s && JString(x) !in items
    ensures x in Discarded(s, items)
  {
    DiscardStrings(s, items);
  }

  /** "Mléko " and then "Mléko" leave one entry. */
  lemma MilkOnce()
    ensures Added(Added({}, JString("Mléko ")), JString("Mléko")) == {"Mléko"}
  {
    StripUnique("Mléko ", 0, 5);
    StripUnchanged("Mléko");
    assert "Mléko "[0..5] == "Mléko";
  }

  /** Removing Cibule, Máslo and an absent item from four entries leaves Mléko and Chléb. */
  lemma RemovalScenario()
    ensures Discarded({"Mléko", "Cibule", "Chléb", "Máslo"},
                      [JString("Cibule"), JString("Máslo"), JString("Neexistuje")])
            == {"Mléko", "Chléb"}
  {
    var items := [JString("Cibule"), JString("Máslo"), JString("Neexistuje")];
    DiscardStrings({"Mléko", "Cibule", "Chléb", "Máslo"}, items);
  }

  /** The three entries are listed as Chléb, Cibule, Mléko. */
  lemma ListScenario(r: seq<string>)
    requires StrictlySorted(r) && forall x :: x in r <==> x in {"Mléko", "Cibule", "Chléb"}
    ensures r == ["Chléb", "Cibule", "Mléko"]
  {
    var sorted := ["Chléb", "Cibule", "Mléko"];
    assert LexLt("Chléb", "Cibule") by { assert "Chléb"[1] < "Cibule"[1]; }
    assert LexLt("Cibule", "Mléko");
    assert LexLt("Chléb", "Mléko");
    assert StrictlySorted(sorted);
    StrictlySortedUnique(r, sorted);
  }
}
