/**
 * The older list-backed shopping list: entries are stripped and appended, so
 * duplicates are kept in insertion order, and `get_list` hands out the
 * manager's own list object rather than a copy.
 */
module ListShoppingList {
  import opened Json
  import opened Strings

  /** A mutable Python list of strings; shared by every reference to it. */
  class PyList {
    var items: seq<string>

    constructor()
      ensures items == []
    {
      items := [];
    }

    /** `list.append(x)`. */
    method Append(x: string)
      modifies this
      ensures items == old(items) + [x]
    {
      items := items + [x];
    }
  }

  class ShoppingListManager {
    var shoppingList: PyList

    constructor()
      ensures fresh(shoppingList) && shoppingList.items == []
    {
      shoppingList := new PyList();
    }

    /**
     * `add_ingredient`: a non-empty string is stripped and appended to the list
     * object in place (the manager keeps the same object); anything else is
     * refused and nothing changes.
     */
    method AddIngredient(ingredient: Json) returns (added: bool)
      modifies shoppingList
      ensures added == NonEmptyString(ingredient)
      ensures shoppingList == old(shoppingList)
      ensures shoppingList.items ==
        if added then old(shoppingList.items) + [Strip(ingredient.s)] else old(shoppingList.items)
    {
      if NonEmptyString(ingredient) {
        shoppingList.Append(Strip(ingredient.s));
        return true;
      }
      return false;
    }

    /** `get_list`: the manager's own list object, not a copy. */
    method GetList() returns (r: PyList)
      ensures r == shoppingList
    {
      r := shoppingList;
    }

    /** `clear_list`: the manager is rebound to a new empty list; the old object is left as it was. */
    method ClearList()
      modifies this
      ensures fresh(shoppingList) && shoppingList.items == []
    {
      shoppingList := new PyList();
    }
  }

  /**
   * A caller that keeps the list returned by `get_list`: later adds show up
   * in it, duplicates included, and a later clear does not empty it.
   */
  method AliasingScenario(a: string, b: string)
    returns (seenAfterAdd: seq<string>, seenAfterClear: seq<string>, current: seq<string>)
    requires a != "" && b != ""
    ensures seenAfterAdd == [Strip(a), Strip(b), Strip(a)]
    ensures seenAfterClear == [Strip(a), Strip(b), Strip(a)]
    ensures current == []
  {
    var sa, sb := Strip(a), Strip(b);
    var m := new ShoppingListManager();
    var ok := m.AddIngredient(JString(a));
    assert m.shoppingList.items == [sa];
    var held := m.GetList();
    ok := m.AddIngredient(JString(b));
    assert held.items == [sa, sb];
    ok := m.AddIngredient(JString(a));
    assert held.items == [sa, sb, sa];
    seenAfterAdd := held.items;
    m.ClearList();
    seenAfterClear := held.items;
    current := m.shoppingList.items;
  }
}
