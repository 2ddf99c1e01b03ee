/**
 * The menu provider: the process-wide dish list that the screens read through
 * the context. The value it places in context offers the list and `addDish`
 * only; its own state setter stays inside the provider.
 */
module MenuContext {
  import opened Dishes

  /** What `useMenu()` returns: the list and the names of the members beside it. */
  datatype ContextValue = ContextValue(dishes: seq<Dish>, members: set<string>)

  class MenuProvider {
    var dishes: seq<Dish>

    /** The provider mounts with no dishes. */
    constructor ()
      ensures dishes == []
    {
      dishes := [];
    }

    /** `addDish`: the functional update `prev => [...prev, dish]`. */
    method AddDish(dish: Dish)
      modifies this
      ensures dishes == old(dishes) + [dish]
      ensures |dishes| == |old(dishes)| + 1 && dishes[|dishes| - 1] == dish
      ensures forall i :: 0 <= i < |old(dishes)| ==> dishes[i] == old(dishes)[i]
    {
      dishes := dishes + [dish];
    }

    /** The provider's own `setDishes` from `useState`: the list is replaced. */
    method SetDishes(list: seq<Dish>)
      modifies this
      ensures dishes == list
    {
      dishes := list;
    }

    /** The context value `{ dishes, addDish }`: the current list, and no `setDishes`. */
    function Value(): (v: ContextValue)
      reads this
      ensures v.dishes == dishes
      ensures "addDish" in v.members && "setDishes" !in v.members
    {
      ContextValue(dishes, {"dishes", "addDish"})
    }

    /** The value the chef's screen expects: `{ dishes, addDish, setDishes }`. */
    function ValueWithSetDishes(): (v: ContextValue)
      reads this
      ensures v.dishes == dishes
      ensures "addDish" in v.members && "setDishes" in v.members
    {
      ContextValue(dishes, {"dishes", "addDish", "setDishes"})
    }
  }

  /** A freshly mounted provider lists the dishes it is given in the order they were added. */
  method AddTwo(a: Dish, b: Dish) returns (list: seq<Dish>)
    ensures list == [a, b]
  {
    var provider := new MenuProvider();
    provider.AddDish(a);
    provider.AddDish(b);
    list := provider.dishes;
  }
}
