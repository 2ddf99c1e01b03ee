/**
 * The chef's menu-management screen: a four-field form that adds a dish, and
 * per-dish Edit and Delete buttons. Each handler builds the new list purely,
 * then writes that one list to the context (global) list, to the screen's own
 * displayed list and to the store under the key "dishes".
 *
 * Delete, edit and load replace the context list through the `setDishes` the
 * screen takes from the context value. Whether that value holds `setDishes` is
 * fixed when the screen mounts; the provider's own value does not hold it (see
 * MenuContext), and then each of those calls throws before anything changes.
 */
module ChefsMenu {
  import opened Wrappers
  import opened Lists
  import opened Dishes
  import opened Storage
  import opened MenuContext

  const DishesKey: string := "dishes"

  /** `dishes.filter(dish => dish.id !== id)`. */
  function Without(dishes: seq<Dish>, id: string): (r: seq<Dish>)
    ensures forall d :: d in r <==> d in dishes && d.id != id
    ensures IsSubsequence(r, dishes)
    ensures forall d :: multiset(r)[d] == if d.id == id then 0 else multiset(dishes)[d]
    ensures (forall d :: d in dishes ==> d.id != id) ==> r == dishes
  {
    var keep := (d: Dish) => d.id != id;
    FilterIsSubsequence(dishes, keep);
    FilterCounts(dishes, keep);
    FilterKeepsAll(dishes, keep);
    Filter(dishes, keep)
  }

  /** `dishes.map(dish => dish.id === id ? { ...dish, ...patch } : dish)`. */
  function Edited(dishes: seq<Dish>, id: string, patch: DishPatch): (r: seq<Dish>)
    ensures |r| == |dishes|
    ensures forall i :: 0 <= i < |dishes| && dishes[i].id == id ==> r[i] == Overlay(dishes[i], patch)
    ensures forall i :: 0 <= i < |dishes| && dishes[i].id != id ==> r[i] == dishes[i]
  {
    Map(dishes, (d: Dish) => if d.id == id then Overlay(d, patch) else d)
  }

  /** An edit whose patch carries no id keeps every dish's id where it was. */
  lemma EditKeepsIds(dishes: seq<Dish>, id: string, patch: DishPatch)
    requires patch.id.None?
    ensures forall i :: 0 <= i < |dishes| ==> Edited(dishes, id, patch)[i].id == dishes[i].id
  {
  }

  /** An edit of an id no dish has changes nothing. */
  lemma EditUnknownId(dishes: seq<Dish>, id: string, patch: DishPatch)
    requires forall d :: d in dishes ==> d.id != id
    ensures Edited(dishes, id, patch) == dishes
  {
    assert forall i :: 0 <= i < |dishes| ==> dishes[i] in dishes;
  }

  /** The patch the Edit button sends: a marker after the name and after the description. */
  function EditButtonPatch(item: Dish): (patch: DishPatch)
    ensures Overlay(item, patch) == item.(name := item.name + " (Edited)", description := item.description + " (Updated)")
    ensures patch.id.None? && patch.category.None? && patch.price.None?
  {
    DishPatch(None, None, Some(item.name + " (Edited)"), Some(item.description + " (Updated)"), None)
  }

  /** How a handler ends. */
  datatype Effect =
    | Completed        // ran to the end
    | Uncaught         // threw a TypeError that no handler catches
    | Logged           // threw, and its own `catch` logged the error

  class ChefsMenuScreen {
    /** The provider whose list is the context list (`dishes` from `useMenu()`). */
    const menu: MenuProvider
    /** Whether the context value holds `setDishes`. */
    const hasSetDishes: bool
    /** The list the screen displays (`localDishes`). */
    var localDishes: seq<Dish>
    /** The form. */
    var selectedCategory: string
    var dishName: string
    var description: string
    var price: string
    /** The store entry under "dishes". */
    const store: StoredList<Dish>

    /**
     * Mounting: `useMenu()` yields the provider's `value`, from which the screen
     * destructures `setDishes`; the form is empty and the displayed list starts
     * empty, whatever the context holds.
     */
    constructor (menu: MenuProvider, value: ContextValue, store: StoredList<Dish>)
      requires store.key == DishesKey && value.dishes == menu.dishes
      ensures this.menu == menu && this.store == store
      ensures hasSetDishes <==> "setDishes" in value.members
      ensures localDishes == []
      ensures selectedCategory == "" && dishName == "" && description == "" && price == ""
    {
      this.menu := menu;
      hasSetDishes := "setDishes" in value.members;
      localDishes := [];
      selectedCategory, dishName, description, price := "", "", "", "";
      this.store := store;
    }

    /** The context list, the displayed list and the stored list are one value. */
    ghost predicate Synced()
      reads this, menu, store
    {
      localDishes == menu.dishes && store.entry == Json(menu.dishes)
    }

    /** The picker's `onValueChange`. */
    method SetSelectedCategory(value: string)
      modifies this
      ensures selectedCategory == value && localDishes == old(localDishes)
      ensures dishName == old(dishName) && description == old(description) && price == old(price)
    {
      selectedCategory := value;
    }

    /** The name input's `onChangeText`. */
    method SetDishName(value: string)
      modifies this
      ensures dishName == value && localDishes == old(localDishes)
      ensures selectedCategory == old(selectedCategory) && description == old(description) && price == old(price)
    {
      dishName := value;
    }

    /** The description input's `onChangeText`. */
    method SetDescription(value: string)
      modifies this
      ensures description == value && localDishes == old(localDishes)
      ensures selectedCategory == old(selectedCategory) && dishName == old(dishName) && price == old(price)
    {
      description := value;
    }

    /** The price input's `onChangeText`. */
    method SetPrice(value: string)
      modifies this
      ensures price == value && localDishes == old(localDishes)
      ensures selectedCategory == old(selectedCategory) && dishName == old(dishName) && description == old(description)
    {
      price := value;
    }

    /**
     * `loadDishes`: a stored list replaces both the context list and the
     * displayed list. Nothing stored changes nothing. A failed read, or a
     * context value without `setDishes`, throws into the `catch`, which logs
     * and changes nothing.
     */
    method LoadDishes(unavailable: bool) returns (effect: Effect)
      modifies this, menu
      ensures Read(store.entry, unavailable).Found? && hasSetDishes ==>
                && effect == Completed
                && menu.dishes == store.entry.items && localDishes == store.entry.items
                && Synced()
      ensures Read(store.entry, unavailable).Found? && !hasSetDishes ==> effect == Logged
      ensures Read(store.entry, unavailable).Absent? ==> effect == Completed
      ensures Read(store.entry, unavailable).Failed? ==> effect == Logged
      ensures effect != Completed || Read(store.entry, unavailable).Absent? ==> unchanged(this, menu)
      ensures selectedCategory == old(selectedCategory) && dishName == old(dishName)
      ensures description == old(description) && price == old(price)
    {
      var saved := store.GetItem(unavailable);
      match saved
      case Failed =>
        effect := Logged;
      case Absent =>
        effect := Completed;
      case Found(items) =>
        if !hasSetDishes {
          effect := Logged;
        } else {
          menu.SetDishes(items);
          localDishes := items;
          effect := Completed;
        }
    }

    /** `setDishes(updated)`, `setLocalDishes(updated)`, `saveDishes(updated)`. */
    method Commit(updated: seq<Dish>, unavailable: bool)
      requires hasSetDishes
      modifies this, menu, store
      ensures menu.dishes == updated && localDishes == updated
      ensures store.entry == Written(old(store.entry), updated, unavailable)
      ensures !unavailable ==> Synced()
      ensures selectedCategory == old(selectedCategory) && dishName == old(dishName)
      ensures description == old(description) && price == old(price)
    {
      menu.SetDishes(updated);
      localDishes := updated;
      var _ := store.SetItem(updated, unavailable);
    }

    /**
     * `handleAddDish`: with any form field empty nothing changes; otherwise
     * `addDish` appends the new dish to the context list, the displayed list and
     * the store get the old list with it appended, and the form is cleared.
     * `id` stands for `Date.now().toString()`, `parsedPrice` for `parseFloat(price)`.
     */
    method HandleAddDish(id: string, parsedPrice: real, unavailable: bool) returns (added: bool)
      modifies this, menu, store
      ensures added <==> old(selectedCategory) != "" && old(dishName) != "" && old(description) != "" && old(price) != ""
      ensures !added ==> unchanged(this, menu, store)
      ensures added ==>
                && menu.dishes == old(menu.dishes) + [Dish(id, old(selectedCategory), old(dishName), old(description), parsedPrice)]
                && localDishes == menu.dishes
                && store.entry == Written(old(store.entry), menu.dishes, unavailable)
                && selectedCategory == "" && dishName == "" && description == "" && price == ""
      ensures added && !unavailable ==> Synced()
    {
      if selectedCategory == "" || dishName == "" || description == "" || price == "" {
        return false;
      }
      var newDish := Dish(id, selectedCategory, dishName, description, parsedPrice);
      var updatedDishes := menu.dishes + [newDish];
      menu.AddDish(newDish);
      localDishes := updatedDishes;
      var _ := store.SetItem(updatedDishes, unavailable);
      dishName, description, price, selectedCategory := "", "", "", "";
      added := true;
    }

    /**
     * `handleDeleteDish`: every dish with the id goes and the rest stay in order.
     * Without `setDishes` in the context value the call throws and nothing changes.
     */
    method HandleDeleteDish(id: string, unavailable: bool) returns (effect: Effect)
      modifies this, menu, store
      ensures !hasSetDishes ==> effect == Uncaught && unchanged(this, menu, store)
      ensures hasSetDishes ==>
                && effect == Completed
                && menu.dishes == Without(old(menu.dishes), id) && localDishes == menu.dishes
                && store.entry == Written(old(store.entry), menu.dishes, unavailable)
                && (!unavailable ==> Synced())
      ensures selectedCategory == old(selectedCategory) && dishName == old(dishName)
      ensures description == old(description) && price == old(price)
    {
      if !hasSetDishes {
        return Uncaught;
      }
      Commit(Without(menu.dishes, id), unavailable);
      effect := Completed;
    }

    /**
     * `handleEditDish`: the patch is laid over every dish with the id.
     * Without `setDishes` in the context value the call throws and nothing changes.
     */
    method HandleEditDish(id: string, patch: DishPatch, unavailable: bool) returns (effect: Effect)
      modifies this, menu, store
      ensures !hasSetDishes ==> effect == Uncaught && unchanged(this, menu, store)
      ensures hasSetDishes ==>
                && effect == Completed
                && menu.dishes == Edited(old(menu.dishes), id, patch) && localDishes == menu.dishes
                && store.entry == Written(old(store.entry), menu.dishes, unavailable)
                && (!unavailable ==> Synced())
      ensures selectedCategory == old(selectedCategory) && dishName == old(dishName)
      ensures description == old(description) && price == old(price)
    {
      if !hasSetDishes {
        return Uncaught;
      }
      Commit(Edited(menu.dishes, id, patch), unavailable);
      effect := Completed;
    }

    /** The Edit button on the card of `item`. */
    method PressEdit(item: Dish, unavailable: bool) returns (effect: Effect)
      modifies this, menu, store
      ensures !hasSetDishes ==> effect == Uncaught && unchanged(this, menu, store)
      ensures hasSetDishes ==>
                && effect == Completed
                && menu.dishes == Edited(old(menu.dishes), item.id, EditButtonPatch(item)) && localDishes == menu.dishes
                && store.entry == Written(old(store.entry), menu.dishes, unavailable)
                && (!unavailable ==> Synced())
      ensures selectedCategory == old(selectedCategory) && dishName == old(dishName)
      ensures description == old(description) && price == old(price)
    {
      effect := HandleEditDish(item.id, EditButtonPatch(item), unavailable);
    }
  }

  /** Fills the form with the fields of `dish`, its price typed as "1". */
  method FillForm(screen: ChefsMenuScreen, dish: Dish)
    modifies screen
    ensures screen.selectedCategory == dish.category && screen.dishName == dish.name
    ensures screen.description == dish.description && screen.price == "1"
    ensures screen.localDishes == old(screen.localDishes)
  {
    screen.SetSelectedCategory(dish.category);
    screen.SetDishName(dish.name);
    screen.SetDescription(dish.description);
    screen.SetPrice("1");
  }

  /**
   * With the provider as written: a dish added in this session cannot be
   * deleted; it stays in the context list, the displayed list and the store.
   */
  method DeleteAsWrittenKeepsDish(dish: Dish) returns (effect: Effect, after: seq<Dish>, persisted: Entry<Dish>)
    requires dish.category != "" && dish.name != "" && dish.description != ""
    ensures effect == Uncaught
    ensures after == [dish.(price := 1.0)] && persisted == Json([dish.(price := 1.0)])
  {
    var provider := new MenuProvider();
    var store := new StoredList(DishesKey, Missing);
    var screen := new ChefsMenuScreen(provider, provider.Value(), store);
    var _ := screen.LoadDishes(false);
    FillForm(screen, dish);
    var _ := screen.HandleAddDish(dish.id, 1.0, false);
    effect := screen.HandleDeleteDish(dish.id, false);
    after, persisted := provider.dishes, store.entry;
  }

  /** With `setDishes` in the context value: the same delete empties the lists and the store. */
  method DeleteRemovesDish(dish: Dish) returns (effect: Effect, after: seq<Dish>, persisted: Entry<Dish>)
    requires dish.category != "" && dish.name != "" && dish.description != ""
    ensures effect == Completed
    ensures after == [] && persisted == Json([])
  {
    var provider := new MenuProvider();
    var store := new StoredList(DishesKey, Missing);
    var screen := new ChefsMenuScreen(provider, provider.ValueWithSetDishes(), store);
    var _ := screen.LoadDishes(false);
    FillForm(screen, dish);
    var _ := screen.HandleAddDish(dish.id, 1.0, false);
    effect := screen.HandleDeleteDish(dish.id, false);
    after, persisted := provider.dishes, store.entry;
  }

  /**
   * With the provider as written: after a restart the provider's list is empty
   * and the load cannot seed it, so the first dish added overwrites the stored menu.
   */
  method LoadThenAddAsWritten(saved: Dish, dish: Dish) returns (loaded: Effect, persisted: Entry<Dish>)
    requires dish.category != "" && dish.name != "" && dish.description != ""
    ensures loaded == Logged
    ensures persisted == Json([dish.(price := 1.0)])
  {
    var provider := new MenuProvider();
    var store := new StoredList(DishesKey, Json([saved]));
    var screen := new ChefsMenuScreen(provider, provider.Value(), store);
    loaded := screen.LoadDishes(false);
    FillForm(screen, dish);
    var _ := screen.HandleAddDish(dish.id, 1.0, false);
    persisted := store.entry;
  }

  /** With `setDishes` in the context value: the stored menu is loaded first and the new dish joins it. */
  method LoadThenAdd(saved: Dish, dish: Dish) returns (loaded: Effect, persisted: Entry<Dish>)
    requires dish.category != "" && dish.name != "" && dish.description != ""
    ensures loaded == Completed
    ensures persisted == Json([saved, dish.(price := 1.0)])
  {
    var provider := new MenuProvider();
    var store := new StoredList(DishesKey, Json([saved]));
    var screen := new ChefsMenuScreen(provider, provider.ValueWithSetDishes(), store);
    loaded := screen.LoadDishes(false);
    FillForm(screen, dish);
    var _ := screen.HandleAddDish(dish.id, 1.0, false);
    persisted := store.entry;
  }
}
