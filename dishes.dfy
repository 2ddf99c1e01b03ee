/** The menu's one record type, shared by the provider and the three menu screens. */
module Dishes {
  import opened Wrappers

  /**
   * A dish as the chef's screen builds it. The id is the creation time as a
   * string; the category is the picker's value ("Starter", "Main Course" or
   * "Dessert"); the price is `parseFloat` of what the chef typed.
   */
  datatype Dish = Dish(id: string, category: string, name: string, description: string, price: real)

  /** A partial dish: the fields an edit overwrites, each present or absent. */
  datatype DishPatch = DishPatch(
    id: Option<string>,
    category: Option<string>,
    name: Option<string>,
    description: Option<string>,
    price: Option<real>)

  /** `{ ...dish, ...patch }`: every field the patch carries replaces the dish's own. */
  function Overlay(dish: Dish, patch: DishPatch): (r: Dish)
    ensures r.id == patch.id.GetOr(dish.id)
    ensures r.category == patch.category.GetOr(dish.category)
    ensures r.name == patch.name.GetOr(dish.name)
    ensures r.description == patch.description.GetOr(dish.description)
    ensures r.price == patch.price.GetOr(dish.price)
    ensures patch == DishPatch(None, None, None, None, None) ==> r == dish
  {
    Dish(
      patch.id.GetOr(dish.id),
      patch.category.GetOr(dish.category),
      patch.name.GetOr(dish.name),
      patch.description.GetOr(dish.description),
      patch.price.GetOr(dish.price))
  }
}
