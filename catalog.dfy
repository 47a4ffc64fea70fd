/** The menu: the `Food` record and the fixed twelve-entry catalog shipped with the storefront. */
module Catalog {
  import opened Prelude

  /** A menu item; `image` and `category` are optional in the record type. */
  datatype Food = Food(
    id: string,
    name: string,
    description: string,
    price: real,
    image: Option<string>,
    category: Option<string>)

  /**
   * The pictograms the storefront shows when an item has no picture,
   * named after their Unicode character names.
   */
  datatype Emoji =
    | Pizza | Hamburger | GreenSalad | PoultryLeg | MeatOnBone
    | Spaghetti | Fish | Shortcake | FriedShrimp | ForkAndKnifeWithPlate

  function Item(id: string, name: string, description: string, price: real,
                category: string, image: string): Food
  {
    Food(id, name, description, price, Some(image), Some(category))
  }

  /** The compiled-in menu, in display order. */
  const SampleFoods: seq<Food> := [
    Item("1", "Margherita Pizza", "Classic pizza with fresh tomatoes, mozzarella, and basil", 12.99, "Pizza",
         "https://images.unsplash.com/photo-1574071318508-1cdbab80d002?w=600&h=600&fit=crop"),
    Item("2", "Pepperoni Pizza", "Traditional pizza with pepperoni and mozzarella cheese", 14.99, "Pizza",
         "https://images.unsplash.com/photo-1628840042765-356cda07504e?w=600&h=600&fit=crop"),
    Item("3", "Chicken Burger", "Juicy grilled chicken patty with fresh vegetables", 9.99, "Burgers",
         "https://images.unsplash.com/photo-1606755962773-d324e588a96b?w=600&h=600&fit=crop"),
    Item("4", "Beef Burger", "Classic beef burger with lettuce, tomato, and special sauce", 10.99, "Burgers",
         "https://images.unsplash.com/photo-1568901346375-23c9450c58cd?w=600&h=600&fit=crop"),
    Item("5", "Caesar Salad", "Fresh romaine lettuce with caesar dressing and croutons", 8.99, "Salads",
         "https://images.unsplash.com/photo-1546793665-c74683f339c1?w=600&h=600&fit=crop"),
    Item("6", "Grilled Chicken", "Tender grilled chicken breast with herbs and spices", 15.99, "Main Course",
         "https://images.unsplash.com/photo-1532550907401-a500c9a57435?w=600&h=600&fit=crop"),
    Item("7", "Pasta Carbonara", "Creamy pasta with bacon, eggs, and parmesan cheese", 13.99, "Pasta",
         "https://images.unsplash.com/photo-1621996346565-e3dbc646d9a9?w=600&h=600&fit=crop"),
    Item("8", "Fish & Chips", "Crispy battered fish with golden fries", 11.99, "Seafood",
         "https://images.unsplash.com/photo-1559339352-11d035aa65de?w=600&h=600&fit=crop"),
    Item("9", "Chocolate Cake", "Rich and moist chocolate cake with frosting", 6.99, "Desserts",
         "https://images.unsplash.com/photo-1578985545062-69928b1d9587?w=600&h=600&fit=crop"),
    Item("10", "Ice Cream Sundae", "Vanilla ice cream with chocolate sauce and toppings", 5.99, "Desserts",
         "https://images.unsplash.com/photo-1563805042-7684c019e1cb?w=600&h=600&fit=crop"),
    Item("11", "Chicken Wings", "Spicy buffalo wings with blue cheese dip", 9.99, "Appetizers",
         "https://images.unsplash.com/photo-1527477396000-e27137b25c24?w=600&h=600&fit=crop"),
    Item("12", "Nachos", "Crispy nachos with cheese, jalapeños, and salsa", 7.99, "Appetizers",
         "https://images.unsplash.com/photo-1513456852971-30c0b8199d4d?w=600&h=600&fit=crop")
  ]

  /** The catalog's shape: twelve entries with the ids "1" to "12", pairwise distinct. */
  lemma CatalogIds()
    ensures |SampleFoods| == 12
    ensures forall i, j :: 0 <= i < j < |SampleFoods| ==> SampleFoods[i].id != SampleFoods[j].id
  {
  }

  /** Every catalog price is positive, and every entry supplies both optional fields. */
  lemma CatalogEntriesComplete()
    ensures forall f :: f in SampleFoods ==> f.price > 0.0 && f.image.Some? && f.category.Some?
  {
  }
}
