/**
 * A menu card: its three state cells (`isAdding`, `showQuantitySelector`,
 * `quantity`), the handlers that update them and ask the cart for changes,
 * and the category pictogram lookup.
 */
module FoodCard {
  import opened Prelude
  import opened Catalog
  import opened Cart

  /** The eight category names the card knows, each with its pictogram. */
  const CategoryEmojis: map<string, Emoji> := map[
    "Pizza" := Pizza, "Burgers" := Hamburger, "Salads" := GreenSalad,
    "Main Course" := MeatOnBone, "Pasta" := Spaghetti, "Seafood" := Fish,
    "Desserts" := Shortcake, "Appetizers" := FriedShrimp
  ]

  /** The quantities `handleQuantityChange` accepts: 1 to 99. */
  predicate AcceptedQuantity(q: int) {
    1 <= q <= 99
  }

  /** `emojiMap[category || ""] || "🍽️"`: an exact, case-sensitive lookup with the plate as fallback. */
  function CategoryEmoji(category: Option<string>): (e: Emoji)
    ensures category.Some? && category.value in CategoryEmojis ==> e == CategoryEmojis[category.value]
    ensures (category.None? || category.value !in CategoryEmojis) ==> e == ForkAndKnifeWithPlate
  {
    var key := if category.Some? then category.value else "";
    if key in CategoryEmojis then CategoryEmojis[key] else ForkAndKnifeWithPlate
  }

  /** The category each known pictogram stands for: the map read backwards. */
  function EmojiCategory(e: Emoji): string {
    match e
    case Pizza => "Pizza"
    case Hamburger => "Burgers"
    case GreenSalad => "Salads"
    case MeatOnBone => "Main Course"
    case Spaghetti => "Pasta"
    case Fish => "Seafood"
    case Shortcake => "Desserts"
    case FriedShrimp => "Appetizers"
    case _ => ""
  }

  /** The eight names get eight different pictograms, none of them the fallback. */
  lemma CategoryEmojisDistinct()
    ensures forall a, b :: a in CategoryEmojis && b in CategoryEmojis && a != b ==>
              CategoryEmojis[a] != CategoryEmojis[b]
    ensures forall a :: a in CategoryEmojis ==> CategoryEmojis[a] != ForkAndKnifeWithPlate
  {
    forall a | a in CategoryEmojis
      ensures EmojiCategory(CategoryEmojis[a]) == a && CategoryEmojis[a] != ForkAndKnifeWithPlate
    {
      assert a in {"Pizza", "Burgers", "Salads", "Main Course", "Pasta", "Seafood", "Desserts", "Appetizers"};
    }
  }

  /** The lookup is exact: a lower-cased name or a missing category falls back to the plate. */
  lemma CategoryEmojiIsExact()
    ensures CategoryEmoji(Some("Pizza")) == Pizza
    ensures CategoryEmoji(Some("pizza")) == ForkAndKnifeWithPlate
    ensures CategoryEmoji(Some("")) == ForkAndKnifeWithPlate
    ensures CategoryEmoji(None) == ForkAndKnifeWithPlate
  {
    assert "pizza" !in CategoryEmojis;
  }

  /** Every catalog entry names one of the eight known categories. */
  lemma CatalogCategoriesKnown()
    ensures forall f :: f in SampleFoods ==> f.category.Some? && f.category.value in CategoryEmojis
  {
  }

  class FoodCardState {
    const food: Food
    var isAdding: bool
    var showQuantitySelector: bool
    var quantity: int

    constructor (food: Food)
      ensures this.food == food && !isAdding && !showQuantitySelector && quantity == 1
    {
      this.food := food;
      isAdding := false;
      showQuantitySelector := false;
      quantity := 1;
    }

    /**
     * `handleAddToCartClick`. Signed out: go to the login page and change
     * nothing. Signed in: add the item (without a quantity) only if the cart
     * lacks its id, take the quantity from the cart otherwise, and show the
     * quantity selector.
     */
    method HandleAddToCartClick(signedIn: bool, cart: seq<CartItem>) returns (effects: seq<Effect>)
      modifies this
      ensures isAdding == old(isAdding)
      ensures !signedIn ==> effects == [Navigate("/login")] &&
                            showQuantitySelector == old(showQuantitySelector) && quantity == old(quantity)
      ensures signedIn ==> showQuantitySelector
      ensures signedIn && FindById(cart, food.id).None? ==>
                effects == [AddToCart(food.id, food.name, food.price, food.image)] && quantity == 1
      ensures signedIn && FindById(cart, food.id).Some? ==>
                effects == [] && quantity == FindById(cart, food.id).value.quantity
    {
      if !signedIn {
        effects := [Navigate("/login")];
        return;
      }
      var existingItem := FindById(cart, food.id);
      if existingItem.None? {
        effects := [AddToCart(food.id, food.name, food.price, food.image)];
        quantity := 1;
      } else {
        effects := [];
        quantity := existingItem.value.quantity;
      }
      showQuantitySelector := true;
    }

    /** `handleQuantityChange`: values outside 1..99 are ignored; others are kept and sent to the cart. */
    method HandleQuantityChange(newQuantity: int) returns (effects: seq<Effect>)
      modifies this
      ensures isAdding == old(isAdding) && showQuantitySelector == old(showQuantitySelector)
      ensures !AcceptedQuantity(newQuantity) ==> effects == [] && quantity == old(quantity)
      ensures AcceptedQuantity(newQuantity) ==>
                effects == [UpdateQuantity(food.id, newQuantity)] && quantity == newQuantity
    {
      if newQuantity < 1 || newQuantity > 99 {
        effects := [];
        return;
      }
      quantity := newQuantity;
      effects := [UpdateQuantity(food.id, newQuantity)];
    }

    /** The selector's minus button. */
    method Decrease() returns (effects: seq<Effect>)
      modifies this
      ensures isAdding == old(isAdding) && showQuantitySelector == old(showQuantitySelector)
      ensures !AcceptedQuantity(old(quantity) - 1) ==> effects == [] && quantity == old(quantity)
      ensures AcceptedQuantity(old(quantity) - 1) ==>
                effects == [UpdateQuantity(food.id, quantity)] && quantity == old(quantity) - 1
    {
      effects := HandleQuantityChange(quantity - 1);
    }

    /** The selector's plus button. */
    method Increase() returns (effects: seq<Effect>)
      modifies this
      ensures isAdding == old(isAdding) && showQuantitySelector == old(showQuantitySelector)
      ensures !AcceptedQuantity(old(quantity) + 1) ==> effects == [] && quantity == old(quantity)
      ensures AcceptedQuantity(old(quantity) + 1) ==>
                effects == [UpdateQuantity(food.id, quantity)] && quantity == old(quantity) + 1
    {
      effects := HandleQuantityChange(quantity + 1);
    }

    /** `handleConfirmAdd`: signed out, go to login; signed in, start the adding animation. */
    method HandleConfirmAdd(signedIn: bool) returns (effects: seq<Effect>)
      modifies this
      ensures showQuantitySelector == old(showQuantitySelector) && quantity == old(quantity)
      ensures !signedIn ==> effects == [Navigate("/login")] && isAdding == old(isAdding)
      ensures signedIn ==> effects == [] && isAdding
    {
      if !signedIn {
        effects := [Navigate("/login")];
        return;
      }
      isAdding := true;
      effects := [];
    }

    /** The step the confirm timer takes when it fires: the animation ends and the selector closes. */
    method ConfirmAddTimerFired()
      modifies this
      ensures !isAdding && !showQuantitySelector && quantity == old(quantity)
    {
      isAdding := false;
      showQuantitySelector := false;
    }

    /** `handleCancelQuantity`: close the selector and reset the local quantity; the cart is not asked. */
    method HandleCancelQuantity()
      modifies this
      ensures !showQuantitySelector && quantity == 1 && isAdding == old(isAdding)
    {
      showQuantitySelector := false;
      quantity := 1;
    }
  }
}
