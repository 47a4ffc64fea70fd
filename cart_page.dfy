/**
 * The cart page: the totals it shows, the checkout button's guard, the
 * quantity and remove buttons, and the keyword classifier that picks a
 * pictogram for an item without a picture (the checkout page repeats the
 * same classifier).
 */
module CartPage {
  import opened Prelude
  import opened Text
  import opened Catalog
  import opened Cart
  import FoodCard

  /** `handleCheckout`: an empty cart raises an alert and stays; otherwise go to checkout. */
  function HandleCheckout(cart: seq<CartItem>): (e: Effect)
    ensures cart == [] <==> e == Alert("Your cart is empty!")
    ensures cart != [] <==> e == Navigate("/checkout")
  {
    if |cart| == 0 then Alert("Your cart is empty!") else Navigate("/checkout")
  }

  /** The minus and plus buttons ask the cart for one less or one more of that item. */
  function QuantityButton(item: CartItem, increase: bool): (e: Effect)
    ensures e.UpdateQuantity? && e.id == item.id
    ensures e.quantity == if increase then item.quantity + 1 else item.quantity - 1
  {
    UpdateQuantity(item.id, if increase then item.quantity + 1 else item.quantity - 1)
  }

  /** The remove button asks the cart to drop that item, whatever its quantity. */
  function RemoveButton(item: CartItem): (e: Effect)
    ensures e == RemoveFromCart(item.id)
  {
    RemoveFromCart(item.id)
  }

  /**
   * The cart page sends its quantity requests unchecked: from 1 the minus
   * button asks for 0 and from 99 the plus button asks for 100, both of
   * which the food card's own handler refuses; in between, both buttons
   * ask for what the card would accept.
   */
  lemma CartButtonsSkipCardBound(item: CartItem)
    ensures item.quantity == 1 ==> !FoodCard.AcceptedQuantity(QuantityButton(item, false).quantity)
    ensures item.quantity == 99 ==> !FoodCard.AcceptedQuantity(QuantityButton(item, true).quantity)
    ensures 2 <= item.quantity <= 98 ==>
              FoodCard.AcceptedQuantity(QuantityButton(item, false).quantity) &&
              FoodCard.AcceptedQuantity(QuantityButton(item, true).quantity)
  {
  }

  /**
   * In a cart whose ids are distinct, every button's request names its own
   * row: looking its id up in the cart finds exactly that item.
   */
  lemma ButtonsFindTheirItem(cart: seq<CartItem>, i: int, increase: bool)
    requires 0 <= i < |cart|
    requires forall j, k :: 0 <= j < k < |cart| ==> cart[j].id != cart[k].id
    ensures FindById(cart, QuantityButton(cart[i], increase).id) == Some(cart[i])
    ensures FindById(cart, RemoveButton(cart[i]).id) == Some(cart[i])
  {
    var r := FindById(cart, cart[i].id);
    assert r.Some?;
    var k :| 0 <= k < |cart| && cart[k] == r.value && cart[k].id == cart[i].id &&
             forall j :: 0 <= j < k ==> cart[j].id != cart[i].id;
    assert k == i;
  }

  /** `getCategoryEmoji(name)`: a chain of keyword tests on the lower-cased name, first match wins. */
  function NameEmoji(name: string): (e: Emoji) {
    var nameLower := ToLower(name);
    if Contains(nameLower, "pizza") then Pizza
    else if Contains(nameLower, "burger") then Hamburger
    else if Contains(nameLower, "salad") then GreenSalad
    else if Contains(nameLower, "chicken") then PoultryLeg
    else if Contains(nameLower, "pasta") then Spaghetti
    else if Contains(nameLower, "fish") then Fish
    else if Contains(nameLower, "cake") || Contains(nameLower, "dessert") then Shortcake
    else if Contains(nameLower, "wings") || Contains(nameLower, "nachos") then FriedShrimp
    else ForkAndKnifeWithPlate
  }

  /** The same classifier read as a table: keyword groups in the order they are tried. */
  const KeywordRules: seq<(seq<string>, Emoji)> := [
    (["pizza"], Pizza), (["burger"], Hamburger), (["salad"], GreenSalad),
    (["chicken"], PoultryLeg), (["pasta"], Spaghetti), (["fish"], Fish),
    (["cake", "dessert"], Shortcake), (["wings", "nachos"], FriedShrimp)
  ]

  predicate AnyOccurs(text: string, keywords: seq<string>) {
    exists k :: 0 <= k < |keywords| && Contains(text, keywords[k])
  }

  /** The first rule one of whose keywords occurs in `text` decides; with none, the plate. */
  function FirstRule(rules: seq<(seq<string>, Emoji)>, text: string): (e: Emoji)
    ensures e == ForkAndKnifeWithPlate || exists i :: 0 <= i < |rules| && rules[i].1 == e
  {
    if rules == [] then ForkAndKnifeWithPlate
    else if AnyOccurs(text, rules[0].0) then rules[0].1
    else FirstRule(rules[1..], text)
  }

  /** The rule chosen has a keyword in the text, and no earlier rule has one. */
  lemma {:induction false} FirstRuleIsFirstMatch(rules: seq<(seq<string>, Emoji)>, text: string)
    ensures (forall i :: 0 <= i < |rules| ==> !AnyOccurs(text, rules[i].0)) ==>
              FirstRule(rules, text) == ForkAndKnifeWithPlate
    ensures forall i :: 0 <= i < |rules| && AnyOccurs(text, rules[i].0) &&
                        (forall j :: 0 <= j < i ==> !AnyOccurs(text, rules[j].0)) ==>
              FirstRule(rules, text) == rules[i].1
  {
    if rules != [] {
      FirstRuleIsFirstMatch(rules[1..], text);
      assert forall i :: 1 <= i < |rules| ==> rules[i] == rules[1..][i - 1];
    }
  }

  /** One-keyword rules hold when their keyword occurs. */
  lemma AnyOccursSingle(text: string, w: string)
    ensures AnyOccurs(text, [w]) <==> Contains(text, w)
  {
    assert [w][0] == w;
  }

  /** Two-keyword rules hold when either keyword occurs. */
  lemma AnyOccursPair(text: string, v: string, w: string)
    ensures AnyOccurs(text, [v, w]) <==> Contains(text, v) || Contains(text, w)
  {
    var ks := [v, w];
    assert ks[0] == v && ks[1] == w;
  }

  /** The keyword chain and the rule table agree on every name. */
  lemma NameEmojiFollowsRules(name: string)
    ensures NameEmoji(name) == FirstRule(KeywordRules, ToLower(name))
  {
    var l := ToLower(name);
    AnyOccursSingle(l, "pizza");
    AnyOccursSingle(l, "burger");
    AnyOccursSingle(l, "salad");
    AnyOccursSingle(l, "chicken");
    AnyOccursSingle(l, "pasta");
    AnyOccursSingle(l, "fish");
    AnyOccursPair(l, "cake", "dessert");
    AnyOccursPair(l, "wings", "nachos");
    var r := KeywordRules;
    var r1, r2, r3, r4 := r[1..], r[2..], r[3..], r[4..];
    var r5, r6, r7, r8 := r[5..], r[6..], r[7..], r[8..];
    assert r1 == r[1..] && r2 == r1[1..] && r3 == r2[1..] && r4 == r3[1..];
    assert r5 == r4[1..] && r6 == r5[1..] && r7 == r6[1..] && r8 == r7[1..] && r8 == [];
    assert FirstRule(r8, l) == ForkAndKnifeWithPlate;
    assert FirstRule(r7, l) == if AnyOccurs(l, ["wings", "nachos"]) then FriedShrimp else FirstRule(r8, l);
    assert FirstRule(r6, l) == if AnyOccurs(l, ["cake", "dessert"]) then Shortcake else FirstRule(r7, l);
    assert FirstRule(r5, l) == if AnyOccurs(l, ["fish"]) then Fish else FirstRule(r6, l);
    assert FirstRule(r4, l) == if AnyOccurs(l, ["pasta"]) then Spaghetti else FirstRule(r5, l);
    assert FirstRule(r3, l) == if AnyOccurs(l, ["chicken"]) then PoultryLeg else FirstRule(r4, l);
    assert FirstRule(r2, l) == if AnyOccurs(l, ["salad"]) then GreenSalad else FirstRule(r3, l);
    assert FirstRule(r1, l) == if AnyOccurs(l, ["burger"]) then Hamburger else FirstRule(r2, l);
    assert FirstRule(r, l) == if AnyOccurs(l, ["pizza"]) then Pizza else FirstRule(r1, l);
  }

  /** Matching ignores case: a name and its lower-cased form get the same pictogram. */
  lemma NameEmojiIgnoresCase(name: string)
    ensures NameEmoji(ToLower(name)) == NameEmoji(name)
  {
    ToLowerIdempotent(name);
  }

  /** A name with "burger" and without "pizza" is a burger, whatever else it names. */
  lemma BurgerBeatsLaterKeywords(name: string)
    requires !Contains(ToLower(name), "pizza") && Contains(ToLower(name), "burger")
    ensures NameEmoji(name) == Hamburger
  {
  }

  /** Keyword order decides: "Chicken Burger" is a burger although it also names chicken. */
  lemma ChickenBurgerIsBurger(name: string)
    requires name == "Chicken Burger"
    ensures NameEmoji(name) == Hamburger
  {
    var l := ToLower(name);
    assert l == "chicken burger" by {
      forall i | 0 <= i < |l| ensures l[i] == "chicken burger"[i] {}
    }
    if Contains(l, "pizza") { ContainsOnlyCharsOf(l, "pizza", 'p'); }
    assert OccursAt(l, "burger", 8);
    OccursAtContains(l, "burger", 8);
    BurgerBeatsLaterKeywords(name);
  }
}
