/**
 * The bar-and-restaurant page: a banner carousel and two tabbed lists, drinks
 * and menu, each a constant map from category name to items. A tab is only
 * ever set from the buttons, one per key, so the list it selects exists.
 */
module Kitchen {
  import opened Js
  import opened ImageCarousel

  datatype Item = Item(name: string, description: string, price: string, image: string)

  datatype Category = Category(name: string, items: seq<Item>)

  /** An object literal's entries, in `Object.keys` order. */
  type CategoryMap = seq<Category>

  /**
   * `Object.keys(m)`. It projects names like `Catalogue.ServiceNames` does, but
   * over the menu's categories, whose object keys are the category names.
   */
  function Keys(m: CategoryMap): (keys: seq<string>)
    ensures |keys| == |m|
    ensures forall i :: 0 <= i < |m| ==> keys[i] == m[i].name
  {
    seq(|m|, i requires 0 <= i < |m| => m[i].name)
  }

  /** `m[k]`, defined only for a key of m. */
  function Get(m: CategoryMap, k: string): (items: seq<Item>)
    requires k in Keys(m)
    ensures exists i :: 0 <= i < |m| && m[i].name == k && items == m[i].items
  {
    if m[0].name == k then m[0].items
    else
      assert Keys(m) == [m[0].name] + Keys(m[1..]);
      Get(m[1..], k)
  }

  const BannerImages: seq<string> := ["/images/bar1.jpg", "/images/bar2.jpg", "/images/bar3.jpg"]

  const Drinks: CategoryMap := [
    Category("Cocktails", [
      Item("Mojito", "Minty refreshing cocktail", "$12", "/images/drink1.jpg"),
      Item("Margarita", "Classic tequila delight", "$14", "/images/drink2.jpg")]),
    Category("Wine", [
      Item("Chardonnay", "White wine, crisp and fruity", "$18", "/images/drink3.jpg"),
      Item("Merlot", "Rich red wine", "$20", "/images/drink4.jpg")]),
    Category("Beers", [
      Item("Lager", "Crisp and light beer", "$8", "/images/drink5.jpg"),
      Item("IPA", "Hoppy and aromatic", "$9", "/images/drink6.jpg")]),
    Category("Soft Drinks", [
      Item("Coke", "Classic soft drink", "$3", "/images/drink7.jpg"),
      Item("Orange Juice", "Freshly squeezed", "$4", "/images/drink8.jpg")])]

  const Menu: CategoryMap := [
    Category("Starters", [
      Item("Bruschetta", "Toasted bread with tomato and basil", "$10", "/images/menu1.jpg"),
      Item("Garlic Prawns", "Served with garlic butter sauce", "$14", "/images/menu2.jpg")]),
    Category("Main Course", [
      Item("Grilled Salmon", "Served with seasonal vegetables", "$25", "/images/menu3.jpg"),
      Item("Steak", "Juicy ribeye with sides", "$30", "/images/menu4.jpg")]),
    Category("Desserts", [
      Item("Chocolate Cake", "Rich and moist", "$8", "/images/menu5.jpg"),
      Item("Cheesecake", "Classic creamy delight", "$9", "/images/menu6.jpg")])]

  class BarRestaurantPage {
    var drinkTab: string
    var menuTab: string
    const banner: Carousel

    /** Both selected tabs name a category, so `drinks[drinkTab]` and `menu[menuTab]` are defined. */
    ghost predicate Valid()
      reads this
    {
      drinkTab in Keys(Drinks) && menuTab in Keys(Menu)
    }

    /** The initial tabs are the first keys; the banner carousel starts at its first image. */
    constructor ()
      ensures Valid()
      ensures drinkTab == Keys(Drinks)[0] && menuTab == Keys(Menu)[0]
      ensures fresh(banner) && banner.count == |BannerImages| && banner.current == Int(0)
    {
      drinkTab := Keys(Drinks)[0];
      menuTab := Keys(Menu)[0];
      banner := new Carousel(|BannerImages|);
    }

    /** The drink button at position `index` of `Object.keys(drinks)`. */
    method SelectDrinkTab(index: nat)
      requires Valid() && index < |Keys(Drinks)|
      modifies this
      ensures Valid() && drinkTab == Keys(Drinks)[index] && menuTab == old(menuTab)
    {
      drinkTab := Keys(Drinks)[index];
    }

    /** The menu button at position `index` of `Object.keys(menu)`. */
    method SelectMenuTab(index: nat)
      requires Valid() && index < |Keys(Menu)|
      modifies this
      ensures Valid() && menuTab == Keys(Menu)[index] && drinkTab == old(drinkTab)
    {
      menuTab := Keys(Menu)[index];
    }

    /** `drinks[drinkTab]` */
    function DrinkItems(): (items: seq<Item>)
      requires Valid()
      reads this
      ensures exists i :: 0 <= i < |Drinks| && Drinks[i].name == drinkTab && items == Drinks[i].items
    {
      Get(Drinks, drinkTab)
    }

    /** `menu[menuTab]` */
    function MenuItems(): (items: seq<Item>)
      requires Valid()
      reads this
      ensures exists i :: 0 <= i < |Menu| && Menu[i].name == menuTab && items == Menu[i].items
    {
      Get(Menu, menuTab)
    }
  }

  /** The banner's index stays on one of its three images however the arrows and the interval move it. */
  lemma BannerStaysInRange(i: Num)
    requires InRange(i, |BannerImages|)
    ensures InRange(Forward(i, |BannerImages|), |BannerImages|)
    ensures InRange(Backward(i, |BannerImages|), |BannerImages|)
  {
    StepsStayInRange(i, |BannerImages|);
  }
}
