/**
 * The shop page's cart: products are added (an entry already present has its quantity
 * raised, a new one is appended with quantity 1) and removed (a quantity above 1 is
 * lowered, otherwise the entry goes), the total is the sum of price times quantity, and
 * the product list is filtered by the active category tab. New carts are computed as
 * values; the page's state fields hold them.
 */
module Shop {
  import opened Common
  import opened Json
  import opened LanguageContext

  /** A catalogue product; `text` holds its name/description fields and their translations. */
  datatype Product = Product(id: string, category: string, price: int, text: map<string, Json>)

  /** A cart entry: the product's fields spread into it, plus a quantity. */
  datatype CartItem = CartItem(product: Product, quantity: int)

  type Cart = seq<CartItem>

  /** The cart's invariant: no id appears twice and every quantity is at least 1. */
  predicate WellFormed(cart: Cart) {
    && (forall i, j :: 0 <= i < j < |cart| ==> cart[i].product.id != cart[j].product.id)
    && (forall i :: 0 <= i < |cart| ==> cart[i].quantity >= 1)
  }

  predicate Holds(cart: Cart, id: string) {
    exists i :: 0 <= i < |cart| && cart[i].product.id == id
  }

  /** `cart.find(item => item.id === id)`, as the index of the first match. */
  function Find(cart: Cart, id: string): (r: Option<nat>)
    ensures r.Some? ==> r.value < |cart| && cart[r.value].product.id == id
    ensures r.Some? ==> forall j :: 0 <= j < r.value ==> cart[j].product.id != id
    ensures r.None? ==> forall j :: 0 <= j < |cart| ==> cart[j].product.id != id
  {
    if cart == [] then None
    else if cart[0].product.id == id then Some(0)
    else match Find(cart[1..], id)
      case None => None
      case Some(k) => Some(k + 1)
  }

  /** `cart.map(item => item.id === id ? {...item, quantity: item.quantity + delta} : item)`. */
  function Shift(cart: Cart, id: string, delta: int): (r: Cart)
    ensures |r| == |cart|
    ensures forall i :: 0 <= i < |cart| ==>
              r[i] == if cart[i].product.id == id then cart[i].(quantity := cart[i].quantity + delta) else cart[i]
  {
    seq(|cart|, i requires 0 <= i < |cart| =>
      if cart[i].product.id == id then cart[i].(quantity := cart[i].quantity + delta) else cart[i])
  }

  /** `cart.filter(item => item.id !== id)`. */
  function Drop(cart: Cart, id: string): (r: Cart)
    ensures |r| <= |cart|
  {
    if cart == [] then []
    else (if cart[0].product.id != id then [cart[0]] else []) + Drop(cart[1..], id)
  }

  /** `addToCart(product)`. */
  function AddToCart(cart: Cart, p: Product): Cart {
    if Find(cart, p.id).Some? then Shift(cart, p.id, 1) else cart + [CartItem(p, 1)]
  }

  /** `removeFromCart(id)`: the first entry with the id decides between lowering and dropping. */
  function RemoveFromCart(cart: Cart, id: string): Cart {
    var existing := Find(cart, id);
    if existing.Some? && cart[existing.value].quantity > 1 then Shift(cart, id, -1) else Drop(cart, id)
  }

  /** In a well-formed cart, shifting an id touches only the one entry that holds it. */
  lemma ShiftOne(cart: Cart, i: nat, delta: int)
    requires WellFormed(cart) && i < |cart|
    ensures Shift(cart, cart[i].product.id, delta) == cart[i := cart[i].(quantity := cart[i].quantity + delta)]
  {
  }

  /** Dropping an id the cart does not hold changes nothing. */
  lemma {:induction false} DropAbsent(cart: Cart, id: string)
    requires forall j :: 0 <= j < |cart| ==> cart[j].product.id != id
    ensures Drop(cart, id) == cart
  {
    if cart != [] {
      DropAbsent(cart[1..], id);
      assert cart == [cart[0]] + cart[1..];
    }
  }

  lemma {:induction false} DropAppend(a: Cart, b: Cart, id: string)
    ensures Drop(a + b, id) == Drop(a, id) + Drop(b, id)
  {
    if a == [] {
      assert a + b == b;
    } else {
      assert (a + b)[1..] == a[1..] + b;
      DropAppend(a[1..], b, id);
    }
  }

  /** What dropping keeps: exactly the entries with other ids. */
  lemma {:induction false} DropMembers(cart: Cart, id: string, x: CartItem)
    ensures x in Drop(cart, id) <==> x in cart && x.product.id != id
  {
    if cart != [] {
      DropMembers(cart[1..], id, x);
      assert x in cart <==> x == cart[0] || x in cart[1..] by {
        assert cart == [cart[0]] + cart[1..];
      }
    }
  }

  /** Dropping the id of an entry that no other entry shares removes just that entry. */
  lemma DropBetween(before: Cart, x: CartItem, after: Cart)
    requires forall j :: 0 <= j < |before| ==> before[j].product.id != x.product.id
    requires forall j :: 0 <= j < |after| ==> after[j].product.id != x.product.id
    ensures Drop(before + [x] + after, x.product.id) == before + after
  {
    var id := x.product.id;
    DropAbsent(before, id);
    DropAbsent(after, id);
    assert Drop([x], id) == [] by {
      assert [x][1..] == [];
    }
    DropAppend(before, [x], id);
    DropAppend(before + [x], after, id);
    calc {
      Drop(before + [x] + after, id);
      Drop(before + [x], id) + Drop(after, id);
      Drop(before, id) + Drop([x], id) + Drop(after, id);
      before + [] + after;
      { assert before + [] == before; }
      before + after;
    }
  }

  /** In a well-formed cart the entry at `i` is the only one with its id. */
  lemma OnlyEntry(cart: Cart, i: nat)
    requires WellFormed(cart) && i < |cart|
    ensures forall j :: 0 <= j < |cart| && j != i ==> cart[j].product.id != cart[i].product.id
  {
  }

  /** A cart is what comes before entry `i`, the entry, and what comes after it. */
  lemma Around(cart: Cart, i: nat)
    requires i < |cart|
    ensures cart == cart[..i] + [cart[i]] + cart[i + 1..]
  {
    assert cart[i..] == [cart[i]] + cart[i + 1..];
    assert cart == cart[..i] + cart[i..];
  }

  /** Dropping the id of an entry that no other entry shares removes just that entry. */
  lemma DropOne(cart: Cart, i: nat)
    requires i < |cart|
    requires forall j :: 0 <= j < |cart| && j != i ==> cart[j].product.id != cart[i].product.id
    ensures Drop(cart, cart[i].product.id) == cart[..i] + cart[i + 1..]
  {
    var x := cart[i];
    var before, after := cart[..i], cart[i + 1..];
    assert forall j :: 0 <= j < |before| ==> before[j].product.id != x.product.id by {
      forall j | 0 <= j < |before|
        ensures before[j].product.id != x.product.id
      {
        assert before[j] == cart[j];
      }
    }
    assert forall j :: 0 <= j < |after| ==> after[j].product.id != x.product.id by {
      forall j | 0 <= j < |after|
        ensures after[j].product.id != x.product.id
      {
        assert after[j] == cart[i + 1 + j];
      }
    }
    calc {
      Drop(cart, x.product.id);
      { Around(cart, i); }
      Drop(before + [x] + after, x.product.id);
      { DropBetween(before, x, after); }
      before + after;
    }
  }

  /** Adding a product the cart holds raises that entry's quantity by one and changes nothing else. */
  lemma AddExisting(cart: Cart, p: Product, i: nat)
    requires WellFormed(cart) && i < |cart| && cart[i].product.id == p.id
    ensures AddToCart(cart, p) == cart[i := cart[i].(quantity := cart[i].quantity + 1)]
  {
    ShiftOne(cart, i, 1);
  }

  /** Adding a product the cart does not hold appends it with quantity 1. */
  lemma AddNew(cart: Cart, p: Product)
    requires !Holds(cart, p.id)
    ensures AddToCart(cart, p) == cart + [CartItem(p, 1)]
  {
  }

  /** Removing an entry whose quantity is above 1 lowers it by one and changes nothing else. */
  lemma RemoveDecrements(cart: Cart, i: nat)
    requires WellFormed(cart) && i < |cart| && cart[i].quantity > 1
    ensures RemoveFromCart(cart, cart[i].product.id) == cart[i := cart[i].(quantity := cart[i].quantity - 1)]
  {
    assert Find(cart, cart[i].product.id) == Some(i);
    ShiftOne(cart, i, -1);
  }

  /** Removing an entry whose quantity is 1 deletes it and keeps the others in order. */
  lemma RemoveDeletes(cart: Cart, i: nat)
    requires WellFormed(cart) && i < |cart| && cart[i].quantity == 1
    ensures RemoveFromCart(cart, cart[i].product.id) == cart[..i] + cart[i + 1..]
  {
    assert Find(cart, cart[i].product.id) == Some(i);
    OnlyEntry(cart, i);
    DropOne(cart, i);
  }

  /** Removing an id the cart does not hold leaves it unchanged. */
  lemma RemoveAbsent(cart: Cart, id: string)
    requires !Holds(cart, id)
    ensures RemoveFromCart(cart, id) == cart
  {
    DropAbsent(cart, id);
  }

  /** Adding keeps ids unique and quantities at least 1. */
  lemma AddPreservesWellFormed(cart: Cart, p: Product)
    requires WellFormed(cart)
    ensures WellFormed(AddToCart(cart, p))
  {
    match Find(cart, p.id)
    case Some(i) => AddExisting(cart, p, i);
    case None =>
  }

  /** Removing keeps ids unique and quantities at least 1. */
  lemma RemovePreservesWellFormed(cart: Cart, id: string)
    requires WellFormed(cart)
    ensures WellFormed(RemoveFromCart(cart, id))
  {
    match Find(cart, id)
    case Some(i) =>
      if cart[i].quantity > 1 {
        RemoveDecrements(cart, i);
      } else {
        RemoveDeletes(cart, i);
        var r := cart[..i] + cart[i + 1..];
        forall a, b | 0 <= a < b < |r|
          ensures r[a].product.id != r[b].product.id
        {
          var a' := if a < i then a else a + 1;
          var b' := if b < i then b else b + 1;
          assert r[a] == cart[a'] && r[b] == cart[b'];
        }
      }
    case None =>
      RemoveAbsent(cart, id);
  }

  /** Adding a product and then removing its id gives back the cart. */
  lemma AddThenRemove(cart: Cart, p: Product)
    requires WellFormed(cart)
    ensures RemoveFromCart(AddToCart(cart, p), p.id) == cart
  {
    match Find(cart, p.id)
    case Some(i) =>
      AddExisting(cart, p, i);
      var added := AddToCart(cart, p);
      AddPreservesWellFormed(cart, p);
      RemoveDecrements(added, i);
      assert added[i := added[i].(quantity := added[i].quantity - 1)] == cart;
    case None =>
      var added := cart + [CartItem(p, 1)];
      assert added[|cart|].product.id == p.id;
      assert Find(added, p.id) == Some(|cart|);
      DropAppend(cart, [CartItem(p, 1)], p.id);
      DropAbsent(cart, p.id);
  }

  /** What one entry contributes to the total. */
  function LineTotal(item: CartItem): int {
    item.product.price * item.quantity
  }

  /** `getTotalPrice`: `cart.reduce((total, item) => total + item.price * item.quantity, 0)`. */
  function TotalPrice(cart: Cart): int {
    if cart == [] then 0 else TotalPrice(cart[..|cart| - 1]) + LineTotal(cart[|cart| - 1])
  }

  /** Replacing one entry changes the total by the difference of the two entries' line totals. */
  lemma {:induction false} TotalUpdate(cart: Cart, i: nat, x: CartItem)
    requires i < |cart|
    ensures TotalPrice(cart[i := x]) == TotalPrice(cart) - LineTotal(cart[i]) + LineTotal(x)
  {
    var n := |cart|;
    var c := cart[i := x];
    if i < n - 1 {
      assert c[..n - 1] == cart[..n - 1][i := x];
      TotalUpdate(cart[..n - 1], i, x);
    } else {
      assert c[..n - 1] == cart[..n - 1];
    }
  }

  /**
   * Adding a product raises the total by one unit's price: the held entry's price, or the
   * new product's when it is appended.
   */
  lemma AddRaisesTotal(cart: Cart, p: Product)
    requires WellFormed(cart)
    ensures Find(cart, p.id).Some? ==>
              TotalPrice(AddToCart(cart, p)) == TotalPrice(cart) + cart[Find(cart, p.id).value].product.price
    ensures Find(cart, p.id).None? ==> TotalPrice(AddToCart(cart, p)) == TotalPrice(cart) + p.price
  {
    match Find(cart, p.id)
    case Some(i) =>
      AddExisting(cart, p, i);
      var x := cart[i].(quantity := cart[i].quantity + 1);
      TotalUpdate(cart, i, x);
      assert LineTotal(x) == LineTotal(cart[i]) + x.product.price by {
        assert x.product.price * (cart[i].quantity + 1) == x.product.price * cart[i].quantity + x.product.price;
      }
    case None =>
      var added := cart + [CartItem(p, 1)];
      assert added[..|added| - 1] == cart;
  }

  /** The products of one category, in catalogue order. */
  function InCategory(products: seq<Product>, category: string): (r: seq<Product>)
    ensures |r| <= |products|
    ensures forall k :: 0 <= k < |r| ==> r[k].category == category
  {
    if products == [] then []
    else (if products[0].category == category then [products[0]] else []) + InCategory(products[1..], category)
  }

  /** Filtering a concatenation filters each part and keeps them in order. */
  lemma {:induction false} InCategoryAppend(a: seq<Product>, b: seq<Product>, category: string)
    ensures InCategory(a + b, category) == InCategory(a, category) + InCategory(b, category)
  {
    if a == [] {
      assert a + b == b;
    } else {
      assert (a + b)[1..] == a[1..] + b;
      InCategoryAppend(a[1..], b, category);
    }
  }

  /** Exactly the products of the category are kept. */
  lemma {:induction false} InCategoryMembers(products: seq<Product>, category: string, p: Product)
    ensures p in InCategory(products, category) <==> p in products && p.category == category
  {
    if products != [] {
      InCategoryMembers(products[1..], category, p);
      assert p in products <==> p == products[0] || p in products[1..] by {
        assert products == [products[0]] + products[1..];
      }
    }
  }

  /** `InCategoryMembers` for every product at once. */
  lemma InCategoryAll(products: seq<Product>, category: string)
    ensures forall p :: p in InCategory(products, category) <==> p in products && p.category == category
  {
    forall p {
      InCategoryMembers(products, category, p);
    }
  }

  /** `filteredProducts`: the whole list on the "all" tab, otherwise one category. */
  function FilteredProducts(products: seq<Product>, activeCategory: string): seq<Product> {
    if activeCategory == "all" then products else InCategory(products, activeCategory)
  }

  /**
   * The "all" tab shows every product; any other tab shows exactly that category's products,
   * and the view of a concatenated catalogue is the concatenation of the views.
   */
  lemma FilteredProductsView(products: seq<Product>, more: seq<Product>, activeCategory: string, p: Product)
    ensures activeCategory == "all" ==> FilteredProducts(products, activeCategory) == products
    ensures activeCategory != "all" ==>
              (p in FilteredProducts(products, activeCategory) <==> p in products && p.category == activeCategory)
    ensures FilteredProducts(products + more, activeCategory)
              == FilteredProducts(products, activeCategory) + FilteredProducts(more, activeCategory)
  {
    InCategoryMembers(products, activeCategory, p);
    InCategoryAppend(products, more, activeCategory);
  }

  /** The fields the shop page's `getLocalizedText` maps to translated fields. */
  const SHOP_FIELDS: set<string> := {"name", "description"}

  /** A product's name: the translated name when truthy, else the base name. */
  lemma ProductNameLocalized(p: Product, l: Language)
    ensures var own := Lookup(p.text, "name" + Suffix(l));
            LocalizedText(SHOP_FIELDS, p.text, l, "name") == if Truthy(own) then own else Lookup(p.text, "name")
  {
    LocalizedTextChoice(SHOP_FIELDS, p.text, l, "name");
  }

  /** The page's state fields. */
  class ShopPage {
    var activeCategory: string
    var cart: Cart
    var imageErrors: map<string, bool>

    /** The "all" tab, an empty cart, no broken images. */
    constructor ()
      ensures activeCategory == "all" && cart == [] && imageErrors == map[]
    {
      activeCategory := "all";
      cart := [];
      imageErrors := map[];
    }

    /** The add button: the cart becomes `AddToCart` of it, and stays well formed. */
    method AddToCartClicked(p: Product)
      modifies this
      ensures cart == AddToCart(old(cart), p)
      ensures WellFormed(old(cart)) ==> WellFormed(cart)
      ensures activeCategory == old(activeCategory) && imageErrors == old(imageErrors)
    {
      if WellFormed(cart) {
        AddPreservesWellFormed(cart, p);
      }
      cart := AddToCart(cart, p);
    }

    /** The minus button: the cart becomes `RemoveFromCart` of it, and stays well formed. */
    method RemoveFromCartClicked(id: string)
      modifies this
      ensures cart == RemoveFromCart(old(cart), id)
      ensures WellFormed(old(cart)) ==> WellFormed(cart)
      ensures activeCategory == old(activeCategory) && imageErrors == old(imageErrors)
    {
      if WellFormed(cart) {
        RemovePreservesWellFormed(cart, id);
      }
      cart := RemoveFromCart(cart, id);
    }

    /** The category tabs. */
    method SetActiveCategory(category: string)
      modifies this
      ensures activeCategory == category && cart == old(cart) && imageErrors == old(imageErrors)
    {
      activeCategory := category;
    }

    /** `handleImageError`: the product is marked as having a broken image. */
    method HandleImageError(productId: string)
      modifies this
      ensures imageErrors == old(imageErrors)[productId := true]
      ensures cart == old(cart) && activeCategory == old(activeCategory)
    {
      imageErrors := imageErrors[productId := true];
    }

    /** `getTotalPrice()` over the page's cart. */
    function Total(): (r: int)
      reads this
      ensures cart == [] ==> r == 0
    {
      TotalPrice(cart)
    }

    /**
     * The products on show: all of them on the "all" tab, else exactly the active category's,
     * in catalogue order (the view `FilteredProducts`, whose order `FilteredProductsView` states).
     */
    function Shown(products: seq<Product>): (r: seq<Product>)
      reads this
      ensures r == FilteredProducts(products, activeCategory)
      ensures activeCategory == "all" ==> r == products
      ensures activeCategory != "all" ==> forall p :: p in r <==> p in products && p.category == activeCategory
    {
      InCategoryAll(products, activeCategory);
      FilteredProducts(products, activeCategory)
    }
  }
}
