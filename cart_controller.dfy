/**
 * cartController.ts: the customer's cart operations, built on CartDAO and
 * on the products table (read through ProductDAO.getProductByModel).
 */
module CartService {
  import opened Errors
  import opened Results
  import opened Tables
  import opened ProductStore
  import opened CartStore
  import ProductService

  /** What the cart operations keep true beyond the DAO's own invariant: one
      line per (cart, model), at least one unit on every line, and every line
      on a cart id already given out. */
  ghost predicate Inv(s: Store) {
    && CartStore.Valid(s)
    && UniqueBy(s.lines, LineKey)
    && (forall j | 0 <= j < |s.lines| :: s.lines[j].quantity >= 1 && s.lines[j].cartId < s.nextId)
  }

  /** getCartId (cartController.ts:75-91): the customer's unpaid cart, which
      is created first unless `avoidCreatingNew` is set. */
  function GetCartId(s: Store, username: string, avoidCreatingNew: bool): (t: Step<Store, int>)
    ensures GetUserCartId(s, username).Ok? ==> t == Step(s, GetUserCartId(s, username))
    ensures GetUserCartId(s, username).Err? && avoidCreatingNew ==> t == Step(s, Err(CartNotFound))
    ensures GetUserCartId(s, username).Err? && !avoidCreatingNew ==>
      t == Step(CreateEmptyCart(s, username).state, Ok(s.nextId))
  {
    match GetUserCartId(s, username)
    case Ok(id) => Step(s, Ok(id))
    case Err(e) =>
      if avoidCreatingNew then Step(s, Err(e))
      else
        var created := CreateEmptyCart(s, username).state;
        FindAppend(s.carts, OwnerOf, Cart(s.nextId, username, false, "", 0.0), (username, false));
        Step(created, GetUserCartId(created, username))
  }

  /** addToCart (cartController.ts:28-53). */
  function AddToCart(s: Store, username: string, model: string): (t: Step<Store, bool>)
    ensures t.state.products == s.products && t.state.nextId >= s.nextId
    ensures t.result.Err? ==> t.result.error == ProductNotFound || t.result.error == NegativeQuantity
    ensures t.result.Ok? ==> t.result.value
  {
    var g := GetCartId(s, username, false);
    match g.result
    case Err(e) => Step(g.state, Err(e))
    case Ok(id) =>
      match GetProductByModel(g.state.products, model)
      case Err(e) => Step(g.state, Err(e))
      case Ok(p) =>
        if p.quantity <= 0 then Step(g.state, Err(NegativeQuantity))
        else Step(AddUnit(g.state, p, id), Ok(true))
  }

  /** The try/catch of addToCart (cartController.ts:39-47): increase the
      line when getProductInCart finds it, insert one when it rejects with
      ProductNotInCartError. */
  function AddUnit(s: Store, p: Product, id: int): (t: Store)
    ensures t.carts == s.carts && t.products == s.products && t.nextId == s.nextId
  {
    if GetProductInCart(s, p.model, id).Ok? then IncreaseProductQuantityInCart(s, p.model, id).state
    else InsertProductInCart(s, p, id).state
  }

  /** getCart (cartController.ts:60-68): without an unpaid cart, an empty
      cart built on the spot, whose payment date is "" rather than null. */
  function GetCart(s: Store, username: string): (r: Result<CartView>)
    ensures r.Err? ==> r.error == CartNotFound
    ensures GetUserCartId(s, username).Err? ==> r.Ok? && r.value.products == [] && !r.value.paid
  {
    match GetCartId(s, username, true).result
    case Err(e) => if e == CartNotFound then Ok(CartView(username, false, Some(""), 0.0, [])) else Err(e)
    case Ok(id) => CartStore.GetCart(s, id)
  }

  /** checkoutCart (cartController.ts:98-109). */
  function CheckoutCart(s: Store, username: string, today: string): (t: Step<Store, bool>)
    ensures t.state.lines == s.lines && t.state.nextId == s.nextId
    ensures t.result.Err? ==> t.state.carts == s.carts
    ensures t.result.Ok? ==> GetUserCartId(s, username).Ok? && Items(s.lines, GetUserCartId(s, username).value) != []
  {
    match GetCartId(s, username, true).result
    case Err(e) => Step(s, Err(e))
    case Ok(id) =>
      match GetCart(s, username)
      case Err(e) => Step(s, Err(e))
      case Ok(cart) =>
        if |cart.products| == 0 then Step(s, Err(EmptyCart))
        else CartStore.CheckoutCart(s, id, today)
  }

  /** getCustomerCarts (cartController.ts:117-121). */
  function GetCustomerCarts(s: Store, username: string): (r: Result<seq<CartView>>)
    ensures r.Err? ==> r.error == CartNotFound
    ensures r.Ok? ==> |r.value| <= |s.carts|
  {
    GetUserAllPaidCarts(s, username)
  }

  /** removeProductFromCart (cartController.ts:129-147): one unit less, or
      the line gone when it held one unit. */
  function RemoveProductFromCart(s: Store, username: string, model: string): (t: Step<Store, bool>)
    ensures t.state.carts == s.carts && t.state.products == s.products && t.state.nextId == s.nextId
    ensures t.result.Err? ==> t.state == s
    ensures t.result.Err? ==> t.result.error in {CartNotFound, ProductNotFound, ProductNotInCart}
  {
    match GetCartId(s, username, true).result
    case Err(e) => Step(s, Err(e))
    case Ok(id) =>
      match GetProductByModel(s.products, model)
      case Err(e) => Step(s, Err(e))
      case Ok(p) =>
        match GetProductInCart(s, p.model, id)
        case Err(e) => Step(s, Err(e))
        case Ok(item) =>
          if item.quantity <= 1 then Step(CartStore.RemoveProductFromCart(s, p.model, id).state, Ok(true))
          else Step(DecreaseProductQuantityInCart(s, p.model, id).state, Ok(true))
  }

  /** The loop of clearCart (cartController.ts:160): one DELETE per item. */
  function RemoveAll(s: Store, items: seq<Item>, id: int): (t: Store)
    ensures t.carts == s.carts && t.products == s.products && t.nextId == s.nextId
    ensures forall l | l in t.lines :: l in s.lines
  {
    if |items| == 0 then s
    else CartStore.RemoveProductFromCart(RemoveAll(s, items[..|items| - 1], id), items[|items| - 1].model, id).state
  }

  /** clearCart (cartController.ts:154-166). */
  function ClearCart(s: Store, username: string): (t: Step<Store, bool>)
    ensures t.state.carts == s.carts && t.state.products == s.products && t.state.nextId == s.nextId
    ensures t.result.Err? ==> t == Step(s, Err(CartNotFound))
  {
    match GetCartId(s, username, true).result
    case Err(e) => Step(s, Err(e))
    case Ok(id) =>
      match GetCart(s, username)
      case Err(e) => Step(s, Err(e))
      case Ok(cart) => Step(RemoveAll(s, cart.products, id), Ok(true))
  }

  /** deleteAllCarts (cartController.ts:172-182): lines first, then carts. */
  function DeleteAllCarts(s: Store): (t: Step<Store, bool>)
    ensures t.result == Ok(true) && t.state.products == s.products && t.state.nextId == s.nextId
    ensures forall id :: CartStore.GetCart(t.state, id).Err? && Items(t.state.lines, id) == []
  {
    Step(s.(lines := [], carts := []), Ok(true))
  }

  /** getAllCarts (cartController.ts:188-192). */
  function GetAllCarts(s: Store): (r: Result<seq<CartView>>)
    ensures r.Err? ==> r.error == CartNotFound
    ensures r.Ok? ==> |r.value| == |s.carts|
  {
    CartStore.GetAllCarts(s)
  }

  /** The models of a list of cart items. */
  function Models(items: seq<Item>): (r: set<string>)
    ensures forall i | 0 <= i < |items| :: items[i].model in r
    ensures forall m | m in r :: exists i | 0 <= i < |items| :: items[i].model == m
  {
    if |items| == 0 then {} else Models(items[..|items| - 1]) + {items[|items| - 1].model}
  }

  /** The empty tables satisfy the invariant. */
  lemma InvInitially(nextId: int)
    ensures Inv(Store([], [], nextId, []))
  {
  }

  /** getCartId without `avoidCreatingNew` always yields the customer's
      unpaid cart: the existing one with nothing changed, or a new one with
      the next id and no lines. Either way the invariant holds after. */
  lemma GetCartIdSpec(s: Store, username: string)
    requires Inv(s)
    ensures var t := GetCartId(s, username, false);
      && t.result.Ok?
      && Inv(t.state)
      && GetUserCartId(t.state, username) == t.result
      && t.state.lines == s.lines && t.state.products == s.products
  {
    if GetUserCartId(s, username).Err? {
      CreateKeepsInv(s, username);
      CreateEmptyCartSpec(s, username);
    }
  }

  lemma CreateKeepsInv(s: Store, username: string)
    requires Inv(s) && GetUserCartId(s, username).Err?
    ensures Inv(CreateEmptyCart(s, username).state)
  {
    CreateEmptyCartSpec(s, username);
  }

  /** addToCart refuses a model the products table does not have, and one
      with no stock, leaving lines and products as they were (only a new
      empty cart may have been made); otherwise it succeeds. */
  lemma AddToCartErrors(s: Store, username: string, model: string)
    requires Inv(s)
    ensures var t := AddToCart(s, username, model);
      && t.state.products == s.products
      && (t.result.Err? <==> StockOf(s.products, model).None? || StockOf(s.products, model).value <= 0)
      && (StockOf(s.products, model).None? ==> t.result == Err(ProductNotFound))
      && (StockOf(s.products, model).Some? && StockOf(s.products, model).value <= 0 ==> t.result == Err(NegativeQuantity))
      && (t.result.Err? ==> t.state.lines == s.lines && Inv(t.state))
  {
    GetCartIdSpec(s, username);
  }

  /** With the model in stock, addToCart adds a unit to the cart getCartId
      yields, and succeeds. */
  lemma AddToCartSteps(s: Store, username: string, model: string)
    requires Inv(s)
    requires StockOf(s.products, model).Some? && StockOf(s.products, model).value > 0
    ensures var g := GetCartId(s, username, false);
      var p := GetProductByModel(s.products, model).value;
      && g.result.Ok? && Inv(g.state) && GetUserCartId(g.state, username) == g.result
      && g.state.lines == s.lines && g.state.products == s.products
      && p.model == model
      && AddToCart(s, username, model) == Step(AddUnit(g.state, p, g.result.value), Ok(true))
  {
    GetCartIdSpec(s, username);
  }

  /** Adding a unit leaves one unit more on the (cart, model) line: its
      quantity goes up by one, or a new line of one unit copies the product's
      category and price. */
  lemma AddUnitCount(s: Store, p: Product, id: int)
    ensures var before := GetProductInCart(s, p.model, id);
      var t := AddUnit(s, p, id);
      && (before.Ok? ==> GetProductInCart(t, p.model, id) == Ok(before.value.(quantity := before.value.quantity + 1)))
      && (before.Err? ==> GetProductInCart(t, p.model, id) == Ok(Item(p.model, 1, p.category, p.sellingPrice)))
  {
    if GetProductInCart(s, p.model, id).Ok? {
      IncreaseFinds(s, p.model, id);
    } else {
      InsertSpec(s, p, id, (id, p.model));
    }
  }

  /** Adding a unit changes no other line, and leaves carts and products. */
  lemma AddUnitFrame(s: Store, p: Product, id: int, key: (int, string))
    ensures var t := AddUnit(s, p, id);
      && (key != (id, p.model) ==> FindBy(t.lines, LineKey, key) == FindBy(s.lines, LineKey, key))
      && t.carts == s.carts && t.products == s.products && t.nextId == s.nextId
  {
    if GetProductInCart(s, p.model, id).Ok? {
      IncreaseSpec(s, p.model, id, key);
    } else {
      InsertSpec(s, p, id, key);
    }
  }

  /** After an increase, the line holds one unit more. */
  lemma IncreaseFinds(c: Store, model: string, id: int)
    requires GetProductInCart(c, model, id).Ok?
    ensures var it := GetProductInCart(c, model, id).value;
      GetProductInCart(IncreaseProductQuantityInCart(c, model, id).state, model, id) == Ok(it.(quantity := it.quantity + 1))
  {
    IncreaseSpec(c, model, id, (id, model));
    var l := FindBy(c.lines, LineKey, (id, model)).value;
    var t := IncreaseProductQuantityInCart(c, model, id).state;
    assert FindBy(t.lines, LineKey, (id, model)) == Some(l.(quantity := l.quantity + 1));
  }

  /** Adding a unit to an existing cart keeps the invariant. */
  lemma AddUnitKeepsInv(s: Store, p: Product, id: int)
    requires Inv(s)
    requires exists i | 0 <= i < |s.carts| :: s.carts[i].id == id
    ensures Inv(AddUnit(s, p, id))
  {
    if GetProductInCart(s, p.model, id).Ok? {
      IncreaseKeepsInv(s, p.model, id);
    } else {
      InsertKeepsInv(s, p, id);
    }
  }

  /** A successful addToCart leaves one more unit of the model in the
      customer's unpaid cart; no other line changes and the products are
      untouched. */
  lemma AddToCartAdds(s: Store, username: string, model: string, key: (int, string))
    requires Inv(s)
    requires StockOf(s.products, model).Some? && StockOf(s.products, model).value > 0
    ensures var id := GetCartId(s, username, false).result.value;
      var t := AddToCart(s, username, model);
      var before := GetProductInCart(s, model, id);
      var p := GetProductByModel(s.products, model).value;
      && t.result == Ok(true)
      && t.state.products == s.products
      && (before.Ok? ==> GetProductInCart(t.state, model, id) == Ok(before.value.(quantity := before.value.quantity + 1)))
      && (before.Err? ==> GetProductInCart(t.state, model, id) == Ok(Item(model, 1, p.category, p.sellingPrice)))
      && (key != (id, model) ==> FindBy(t.state.lines, LineKey, key) == FindBy(s.lines, LineKey, key))
  {
    AddToCartSteps(s, username, model);
    var g := GetCartId(s, username, false);
    var p := GetProductByModel(s.products, model).value;
    AddUnitCount(g.state, p, g.result.value);
    AddUnitFrame(g.state, p, g.result.value, key);
  }

  /** Every addToCart keeps the invariant, and a customer's unpaid cart
      stays the one getCartId gave. */
  lemma AddToCartKeepsInv(s: Store, username: string, model: string)
    requires Inv(s)
    ensures var t := AddToCart(s, username, model);
      && Inv(t.state)
      && GetUserCartId(t.state, username) == GetCartId(s, username, false).result
  {
    AddToCartErrors(s, username, model);
    var g := GetCartId(s, username, false);
    if StockOf(s.products, model).Some? && StockOf(s.products, model).value > 0 {
      AddToCartSteps(s, username, model);
      var c := g.state;
      var p := GetProductByModel(s.products, model).value;
      AddUnitFrame(c, p, g.result.value, (0, ""));
      var k := FindBy(c.carts, OwnerOf, (username, false));
      assert k.value in c.carts;
      AddUnitKeepsInv(c, p, g.result.value);
    }
  }

  /** With one unpaid cart per customer, that cart is the one getUserCartId finds. */
  lemma FindOpen(s: Store, username: string, i: int)
    requires CartStore.Valid(s) && 0 <= i < |s.carts| && s.carts[i].customer == username && !s.carts[i].paid
    ensures GetUserCartId(s, username) == Ok(s.carts[i].id)
  {
    var r := FindBy(s.carts, OwnerOf, (username, false));
    var k :| 0 <= k < |s.carts| && s.carts[k] == r.value;
    assert k == i;
  }

  lemma IncreaseKeepsInv(s: Store, model: string, id: int)
    requires Inv(s)
    ensures Inv(IncreaseProductQuantityInCart(s, model, id).state)
  {
    var f := AddUnits(1);
    assert KeepsKey(LineKey, f) by {
      forall l ensures LineKey(f(l)) == LineKey(l) { assert f(l).model == l.model; }
    }
    UpdateKeepsUnique(s.lines, LineKey, (id, model), f);
  }

  lemma InsertKeepsInv(s: Store, p: Product, id: int)
    requires Inv(s) && GetProductInCart(s, p.model, id).Err?
    requires exists i | 0 <= i < |s.carts| :: s.carts[i].id == id
    ensures Inv(InsertProductInCart(s, p, id).state)
  {
    var l := Line(id, p.model, 1, p.category, p.sellingPrice);
    AppendKeepsUnique(s.lines, LineKey, l);
  }

  /** getCart without an unpaid cart resolves with the empty cart built on
      the spot; with one, it resolves with that cart read by id. */
  lemma GetCartSpec(s: Store, username: string)
    ensures GetUserCartId(s, username).Err? ==>
      GetCart(s, username) == Ok(CartView(username, false, Some(""), 0.0, []))
    ensures GetUserCartId(s, username).Ok? ==>
      && GetCart(s, username) == CartStore.GetCart(s, GetUserCartId(s, username).value)
      && GetCart(s, username).Ok?
  {
    if GetUserCartId(s, username).Ok? {
      var c := FindBy(s.carts, OwnerOf, (username, false)).value;
      assert c in s.carts;
    }
  }

  /** With unique cart ids, the cart getCart resolves with is the customer's
      unpaid cart, holding the lines of its id. */
  lemma GetCartOwned(s: Store, username: string)
    requires CartStore.Valid(s) && GetUserCartId(s, username).Ok?
    ensures var v := GetCart(s, username).value;
      && v.customer == username && !v.paid
      && v.products == Items(s.lines, GetUserCartId(s, username).value)
  {
    GetCartSpec(s, username);
    var c := FindBy(s.carts, OwnerOf, (username, false)).value;
    var k :| 0 <= k < |s.carts| && s.carts[k] == c;
    FindUnique(s.carts, IdOf, k);
  }

  /** Keeping a subset of the lines, with carts and next id unchanged and
      (cart, model) still unique, keeps the invariant. */
  lemma SubsetKeepsInv(s: Store, t: Store)
    requires Inv(s) && t.carts == s.carts && t.products == s.products && t.nextId == s.nextId
    requires UniqueBy(t.lines, LineKey)
    requires forall l | l in t.lines :: l in s.lines
    ensures Inv(t)
  {
    forall j | 0 <= j < |t.lines| ensures t.lines[j].quantity >= 1 && t.lines[j].cartId < t.nextId {
      assert t.lines[j] in t.lines;
      var k :| 0 <= k < |s.lines| && s.lines[k] == t.lines[j];
    }
  }

  /** removeProductFromCart rejects, changing nothing, when the customer has
      no unpaid cart, when the model is not in the products table, and when
      the cart has no line for it. */
  lemma RemoveProductErrors(s: Store, username: string, model: string)
    ensures var t := RemoveProductFromCart(s, username, model);
      && (t.result.Err? ==> t.state == s)
      && (GetUserCartId(s, username).Err? ==> t.result == Err(CartNotFound))
      && (GetUserCartId(s, username).Ok? && StockOf(s.products, model).None? ==> t.result == Err(ProductNotFound))
      && (GetUserCartId(s, username).Ok? && StockOf(s.products, model).Some? ==>
            (t.result.Err? <==> GetProductInCart(s, model, GetUserCartId(s, username).value).Err?))
      && (t.result.Err? || t.result == Ok(true))
  {
  }

  /** A successful removeProductFromCart takes one unit off the line, or
      deletes the line when it held one unit; no other line changes, and
      carts and products are untouched. */
  lemma RemoveProductTakesUnit(s: Store, username: string, model: string, key: (int, string))
    requires GetUserCartId(s, username).Ok? && StockOf(s.products, model).Some?
    requires GetProductInCart(s, model, GetUserCartId(s, username).value).Ok?
    ensures var id := GetUserCartId(s, username).value;
      var before := GetProductInCart(s, model, id).value;
      var t := RemoveProductFromCart(s, username, model);
      && t.result == Ok(true)
      && t.state.carts == s.carts && t.state.products == s.products && t.state.nextId == s.nextId
      && (before.quantity <= 1 ==> GetProductInCart(t.state, model, id) == Err(ProductNotInCart))
      && (before.quantity > 1 ==> GetProductInCart(t.state, model, id) == Ok(before.(quantity := before.quantity - 1)))
      && (key != (id, model) ==> FindBy(t.state.lines, LineKey, key) == FindBy(s.lines, LineKey, key))
  {
    var id := GetUserCartId(s, username).value;
    if GetProductInCart(s, model, id).value.quantity <= 1 {
      RemoveSpec(s, model, id, (id, model));
      RemoveSpec(s, model, id, key);
    } else {
      DecreaseSpec(s, model, id, (id, model));
      DecreaseSpec(s, model, id, key);
    }
  }

  /** removeProductFromCart keeps the invariant: a line is only decreased
      while it holds two units or more. */
  lemma RemoveProductKeepsInv(s: Store, username: string, model: string)
    requires Inv(s)
    ensures Inv(RemoveProductFromCart(s, username, model).state)
  {
    var t := RemoveProductFromCart(s, username, model);
    if t.result.Ok? {
      var id := GetUserCartId(s, username).value;
      var it := GetProductInCart(s, model, id).value;
      if it.quantity <= 1 {
        RemoveKeepsUnique(s.lines, LineKey, (id, model));
        SubsetKeepsInv(s, t.state);
      } else {
        DecreaseKeepsInv(s, model, id);
      }
    }
  }

  lemma DecreaseKeepsInv(s: Store, model: string, id: int)
    requires Inv(s) && GetProductInCart(s, model, id).Ok? && GetProductInCart(s, model, id).value.quantity > 1
    ensures Inv(DecreaseProductQuantityInCart(s, model, id).state)
  {
    var f := AddUnits(-1);
    assert KeepsKey(LineKey, f) by {
      forall l ensures LineKey(f(l)) == LineKey(l) { assert f(l).model == l.model; }
    }
    UpdateKeepsUnique(s.lines, LineKey, (id, model), f);
    var t := DecreaseProductQuantityInCart(s, model, id).state;
    forall j | 0 <= j < |t.lines| ensures t.lines[j].quantity >= 1 {
      if LineKey(s.lines[j]) == (id, model) {
        FindUnique(s.lines, LineKey, j);
      }
    }
  }

  /** Removing the lines of a list of items, one DELETE each, keeps exactly
      the lines of other carts and of models not listed; carts, products and
      the next id are untouched, and the invariant is kept. */
  lemma {:induction false} RemoveAllSpec(s: Store, items: seq<Item>, id: int)
    ensures var t := RemoveAll(s, items, id);
      && t.carts == s.carts && t.products == s.products && t.nextId == s.nextId
      && (forall l :: l in t.lines <==> l in s.lines && !(l.cartId == id && l.model in Models(items)))
      && (Inv(s) ==> Inv(t))
  {
    if |items| > 0 {
      var init := items[..|items| - 1];
      var r := RemoveAll(s, init, id);
      RemoveAllSpec(s, init, id);
      if Inv(s) {
        RemoveKeepsUnique(r.lines, LineKey, (id, items[|items| - 1].model));
        SubsetKeepsInv(s, RemoveAll(s, items, id));
      }
    }
  }

  /** clearCart rejects, changing nothing, without an unpaid cart; with one,
      it deletes exactly that cart's lines, and the cart reads empty after. */
  lemma ClearCartSpec(s: Store, username: string)
    ensures GetUserCartId(s, username).Err? ==> ClearCart(s, username) == Step(s, Err(CartNotFound))
    ensures GetUserCartId(s, username).Ok? ==>
      var id := GetUserCartId(s, username).value;
      var t := ClearCart(s, username);
      && t.result == Ok(true)
      && t.state.carts == s.carts && t.state.products == s.products && t.state.nextId == s.nextId
      && (forall l :: l in t.state.lines <==> l in s.lines && l.cartId != id)
      && Items(t.state.lines, id) == []
      && (Inv(s) ==> Inv(t.state))
  {
    if GetUserCartId(s, username).Ok? {
      var id := GetUserCartId(s, username).value;
      GetCartSpec(s, username);
      var items := Items(s.lines, id);
      RemoveAllSpec(s, items, id);
      var t := RemoveAll(s, items, id);
      forall l | l in s.lines && l.cartId == id ensures l.model in Models(items) {
        var j :| 0 <= j < |s.lines| && s.lines[j] == l;
        assert ItemOf(s.lines[j]) in items;
        var k :| 0 <= k < |items| && items[k] == ItemOf(l);
      }
      forall j | 0 <= j < |t.lines| ensures t.lines[j].cartId != id {
        assert t.lines[j] in t.lines;
      }
      ItemsNone(t.lines, id);
    }
  }

  /** checkoutCart rejects, changing nothing, without an unpaid cart, and
      with an unpaid cart that has no lines. */
  lemma CheckoutErrors(s: Store, username: string, today: string)
    ensures GetUserCartId(s, username).Err? ==> CheckoutCart(s, username, today) == Step(s, Err(CartNotFound))
    ensures GetUserCartId(s, username).Ok? && Items(s.lines, GetUserCartId(s, username).value) == [] ==>
      CheckoutCart(s, username, today) == Step(s, Err(EmptyCart))
    ensures GetUserCartId(s, username).Ok? && Items(s.lines, GetUserCartId(s, username).value) != [] ==>
      CheckoutCart(s, username, today) == CartStore.CheckoutCart(s, GetUserCartId(s, username).value, today)
  {
    GetCartSpec(s, username);
  }

  /** The lines of a cart under the invariant have distinct models and at
      least one unit each. */
  lemma ItemsWellFormed(s: Store, id: int)
    requires Inv(s)
    ensures UniqueBy(Items(s.lines, id), ItemModel)
    ensures forall i | 0 <= i < |Items(s.lines, id)| :: Items(s.lines, id)[i].quantity >= 1
  {
    ItemsUnique(s.lines, id);
    var items := Items(s.lines, id);
    forall i | 0 <= i < |items| ensures items[i].quantity >= 1 {
      assert items[i] in items;
    }
  }

  /** A checkout of a non-empty unpaid cart whose lines are all in stock, with
      every product arrived by today, succeeds: each product loses the units
      the cart held, the cart is paid on today's date, every other cart is
      left as it was, the customer is left without an unpaid cart, and the
      invariant holds after. */
  lemma CheckoutSucceedsForUser(s: Store, username: string, today: string, m: string)
    requires Inv(s) && ProductService.ArrivedBy(s.products, today)
    requires GetUserCartId(s, username).Ok?
    requires var items := Items(s.lines, GetUserCartId(s, username).value);
      items != [] && Precheck(s.products, items).None?
    ensures var id := GetUserCartId(s, username).value;
      var t := CheckoutCart(s, username, today);
      && t.result == Ok(true)
      && Inv(t.state)
      && GetUserCartId(t.state, username) == Err(CartNotFound)
      && StockOf(t.state.products, m).Some? == StockOf(s.products, m).Some?
      && (StockOf(s.products, m).Some? ==>
           StockOf(t.state.products, m).value == StockOf(s.products, m).value - Ordered(Items(s.lines, id), m))
      && FindBy(s.carts, IdOf, id).Some?
      && FindBy(t.state.carts, IdOf, id) == Some(FindBy(s.carts, IdOf, id).value.(paid := true, paymentDate := today))
      && (forall k | k != id :: FindBy(t.state.carts, IdOf, k) == FindBy(s.carts, IdOf, k))
  {
    var id := GetUserCartId(s, username).value;
    OpenCartRow(s, username);
    CheckoutErrors(s, username, today);
    ItemsWellFormed(s, id);
    CheckoutSucceeds(s, id, today, m);
    PaidNoOpen(s, username, today);
  }

  /** The id getUserCartId gives names the customer's unpaid cart row. */
  lemma OpenCartRow(s: Store, username: string)
    requires CartStore.Valid(s) && GetUserCartId(s, username).Ok?
    ensures var c := FindBy(s.carts, IdOf, GetUserCartId(s, username).value);
      c.Some? && c.value.customer == username && !c.value.paid
  {
    var id := GetUserCartId(s, username).value;
    var i :| 0 <= i < |s.carts| && s.carts[i] == s.carts[i].(id := id, customer := username, paid := false);
    FindUnique(s.carts, IdOf, i);
  }

  /** Paying the customer's unpaid cart leaves the customer no unpaid cart. */
  lemma PaidNoOpen(s: Store, username: string, today: string)
    requires CartStore.Valid(s) && GetUserCartId(s, username).Ok?
    ensures var cs := UpdateBy(s.carts, IdOf, GetUserCartId(s, username).value, Pay(today));
      GetUserCartId(s.(carts := cs), username) == Err(CartNotFound)
  {
    var id := GetUserCartId(s, username).value;
    var cs := UpdateBy(s.carts, IdOf, id, Pay(today));
    forall i | 0 <= i < |cs| ensures !(cs[i].customer == username && !cs[i].paid) {
      if s.carts[i].customer == username && !s.carts[i].paid {
        FindOpen(s, username, i);
      }
    }
  }

  /** deleteAllCarts empties both tables, after which getAllCarts resolves
      with no carts, and keeps the invariant. */
  lemma DeleteAllCartsSpec(s: Store)
    ensures var t := DeleteAllCarts(s);
      && t.result == Ok(true)
      && t.state.carts == [] && t.state.lines == [] && t.state.products == s.products && t.state.nextId == s.nextId
      && GetAllCarts(t.state) == Ok([])
      && (Inv(s) ==> Inv(t.state))
  {
  }
}

/** The class CartController of cartController.ts, over a CartDAO. */
module CartController {
  import opened Errors
  import opened Results
  import opened ProductStore
  import opened CartStore
  import CartService
  import CartDAO

  /** Each method calls the DAO as the controller does and is tied to the
      CartService function that describes it. */
  class CartController {
    const dao: CartDAO.CartDAO

    constructor(dao: CartDAO.CartDAO)
      ensures this.dao == dao
    {
      this.dao := dao;
    }

    method GetCartId(username: string, avoidCreatingNew: bool) returns (r: Result<int>)
      requires dao.Valid()
      modifies dao
      ensures dao.Valid()
      ensures Step(dao.State(), r) == CartService.GetCartId(old(dao.State()), username, avoidCreatingNew)
    {
      r := dao.GetUserCartId(username);
      if r.Ok? || avoidCreatingNew || r.error != CartNotFound {
        return;
      }
      // createEmptyCart cannot reject here: the lookup just found no unpaid cart.
      var _ := dao.CreateEmptyCart(username);
      r := dao.GetUserCartId(username);
    }

    method AddToCart(username: string, model: string) returns (r: Result<bool>)
      requires dao.Valid()
      modifies dao
      ensures dao.Valid()
      ensures Step(dao.State(), r) == CartService.AddToCart(old(dao.State()), username, model)
    {
      var id := GetCartId(username, false);
      if id.Err? {
        return Err(id.error);
      }
      var product := GetProductByModel(dao.productController.dao.products, model);
      if product.Err? {
        return Err(product.error);
      }
      var p := product.value;
      if p.quantity <= 0 {
        return Err(NegativeQuantity);
      }
      var inCart := dao.GetProductInCart(p.model, id.value);
      if inCart.Ok? {
        dao.IncreaseProductQuantityInCart(p.model, id.value);
      } else {
        var _ := dao.InsertProductInCart(p, id.value);
      }
      r := Ok(true);
    }

    method GetCart(username: string) returns (r: Result<CartView>)
      requires dao.Valid()
      modifies dao
      ensures dao.Valid() && dao.State() == old(dao.State())
      ensures r == CartService.GetCart(old(dao.State()), username)
    {
      var id := GetCartId(username, true);
      if id.Err? {
        // getCartId with avoidCreatingNew rejects only with CartNotFoundError.
        return Ok(CartView(username, false, Some(""), 0.0, []));
      }
      r := dao.GetCart(id.value);
    }

    method CheckoutCart(username: string, today: string) returns (r: Result<bool>)
      requires dao.Valid()
      modifies dao, dao.productController.dao
      ensures dao.Valid()
      ensures Step(dao.State(), r) == CartService.CheckoutCart(old(dao.State()), username, today)
    {
      var id := GetCartId(username, true);
      if id.Err? {
        return Err(id.error);
      }
      var cart := GetCart(username);
      CartService.GetCartSpec(old(dao.State()), username);
      if |cart.value.products| == 0 {
        return Err(EmptyCart);
      }
      r := dao.CheckoutCart(id.value, today);
    }

    method GetCustomerCarts(username: string) returns (r: Result<seq<CartView>>)
      ensures r == CartService.GetCustomerCarts(dao.State(), username)
    {
      r := dao.GetUserAllPaidCarts(username);
    }

    method RemoveProductFromCart(username: string, model: string) returns (r: Result<bool>)
      requires dao.Valid()
      modifies dao
      ensures dao.Valid()
      ensures Step(dao.State(), r) == CartService.RemoveProductFromCart(old(dao.State()), username, model)
    {
      var id := GetCartId(username, true);
      if id.Err? {
        return Err(id.error);
      }
      var product := GetProductByModel(dao.productController.dao.products, model);
      if product.Err? {
        return Err(product.error);
      }
      var inCart := dao.GetProductInCart(product.value.model, id.value);
      if inCart.Err? {
        return Err(inCart.error);
      }
      if inCart.value.quantity <= 1 {
        var _ := dao.RemoveProductFromCart(product.value.model, id.value);
      } else {
        dao.DecreaseProductQuantityInCart(product.value.model, id.value);
      }
      r := Ok(true);
    }

    /** clearCart: one removeProductFromCart per item of the cart. */
    method ClearCart(username: string) returns (r: Result<bool>)
      requires dao.Valid()
      modifies dao
      ensures dao.Valid()
      ensures Step(dao.State(), r) == CartService.ClearCart(old(dao.State()), username)
    {
      var id := GetCartId(username, true);
      if id.Err? {
        return Err(id.error);
      }
      var cart := GetCart(username);
      CartService.GetCartSpec(old(dao.State()), username);
      RemoveAll(cart.value.products, id.value);
      r := Ok(true);
    }

    /** The loop of clearCart over the cart's items. */
    method RemoveAll(items: seq<Item>, id: int)
      requires dao.Valid()
      modifies dao
      ensures dao.Valid()
      ensures dao.State() == CartService.RemoveAll(old(dao.State()), items, id)
    {
      ghost var s0 := dao.State();
      for i := 0 to |items|
        invariant dao.carts == s0.carts && dao.nextId == s0.nextId
        invariant dao.lines == CartService.RemoveAll(s0, items[..i], id).lines
      {
        CartService.RemoveAllSpec(s0, items[..i], id);
        assert items[..i + 1][..i] == items[..i];
        var _ := dao.RemoveProductFromCart(items[i].model, id);
      }
      assert items[..|items|] == items;
      CartService.RemoveAllSpec(s0, items, id);
    }

    /** deleteAllCarts: the lines first, then the carts. */
    method DeleteAllCarts() returns (r: Result<bool>)
      requires dao.Valid()
      modifies dao
      ensures dao.Valid()
      ensures Step(dao.State(), r) == CartService.DeleteAllCarts(old(dao.State()))
    {
      var _ := dao.DeleteAllProductsInCarts();
      r := dao.DeleteAllCarts();
    }

    method GetAllCarts() returns (r: Result<seq<CartView>>)
      ensures r == CartService.GetAllCarts(dao.State())
    {
      r := dao.GetAllCarts();
    }
  }
}
