/**
 * cartDAO.ts: the cart table (keyed by id), the productincart table (one
 * line per cart and model) and the statements CartDAO runs on them. The
 * checkout also reads and sells products, through ProductDAO and
 * ProductController.
 */
module CartStore {
  import opened Errors
  import opened Results
  import opened Tables
  import opened ProductStore
  import ProductService

  /** A row of the cart table. `paid` is stored as 0 or 1 and `paymentDate`
      as "" while the cart is unpaid. */
  datatype Cart = Cart(id: int, customer: string, paid: bool, paymentDate: string, total: real)

  /** A row of the productincart table. */
  datatype Line = Line(cartId: int, model: string, quantity: int, category: string, price: real)

  /** A ProductInCart object: a line without its cart id. */
  datatype Item = Item(model: string, quantity: int, category: string, price: real)

  /** A Cart object, as getCart builds it. */
  datatype CartView = CartView(customer: string, paid: bool, paymentDate: Option<string>, total: real, products: seq<Item>)

  /** The tables the cart operations read and write. `nextId` is the id the
      cart table gives its next row. */
  datatype Store = Store(carts: seq<Cart>, lines: seq<Line>, nextId: int, products: seq<Product>)

  function IdOf(c: Cart): int { c.id }

  /** The columns `SELECT id FROM cart WHERE customer = ? AND paid = ?` tests. */
  function OwnerOf(c: Cart): (string, bool) { (c.customer, c.paid) }

  /** The columns `WHERE cartId = ? AND model = ?` tests. */
  function LineKey(l: Line): (int, string) { (l.cartId, l.model) }

  function ItemModel(i: Item): string { i.model }

  function ItemOf(l: Line): Item { Item(l.model, l.quantity, l.category, l.price) }

  /** `WHERE customer = u AND paid = 1` */
  function PaidBy(u: string): Cart -> bool { (c: Cart) => c.customer == u && c.paid }

  /** `SET quantity = quantity + d` */
  function AddUnits(d: int): Line -> Line { (l: Line) => l.(quantity := l.quantity + d) }

  /** `SET paid = 1, paymentDate = day` */
  function Pay(day: string): Cart -> Cart { (c: Cart) => c.(paid := true, paymentDate := day) }

  /** At most one unpaid cart per customer. */
  ghost predicate OneOpenCart(carts: seq<Cart>) {
    forall i, j {:trigger carts[i].customer, carts[j].customer} | 0 <= i < j < |carts| && !carts[i].paid && !carts[j].paid ::
      carts[i].customer != carts[j].customer
  }

  /** What the cart DAO keeps true of the tables: ids are unique and below
      the next id, each customer has at most one unpaid cart, and models are
      unique in the products table. */
  ghost predicate Valid(s: Store) {
    && UniqueBy(s.carts, IdOf)
    && (forall i | 0 <= i < |s.carts| :: s.carts[i].id < s.nextId)
    && OneOpenCart(s.carts)
    && UniqueModels(s.products)
  }

  /** getCartProducts (cartDAO.ts:71-86): the lines of cart `id`, in table order. */
  function Items(lines: seq<Line>, id: int): (r: seq<Item>)
    ensures |r| <= |lines|
    ensures forall j | 0 <= j < |lines| && lines[j].cartId == id :: ItemOf(lines[j]) in r
    ensures forall it | it in r :: exists j | 0 <= j < |lines| :: lines[j].cartId == id && ItemOf(lines[j]) == it
  {
    if |lines| == 0 then []
    else
      var init := lines[..|lines| - 1];
      var last := lines[|lines| - 1];
      var r := Items(init, id);
      assert forall j | 0 <= j < |init| :: init[j] == lines[j];
      if last.cartId == id then r + [ItemOf(last)] else r
  }

  /** The Cart object of a cart row: a stored "" payment date reads as null. */
  function View(c: Cart, lines: seq<Line>): CartView {
    CartView(c.customer, c.paid, if c.paymentDate == "" then None else Some(c.paymentDate), c.total, Items(lines, c.id))
  }

  /** getCart (cartDAO.ts:26-48). */
  function GetCart(s: Store, id: int): (r: Result<CartView>)
    ensures r.Err? <==> forall i | 0 <= i < |s.carts| :: s.carts[i].id != id
    ensures r.Err? ==> r.error == CartNotFound
    ensures r.Ok? ==> r.value.products == Items(s.lines, id)
    ensures r.Ok? ==> (r.value.paymentDate.Some? ==> r.value.paymentDate.value != "")
    ensures r.Ok? ==> FindBy(s.carts, IdOf, id).Some?
    ensures r.Ok? ==> (var c := FindBy(s.carts, IdOf, id).value;
      && r.value.customer == c.customer && r.value.paid == c.paid && r.value.total == c.total
      && (r.value.paymentDate.None? <==> c.paymentDate == "")
      && (c.paymentDate != "" ==> r.value.paymentDate == Some(c.paymentDate)))
  {
    match FindBy(s.carts, IdOf, id)
    case None => Err(CartNotFound)
    case Some(c) => Ok(View(c, s.lines))
  }

  /** getUserCartId (cartDAO.ts:55-64): the id of the customer's unpaid cart. */
  function GetUserCartId(s: Store, username: string): (r: Result<int>)
    ensures r.Ok? ==> exists i | 0 <= i < |s.carts| :: s.carts[i] == s.carts[i].(id := r.value, customer := username, paid := false)
    ensures r.Err? <==> forall i | 0 <= i < |s.carts| :: !(s.carts[i].customer == username && !s.carts[i].paid)
    ensures r.Err? ==> r.error == CartNotFound
  {
    match FindBy(s.carts, OwnerOf, (username, false))
    case None => Err(CartNotFound)
    case Some(c) => Ok(c.id)
  }

  /** createEmptyCart (cartDAO.ts:93-106). It rejects with the class
      CartAlreadyExistsError itself, modelled as that error. */
  function CreateEmptyCart(s: Store, username: string): (t: Step<Store, bool>)
    ensures t.result.Err? <==> GetUserCartId(s, username).Ok?
    ensures t.result.Err? ==> t == Step(s, Err(CartAlreadyExists))
    ensures t.result.Ok? ==> t == Step(s.(carts := s.carts + [Cart(s.nextId, username, false, "", 0.0)], nextId := s.nextId + 1), Ok(true))
  {
    if GetUserCartId(s, username).Ok? then Step(s, Err(CartAlreadyExists))
    else Step(s.(carts := s.carts + [Cart(s.nextId, username, false, "", 0.0)], nextId := s.nextId + 1), Ok(true))
  }

  /** getProductInCart (cartDAO.ts:114-123). */
  function GetProductInCart(s: Store, model: string, id: int): (r: Result<Item>)
    ensures r.Ok? ==> exists j | 0 <= j < |s.lines| :: LineKey(s.lines[j]) == (id, model) && ItemOf(s.lines[j]) == r.value
    ensures r.Err? <==> forall j | 0 <= j < |s.lines| :: LineKey(s.lines[j]) != (id, model)
    ensures r.Err? ==> r.error == ProductNotInCart
  {
    match FindBy(s.lines, LineKey, (id, model))
    case None => Err(ProductNotInCart)
    case Some(l) => Ok(ItemOf(l))
  }

  /** increaseProductQuantityInCart (cartDAO.ts:131-139). */
  function IncreaseProductQuantityInCart(s: Store, model: string, id: int): (t: Step<Store, ()>)
    ensures t.result.Ok? && t.state.carts == s.carts && t.state.products == s.products && t.state.nextId == s.nextId
    ensures |t.state.lines| == |s.lines|
  {
    Step(s.(lines := UpdateBy(s.lines, LineKey, (id, model), AddUnits(1))), Ok(()))
  }

  /** insertProductInCart (cartDAO.ts:147-160): a line of one unit that
      copies the product's category and price. */
  function InsertProductInCart(s: Store, p: Product, id: int): (t: Step<Store, bool>)
    ensures t.result == Ok(true) && t.state.carts == s.carts && t.state.products == s.products && t.state.nextId == s.nextId
    ensures |t.state.lines| == |s.lines| + 1 && t.state.lines[..|s.lines|] == s.lines
  {
    Step(s.(lines := s.lines + [Line(id, p.model, 1, p.category, p.sellingPrice)]), Ok(true))
  }

  /** decreaseProductQuantityInCart (cartDAO.ts:223-231). */
  function DecreaseProductQuantityInCart(s: Store, model: string, id: int): (t: Step<Store, ()>)
    ensures t.result.Ok? && t.state.carts == s.carts && t.state.products == s.products && t.state.nextId == s.nextId
    ensures |t.state.lines| == |s.lines|
  {
    Step(s.(lines := UpdateBy(s.lines, LineKey, (id, model), AddUnits(-1))), Ok(()))
  }

  /** removeProductFromCart (cartDAO.ts:239-248). */
  function RemoveProductFromCart(s: Store, model: string, id: int): (t: Step<Store, bool>)
    ensures t.result == Ok(true) && t.state.carts == s.carts && t.state.products == s.products && t.state.nextId == s.nextId
    ensures forall l :: l in t.state.lines <==> l in s.lines && LineKey(l) != (id, model)
  {
    Step(s.(lines := RemoveBy(s.lines, LineKey, (id, model))), Ok(true))
  }

  /** The first loop of checkoutCart (cartDAO.ts:174-177): the first line
      whose product is missing or short of stock, as the error it raises. */
  function Precheck(ps: seq<Product>, orders: seq<Item>): (r: Option<Error>)
    ensures r.Some? ==> r.value == ProductNotFound || r.value == NegativeQuantity
    ensures r.Some? ==> |orders| > 0
  {
    if |orders| == 0 then None
    else match GetProductByModel(ps, orders[0].model)
      case Err(e) => Some(e)
      case Ok(p) => if p.quantity < orders[0].quantity then Some(NegativeQuantity) else Precheck(ps, orders[1..])
  }

  /** The second loop of checkoutCart (cartDAO.ts:179): each line sold, in
      order, through ProductController.sellProduct dated today; the first
      failure stops the loop, and the sales before it stay. */
  function SellAll(ps: seq<Product>, orders: seq<Item>, today: string): (t: Step<seq<Product>, ()>)
    ensures |t.state| == |ps|
    ensures t.result.Err? ==> |orders| > 0
    decreases |orders|
  {
    if |orders| == 0 then Step(ps, Ok(()))
    else
      var sold := ProductService.SellProduct(ps, orders[0].model, orders[0].quantity, Some(today), today);
      if sold.result.Err? then Step(sold.state, Err(sold.result.error))
      else SellAll(sold.state, orders[1..], today)
  }

  /** checkoutCart (cartDAO.ts:167-190). */
  function CheckoutCart(s: Store, id: int, today: string): (t: Step<Store, bool>)
    ensures t.state.lines == s.lines && t.state.nextId == s.nextId
    ensures t.result.Err? ==> t.state.carts == s.carts
  {
    var orders := Items(s.lines, id);
    match Precheck(s.products, orders)
    case Some(e) => Step(s, Err(e))
    case None =>
      var sold := SellAll(s.products, orders, today);
      if sold.result.Err? then Step(s.(products := sold.state), Err(sold.result.error))
      else Step(s.(products := sold.state, carts := UpdateBy(s.carts, IdOf, id, Pay(today))), Ok(true))
  }

  /** The loops of getUserAllPaidCarts and getAllCarts: getCart for each
      selected row in turn, the first rejection rejecting the whole. */
  function CartsOf(s: Store, cs: seq<Cart>): (r: Result<seq<CartView>>)
    ensures r.Err? ==> r.error == CartNotFound
    ensures r.Ok? ==> |r.value| == |cs|
  {
    if |cs| == 0 then Ok([])
    else match CartsOf(s, cs[..|cs| - 1])
      case Err(e) => Err(e)
      case Ok(vs) =>
        match GetCart(s, cs[|cs| - 1].id)
        case Err(e) => Err(e)
        case Ok(v) => Ok(vs + [v])
  }

  /** getUserAllPaidCarts (cartDAO.ts:197-215). */
  function GetUserAllPaidCarts(s: Store, username: string): (r: Result<seq<CartView>>)
    ensures r.Err? ==> r.error == CartNotFound
    ensures r.Ok? ==> |r.value| <= |s.carts|
  {
    CartsOf(s, Filter(s.carts, PaidBy(username)))
  }

  /** getAllCarts (cartDAO.ts:254-272). */
  function GetAllCarts(s: Store): (r: Result<seq<CartView>>)
    ensures r.Err? ==> r.error == CartNotFound
    ensures r.Ok? ==> |r.value| == |s.carts|
  {
    CartsOf(s, s.carts)
  }

  /** The Cart objects of `cs`, in order. */
  function Views(cs: seq<Cart>, lines: seq<Line>): (r: seq<CartView>)
    ensures |r| == |cs|
    ensures forall i | 0 <= i < |cs| :: r[i] == View(cs[i], lines)
  {
    if |cs| == 0 then [] else Views(cs[..|cs| - 1], lines) + [View(cs[|cs| - 1], lines)]
  }

  /** The units of `m` the orders ask for. */
  function Ordered(orders: seq<Item>, m: string): int {
    if |orders| == 0 then 0
    else (if orders[0].model == m then orders[0].quantity else 0) + Ordered(orders[1..], m)
  }

  /** The pre-check passes exactly when every line's product exists with at
      least the line's quantity in stock. */
  lemma {:induction false} PrecheckSpec(ps: seq<Product>, orders: seq<Item>)
    ensures Precheck(ps, orders).None? <==>
      forall i | 0 <= i < |orders| :: StockOf(ps, orders[i].model).Some? && StockOf(ps, orders[i].model).value >= orders[i].quantity
    ensures Precheck(ps, orders).Some? && (forall i | 0 <= i < |orders| :: StockOf(ps, orders[i].model).Some?) ==>
      Precheck(ps, orders) == Some(NegativeQuantity)
    ensures Precheck(ps, orders).Some? ==> Precheck(ps, orders).value in {NegativeQuantity, ProductNotFound}
  {
    if |orders| > 0 {
      PrecheckSpec(ps, orders[1..]);
      assert forall i | 1 <= i < |orders| :: orders[1..][i - 1] == orders[i];
    }
  }

  /** The pre-check depends only on the products the lines name. */
  lemma {:induction false} PrecheckFrame(ps: seq<Product>, ps2: seq<Product>, orders: seq<Item>)
    requires forall i | 0 <= i < |orders| :: GetProductByModel(ps2, orders[i].model) == GetProductByModel(ps, orders[i].model)
    ensures Precheck(ps2, orders) == Precheck(ps, orders)
  {
    if |orders| > 0 {
      assert forall i | 0 <= i < |orders[1..]| :: orders[1..][i] == orders[i + 1];
      PrecheckFrame(ps, ps2, orders[1..]);
    }
  }

  /** A commit loop that completes has taken from each model exactly the units
      the lines ask for, and from no other model. */
  lemma {:induction false} SellAllStock(ps: seq<Product>, orders: seq<Item>, today: string, m: string)
    requires SellAll(ps, orders, today).result.Ok?
    ensures StockOf(SellAll(ps, orders, today).state, m).Some? == StockOf(ps, m).Some?
    ensures StockOf(ps, m).Some? ==>
      StockOf(SellAll(ps, orders, today).state, m).value == StockOf(ps, m).value - Ordered(orders, m)
    decreases |orders|
  {
    if |orders| > 0 {
      var o := orders[0];
      var sold := ProductService.SellProduct(ps, o.model, o.quantity, Some(today), today);
      assert sold.result.Ok? && SellAll(ps, orders, today) == SellAll(sold.state, orders[1..], today);
      SellSpec(ps, o.model, o.quantity, m);
      SellAllStock(sold.state, orders[1..], today, m);
    }
  }

  /** The commit loop cannot fail once the pre-check has passed, provided the
      lines name distinct models with at least one unit each, models are
      unique in the products table, and no product arrived after today: each
      sale then finds its product with enough stock, and a sale never touches
      the stock of another line's model. */
  lemma {:induction false} CommitCannotFail(ps: seq<Product>, orders: seq<Item>, today: string)
    requires UniqueModels(ps) && ProductService.ArrivedBy(ps, today)
    requires UniqueBy(orders, ItemModel)
    requires forall i | 0 <= i < |orders| :: orders[i].quantity >= 1
    requires Precheck(ps, orders).None?
    ensures SellAll(ps, orders, today).result.Ok?
    ensures UniqueModels(SellAll(ps, orders, today).state)
    decreases |orders|
  {
    if |orders| > 0 {
      var o := orders[0];
      ProductService.SellTodayIsDaoSell(ps, o.model, o.quantity, today);
      var sold := ProductService.SellProduct(ps, o.model, o.quantity, Some(today), today);
      assert sold.result.Ok?;
      ProductService.StockChangesKeepArrived(ps, o.model, o.quantity, Some(today), today, today);
      UniqueTail(orders, ItemModel);
      forall i | 0 <= i < |orders[1..]|
        ensures GetProductByModel(sold.state, orders[1..][i].model) == GetProductByModel(ps, orders[1..][i].model)
      {
        assert orders[1..][i] == orders[i + 1];
        assert ItemModel(orders[0]) != ItemModel(orders[i + 1]);
        SellSpec(ps, o.model, o.quantity, orders[1..][i].model);
      }
      PrecheckFrame(ps, sold.state, orders[1..]);
      CommitCannotFail(sold.state, orders[1..], today);
    }
  }

  /** With distinct models, the units asked of a line's model are that line's
      quantity, and a model no line names is asked nothing. */
  lemma {:induction false} OrderedUnique(orders: seq<Item>, i: int, m: string)
    requires UniqueBy(orders, ItemModel)
    ensures 0 <= i < |orders| ==> Ordered(orders, orders[i].model) == orders[i].quantity
    ensures (forall j | 0 <= j < |orders| :: orders[j].model != m) ==> Ordered(orders, m) == 0
  {
    if |orders| > 0 {
      UniqueTail(orders, ItemModel);
      OrderedUnique(orders[1..], i - 1, m);
      OrderedUnique(orders[1..], -1, orders[0].model);
      assert forall j | 0 <= j < |orders[1..]| :: orders[1..][j] == orders[j + 1];
      assert forall j | 1 <= j < |orders| :: ItemModel(orders[0]) != ItemModel(orders[j]);
    }
  }

  /** The lines of one cart name distinct models once the line table has one
      row per (cart, model). */
  lemma {:induction false} ItemsUnique(lines: seq<Line>, id: int)
    requires UniqueBy(lines, LineKey)
    ensures UniqueBy(Items(lines, id), ItemModel)
  {
    if |lines| > 0 {
      var init := lines[..|lines| - 1];
      var last := lines[|lines| - 1];
      assert UniqueBy(init, LineKey) by {
        forall a, b | 0 <= a < b < |init| ensures LineKey(init[a]) != LineKey(init[b]) {
          assert init[a] == lines[a] && init[b] == lines[b];
        }
      }
      ItemsUnique(init, id);
      if last.cartId == id {
        var r := Items(init, id);
        forall it | it in r ensures it.model != last.model {
          var j :| 0 <= j < |init| && init[j].cartId == id && ItemOf(init[j]) == it;
          assert init[j] == lines[j];
          assert LineKey(lines[j]) != LineKey(last);
        }
        var r2 := r + [ItemOf(last)];
        forall a, b | 0 <= a < b < |r2| ensures ItemModel(r2[a]) != ItemModel(r2[b]) {
          if b == |r| {
            assert r2[a] == r[a] && r[a] in r;
          } else {
            assert r2[a] == r[a] && r2[b] == r[b];
          }
        }
      }
    }
  }

  /** A pre-check that fails ends the checkout with that error before any
      sale: products, carts and lines are as they were, so the cart stays
      unpaid. If every line's product exists, the error is NegativeQuantity. */
  lemma CheckoutShortOfStock(s: Store, id: int, today: string, i: int)
    requires 0 <= i < |Items(s.lines, id)|
    requires var o := Items(s.lines, id)[i]; StockOf(s.products, o.model).Some? ==> StockOf(s.products, o.model).value < o.quantity
    ensures Precheck(s.products, Items(s.lines, id)).Some?
    ensures CheckoutCart(s, id, today) == Step(s, Err(Precheck(s.products, Items(s.lines, id)).value))
    ensures CheckoutCart(s, id, today).result.error in {NegativeQuantity, ProductNotFound}
    ensures (forall j | 0 <= j < |Items(s.lines, id)| :: StockOf(s.products, Items(s.lines, id)[j].model).Some?) ==>
      CheckoutCart(s, id, today).result == Err(NegativeQuantity)
  {
    PrecheckSpec(s.products, Items(s.lines, id));
  }

  /** A checkout whose pre-check passes, over lines of distinct models with
      at least one unit each and products that arrived by today, succeeds:
      each line's product loses exactly the line's quantity, every other
      product keeps its stock, the cart becomes paid on today's date, and the
      tables stay valid; every other cart is left as it was. */
  lemma CheckoutSucceeds(s: Store, id: int, today: string, m: string)
    requires Valid(s) && ProductService.ArrivedBy(s.products, today)
    requires UniqueBy(Items(s.lines, id), ItemModel)
    requires forall i | 0 <= i < |Items(s.lines, id)| :: Items(s.lines, id)[i].quantity >= 1
    requires Precheck(s.products, Items(s.lines, id)).None?
    ensures var t := CheckoutCart(s, id, today);
      && t.result == Ok(true)
      && Valid(t.state)
      && StockOf(t.state.products, m).Some? == StockOf(s.products, m).Some?
      && (StockOf(s.products, m).Some? ==>
           StockOf(t.state.products, m).value == StockOf(s.products, m).value - Ordered(Items(s.lines, id), m))
      && FindBy(t.state.carts, IdOf, id) ==
           (match FindBy(s.carts, IdOf, id) case None => None case Some(c) => Some(c.(paid := true, paymentDate := today)))
      && |t.state.carts| == |s.carts|
      && (forall i | 0 <= i < |s.carts| && s.carts[i].id != id :: t.state.carts[i] == s.carts[i])
      && (forall k | k != id :: FindBy(t.state.carts, IdOf, k) == FindBy(s.carts, IdOf, k))
  {
    var orders := Items(s.lines, id);
    CommitCannotFail(s.products, orders, today);
    SellAllStock(s.products, orders, today, m);
    var t := CheckoutCart(s, id, today);
    var f := Pay(today);
    assert KeepsKey(IdOf, f) by {
      forall c ensures IdOf(f(c)) == IdOf(c) { assert f(c).id == c.id; }
    }
    FindUpdate(s.carts, IdOf, id, f, id);
    forall k | k != id ensures FindBy(t.state.carts, IdOf, k) == FindBy(s.carts, IdOf, k) {
      FindUpdate(s.carts, IdOf, id, f, k);
    }
    UpdateKeepsUnique(s.carts, IdOf, id, f);
    var cs := t.state.carts;
    forall i, j | 0 <= i < j < |cs| && !cs[i].paid && !cs[j].paid ensures cs[i].customer != cs[j].customer {
      assert cs[i] == s.carts[i] && cs[j] == s.carts[j];
    }
    forall i | 0 <= i < |cs| ensures cs[i].id < t.state.nextId {
      assert cs[i].id == s.carts[i].id;
    }
  }

  /** A new cart is the customer's unpaid cart, with the next id, no payment
      date, a zero total and no lines; the tables stay valid and at most one
      unpaid cart per customer is kept. */
  lemma CreateEmptyCartSpec(s: Store, username: string)
    requires Valid(s)
    requires forall j | 0 <= j < |s.lines| :: s.lines[j].cartId < s.nextId
    requires CreateEmptyCart(s, username).result.Ok?
    ensures var t := CreateEmptyCart(s, username).state;
      && Valid(t)
      && GetUserCartId(t, username) == Ok(s.nextId)
      && GetCart(t, s.nextId) == Ok(CartView(username, false, None, 0.0, []))
  {
    var c := Cart(s.nextId, username, false, "", 0.0);
    var t := CreateEmptyCart(s, username).state;
    assert t.carts == s.carts + [c] && t.nextId == s.nextId + 1 && t.lines == s.lines;
    assert FindBy(s.carts, IdOf, c.id).None?;
    AppendKeepsUnique(s.carts, IdOf, c);
    forall i | 0 <= i < |t.carts| ensures t.carts[i].id < t.nextId {
      if i < |s.carts| {
        assert t.carts[i] == s.carts[i];
      }
    }
    assert GetUserCartId(s, username).Err?;
    forall i, j | 0 <= i < j < |t.carts| && !t.carts[i].paid && !t.carts[j].paid ensures t.carts[i].customer != t.carts[j].customer {
      if j == |s.carts| {
        assert t.carts[i] == s.carts[i];
      } else {
        assert t.carts[i] == s.carts[i] && t.carts[j] == s.carts[j];
      }
    }
    assert Valid(t);
    FindAppend(s.carts, OwnerOf, c, (username, false));
    assert GetUserCartId(t, username) == Ok(s.nextId);
    FindAppend(s.carts, IdOf, c, c.id);
    ItemsNone(s.lines, s.nextId);
  }

  /** A new line holds one unit, the product's category and its price, and
      every other line is found as before. */
  lemma InsertSpec(s: Store, p: Product, id: int, key: (int, string))
    requires GetProductInCart(s, p.model, id).Err?
    ensures var t := InsertProductInCart(s, p, id).state;
      && GetProductInCart(t, p.model, id) == Ok(Item(p.model, 1, p.category, p.sellingPrice))
      && (key != (id, p.model) ==> FindBy(t.lines, LineKey, key) == FindBy(s.lines, LineKey, key))
      && t.carts == s.carts && t.products == s.products
  {
    var l := Line(id, p.model, 1, p.category, p.sellingPrice);
    FindAppend(s.lines, LineKey, l, (id, p.model));
    FindAppend(s.lines, LineKey, l, key);
  }

  /** Increasing changes only the (cart, model) line, by exactly one unit;
      carts and products are untouched. */
  lemma IncreaseSpec(s: Store, model: string, id: int, key: (int, string))
    ensures var t := IncreaseProductQuantityInCart(s, model, id).state;
      t.carts == s.carts && t.products == s.products
    ensures var t := IncreaseProductQuantityInCart(s, model, id).state;
      FindBy(t.lines, LineKey, key).Some? == FindBy(s.lines, LineKey, key).Some?
    ensures var t := IncreaseProductQuantityInCart(s, model, id).state;
      FindBy(s.lines, LineKey, key).Some? ==>
        var l := FindBy(s.lines, LineKey, key).value;
        FindBy(t.lines, LineKey, key).value == if key == (id, model) then l.(quantity := l.quantity + 1) else l
  {
    var f := AddUnits(1);
    assert KeepsKey(LineKey, f) by {
      forall l ensures LineKey(f(l)) == LineKey(l) { assert f(l).model == l.model; }
    }
    FindUpdate(s.lines, LineKey, (id, model), f, key);
    var found := FindBy(s.lines, LineKey, key);
    if found.Some? {
      assert f(found.value) == found.value.(quantity := found.value.quantity + 1);
    }
  }

  /** Decreasing changes only the (cart, model) line, by exactly one unit;
      carts and products are untouched. */
  lemma DecreaseSpec(s: Store, model: string, id: int, key: (int, string))
    ensures var t := DecreaseProductQuantityInCart(s, model, id).state;
      t.carts == s.carts && t.products == s.products
    ensures var t := DecreaseProductQuantityInCart(s, model, id).state;
      FindBy(t.lines, LineKey, key).Some? == FindBy(s.lines, LineKey, key).Some?
    ensures var t := DecreaseProductQuantityInCart(s, model, id).state;
      FindBy(s.lines, LineKey, key).Some? ==>
        var l := FindBy(s.lines, LineKey, key).value;
        FindBy(t.lines, LineKey, key).value == if key == (id, model) then l.(quantity := l.quantity - 1) else l
  {
    var f := AddUnits(-1);
    assert KeepsKey(LineKey, f) by {
      forall l ensures LineKey(f(l)) == LineKey(l) { assert f(l).model == l.model; }
    }
    FindUpdate(s.lines, LineKey, (id, model), f, key);
    var found := FindBy(s.lines, LineKey, key);
    if found.Some? {
      assert f(found.value) == found.value.(quantity := found.value.quantity - 1);
    }
  }

  /** Removing deletes only the (cart, model) line, whatever its quantity;
      carts and products are untouched. */
  lemma RemoveSpec(s: Store, model: string, id: int, key: (int, string))
    ensures var t := RemoveProductFromCart(s, model, id).state;
      && FindBy(t.lines, LineKey, key) == (if key == (id, model) then None else FindBy(s.lines, LineKey, key))
      && t.carts == s.carts && t.products == s.products
  {
    FindRemove(s.lines, LineKey, (id, model), key);
  }

  /** A cart no line belongs to has no products. */
  lemma {:induction false} ItemsNone(lines: seq<Line>, id: int)
    requires forall j | 0 <= j < |lines| :: lines[j].cartId != id
    ensures Items(lines, id) == []
  {
    if |lines| > 0 {
      ItemsNone(lines[..|lines| - 1], id);
    }
  }

  /** With unique ids, reading each selected row back by id gives its own Cart object. */
  lemma {:induction false} CartsOfRows(s: Store, cs: seq<Cart>)
    requires UniqueBy(s.carts, IdOf)
    requires forall i | 0 <= i < |cs| :: cs[i] in s.carts
    ensures CartsOf(s, cs) == Ok(Views(cs, s.lines))
  {
    if |cs| > 0 {
      var init := cs[..|cs| - 1];
      var last := cs[|cs| - 1];
      assert forall i | 0 <= i < |init| :: init[i] == cs[i];
      CartsOfRows(s, init);
      var k :| 0 <= k < |s.carts| && s.carts[k] == last;
      FindUnique(s.carts, IdOf, k);
    }
  }

  /** getUserAllPaidCarts returns the Cart objects of exactly the user's paid
      carts, in table order. */
  lemma PaidCartsSpec(s: Store, username: string)
    requires Valid(s)
    ensures var r := GetUserAllPaidCarts(s, username);
      && r == Ok(Views(Filter(s.carts, PaidBy(username)), s.lines))
      && (forall i | 0 <= i < |r.value| :: r.value[i].customer == username && r.value[i].paid)
      && (forall c | c in s.carts && c.customer == username && c.paid :: View(c, s.lines) in r.value)
  {
    var cs := Filter(s.carts, PaidBy(username));
    CartsOfRows(s, cs);
    var vs := Views(cs, s.lines);
    forall i | 0 <= i < |vs| ensures vs[i].customer == username && vs[i].paid {
      assert cs[i] in cs;
      assert PaidBy(username)(cs[i]);
    }
    forall c | c in s.carts && c.customer == username && c.paid ensures View(c, s.lines) in vs {
      assert PaidBy(username)(c);
      var i :| 0 <= i < |cs| && cs[i] == c;
      assert vs[i] == View(c, s.lines);
    }
  }

  /** getAllCarts returns the Cart object of every cart, in table order. */
  lemma AllCartsSpec(s: Store)
    requires Valid(s)
    ensures GetAllCarts(s) == Ok(Views(s.carts, s.lines))
  {
    CartsOfRows(s, s.carts);
  }
}

/** The class CartDAO of cartDAO.ts, owning the cart and productincart
    tables. Its checkout sells through the ProductController it is given,
    whose DAO owns the products table. */
module CartDAO {
  import opened Errors
  import opened Results
  import opened Tables
  import opened ProductStore
  import opened CartStore
  import ProductService
  import ProductController

  class CartDAO {
    var carts: seq<Cart>
    var lines: seq<Line>
    var nextId: int
    const productController: ProductController.ProductController

    /** The tables this DAO reads and writes. */
    function State(): Store
      reads this, productController.dao
    {
      Store(carts, lines, nextId, productController.dao.products)
    }

    ghost predicate Valid()
      reads this, productController.dao
    {
      CartStore.Valid(State())
    }

    constructor(productController: ProductController.ProductController)
      requires productController.dao.Valid()
      ensures this.productController == productController
      ensures Valid() && carts == [] && lines == []
    {
      this.productController := productController;
      carts := [];
      lines := [];
      nextId := 1;
    }

    /** getCartProducts: one ProductInCart per selected row. */
    method GetCartProducts(id: int) returns (r: seq<Item>)
      ensures r == Items(lines, id)
    {
      r := [];
      var i := 0;
      while i < |lines|
        invariant 0 <= i <= |lines|
        invariant r == Items(lines[..i], id)
      {
        assert lines[..i + 1][..i] == lines[..i];
        if lines[i].cartId == id {
          r := r + [ItemOf(lines[i])];
        }
        i := i + 1;
      }
      assert lines[..|lines|] == lines;
    }

    /** getCart: the row by id, then its lines. */
    method GetCart(id: int) returns (r: Result<CartView>)
      ensures r == CartStore.GetCart(State(), id)
    {
      var row := FindBy(carts, IdOf, id);
      if row.None? {
        return Err(CartNotFound);
      }
      var vec := GetCartProducts(id);
      var c := row.value;
      r := Ok(CartView(c.customer, c.paid, if c.paymentDate == "" then None else Some(c.paymentDate), c.total, vec));
    }

    /** getUserCartId: `db.get` of the customer's unpaid cart. */
    method GetUserCartId(username: string) returns (r: Result<int>)
      ensures r == CartStore.GetUserCartId(State(), username)
    {
      var row := FindBy(carts, OwnerOf, (username, false));
      if row.None? {
        return Err(CartNotFound);
      }
      r := Ok(row.value.id);
    }

    /** getProductInCart: `db.get` of the (cart, model) line. */
    method GetProductInCart(model: string, id: int) returns (r: Result<Item>)
      ensures r == CartStore.GetProductInCart(State(), model, id)
    {
      var row := FindBy(lines, LineKey, (id, model));
      if row.None? {
        return Err(ProductNotInCart);
      }
      r := Ok(ItemOf(row.value));
    }

    /** The loop of getUserAllPaidCarts and getAllCarts over the selected rows. */
    method ReadCarts(cs: seq<Cart>) returns (r: Result<seq<CartView>>)
      ensures r == CartsOf(State(), cs)
    {
      var views: seq<CartView> := [];
      var i := 0;
      while i < |cs|
        invariant 0 <= i <= |cs|
        invariant CartsOf(State(), cs[..i]) == Ok(views)
      {
        assert cs[..i + 1][..i] == cs[..i];
        var v := GetCart(cs[i].id);
        if v.Err? {
          CartsOfStops(State(), cs, i + 1);
          return Err(v.error);
        }
        views := views + [v.value];
        i := i + 1;
      }
      assert cs[..|cs|] == cs;
      r := Ok(views);
    }

    method GetUserAllPaidCarts(username: string) returns (r: Result<seq<CartView>>)
      ensures r == CartStore.GetUserAllPaidCarts(State(), username)
    {
      r := ReadCarts(Filter(carts, PaidBy(username)));
    }

    method GetAllCarts() returns (r: Result<seq<CartView>>)
      ensures r == CartStore.GetAllCarts(State())
    {
      r := ReadCarts(carts);
    }

    /** createEmptyCart: looks for an unpaid cart, then inserts one. */
    method CreateEmptyCart(username: string) returns (r: Result<bool>)
      requires Valid()
      modifies this
      ensures Valid()
      ensures Step(State(), r) == CartStore.CreateEmptyCart(old(State()), username)
    {
      if FindBy(carts, OwnerOf, (username, false)).Some? {
        return Err(CartAlreadyExists);
      }
      CreateKeepsValid(State(), username);
      carts := carts + [Cart(nextId, username, false, "", 0.0)];
      nextId := nextId + 1;
      r := Ok(true);
    }

    method IncreaseProductQuantityInCart(model: string, id: int)
      modifies this
      ensures carts == old(carts) && nextId == old(nextId)
      ensures State() == CartStore.IncreaseProductQuantityInCart(old(State()), model, id).state
    {
      lines := UpdateBy(lines, LineKey, (id, model), AddUnits(1));
    }

    method InsertProductInCart(p: Product, id: int) returns (r: Result<bool>)
      modifies this
      ensures carts == old(carts) && nextId == old(nextId)
      ensures Step(State(), r) == CartStore.InsertProductInCart(old(State()), p, id)
    {
      lines := lines + [Line(id, p.model, 1, p.category, p.sellingPrice)];
      r := Ok(true);
    }

    method DecreaseProductQuantityInCart(model: string, id: int)
      modifies this
      ensures carts == old(carts) && nextId == old(nextId)
      ensures State() == CartStore.DecreaseProductQuantityInCart(old(State()), model, id).state
    {
      lines := UpdateBy(lines, LineKey, (id, model), AddUnits(-1));
    }

    method RemoveProductFromCart(model: string, id: int) returns (r: Result<bool>)
      modifies this
      ensures carts == old(carts) && nextId == old(nextId)
      ensures Step(State(), r) == CartStore.RemoveProductFromCart(old(State()), model, id)
    {
      lines := RemoveBy(lines, LineKey, (id, model));
      r := Ok(true);
    }

    /** checkoutCart: reads the lines, checks every one against the stock,
        sells every one, then marks the cart paid today. */
    method CheckoutCart(id: int, today: string) returns (r: Result<bool>)
      requires Valid()
      modifies this, productController.dao
      ensures Valid()
      ensures Step(State(), r) == CartStore.CheckoutCart(old(State()), id, today)
    {
      var orders := GetCartProducts(id);
      var ps := productController.dao.products;
      var i := 0;
      while i < |orders|
        invariant 0 <= i <= |orders|
        invariant Precheck(ps, orders) == Precheck(ps, orders[i..])
      {
        assert orders[i..][1..] == orders[i + 1..];
        var product := GetProductByModel(ps, orders[i].model);
        if product.Err? {
          return Err(product.error);
        }
        if product.value.quantity < orders[i].quantity {
          return Err(NegativeQuantity);
        }
        i := i + 1;
      }
      i := 0;
      while i < |orders|
        invariant 0 <= i <= |orders|
        invariant productController.dao.Valid()
        invariant carts == old(carts) && lines == old(lines) && nextId == old(nextId)
        invariant SellAll(ps, orders, today) == SellAll(productController.dao.products, orders[i..], today)
      {
        assert orders[i..][1..] == orders[i + 1..];
        var sold := productController.SellProduct(orders[i].model, orders[i].quantity, Some(today), today);
        if sold.Err? {
          return Err(sold.error);
        }
        i := i + 1;
      }
      PayKeepsValid(State(), id, today);
      carts := UpdateBy(carts, IdOf, id, Pay(today));
      r := Ok(true);
    }

    /** deleteAllCarts: `DELETE FROM cart`; the lines stay. */
    method DeleteAllCarts() returns (r: Result<bool>)
      requires Valid()
      modifies this
      ensures Valid()
      ensures carts == [] && lines == old(lines) && nextId == old(nextId) && r == Ok(true)
    {
      carts := [];
      r := Ok(true);
    }

    /** deleteAllProductsInCarts: `DELETE FROM productincart`. */
    method DeleteAllProductsInCarts() returns (r: Result<bool>)
      requires Valid()
      modifies this
      ensures Valid()
      ensures lines == [] && carts == old(carts) && nextId == old(nextId) && r == Ok(true)
    {
      lines := [];
      r := Ok(true);
    }
  }

  /** A getCart that rejects on the last of the first `n` rows rejects the loop. */
  lemma CartsOfStops(s: Store, cs: seq<Cart>, n: int)
    requires 0 < n <= |cs|
    requires CartsOf(s, cs[..n - 1]).Ok? && CartStore.GetCart(s, cs[n - 1].id).Err?
    ensures CartsOf(s, cs) == Err(CartStore.GetCart(s, cs[n - 1].id).error)
  {
    assert cs[..n][..n - 1] == cs[..n - 1];
    CartsOfErrPersists(s, cs, n);
  }

  /** Once the loop over a prefix rejects, the loop over the whole rejects the same way. */
  lemma {:induction false} CartsOfErrPersists(s: Store, cs: seq<Cart>, n: int)
    requires 0 <= n <= |cs|
    requires CartsOf(s, cs[..n]).Err?
    ensures CartsOf(s, cs) == CartsOf(s, cs[..n])
    decreases |cs| - n
  {
    if n < |cs| {
      assert cs[..n + 1][..n] == cs[..n];
      CartsOfErrPersists(s, cs, n + 1);
    } else {
      assert cs[..n] == cs;
    }
  }

  lemma CreateKeepsValid(s: Store, username: string)
    requires CartStore.Valid(s) && GetUserCartId(s, username).Err?
    ensures CartStore.Valid(CartStore.CreateEmptyCart(s, username).state)
  {
    var c := Cart(s.nextId, username, false, "", 0.0);
    var t := CartStore.CreateEmptyCart(s, username).state;
    AppendKeepsUnique(s.carts, IdOf, c);
    forall i, j | 0 <= i < j < |t.carts| && !t.carts[i].paid && !t.carts[j].paid ensures t.carts[i].customer != t.carts[j].customer {
      if j == |s.carts| {
        assert t.carts[i] == s.carts[i];
      } else {
        assert t.carts[i] == s.carts[i] && t.carts[j] == s.carts[j];
      }
    }
  }

  lemma PayKeepsValid(s: Store, id: int, today: string)
    requires CartStore.Valid(s)
    ensures CartStore.Valid(s.(carts := UpdateBy(s.carts, IdOf, id, Pay(today))))
  {
    var f := Pay(today);
    assert KeepsKey(IdOf, f) by {
      forall c ensures IdOf(f(c)) == IdOf(c) { assert f(c).id == c.id; }
    }
    UpdateKeepsUnique(s.carts, IdOf, id, f);
    var cs := UpdateBy(s.carts, IdOf, id, f);
    forall i, j | 0 <= i < j < |cs| && !cs[i].paid && !cs[j].paid ensures cs[i].customer != cs[j].customer {
      assert cs[i] == s.carts[i] && cs[j] == s.carts[j];
    }
    forall i | 0 <= i < |cs| ensures cs[i].id < s.nextId {
      assert cs[i].id == s.carts[i].id;
    }
  }
}
