/**
 * productDAO.ts: the products table, keyed by model, and the statements
 * ProductDAO runs on it. The pure functions are what each DAO method does to
 * the table and what its promise settles with; the class ProductDAO owns the
 * table and performs the same steps in place.
 */
module ProductStore {
  import opened Errors
  import opened Results
  import opened Tables
  import Text

  /** A row of the products table. `arrivalDate` and `details` may be null. */
  datatype Product = Product(
    sellingPrice: real,
    model: string,
    category: string,
    arrivalDate: Option<string>,
    details: Option<string>,
    quantity: int)

  function ModelOf(p: Product): string { p.model }

  /** `WHERE model = m` */
  function HasModel(m: string): Product -> bool { (p: Product) => p.model == m }

  /** `WHERE category = c` */
  function HasCategory(c: string): Product -> bool { (p: Product) => p.category == c }

  /** `WHERE quantity > 0` */
  predicate InStock(p: Product) { p.quantity > 0 }

  /** `SET quantity = n` */
  function WithQuantity(n: int): Product -> Product { (p: Product) => p.(quantity := n) }

  /** `SET quantity = quantity - n` */
  function Reduce(n: int): Product -> Product { (p: Product) => p.(quantity := p.quantity - n) }

  /** No two rows describe the same model. */
  ghost predicate UniqueModels(ps: seq<Product>) {
    UniqueBy(ps, ModelOf)
  }

  /** The stock a lookup of `model` reports, if the model exists. */
  function StockOf(ps: seq<Product>, model: string): Option<int> {
    match GetProductByModel(ps, model)
    case Err(_) => None
    case Ok(p) => Some(p.quantity)
  }

  /** getProductByModel (productDAO.ts:248-257). */
  function GetProductByModel(ps: seq<Product>, model: string): (r: Result<Product>)
    ensures r.Ok? ==> r.value in ps && r.value.model == model
    ensures r.Err? <==> forall i | 0 <= i < |ps| :: ps[i].model != model
    ensures r.Err? ==> r.error == ProductNotFound
  {
    match FindBy(ps, ModelOf, model)
    case None => Err(ProductNotFound)
    case Some(p) => Ok(p)
  }

  /** registerProduct (productDAO.ts:24-44). */
  function RegisterProduct(ps: seq<Product>, p: Product): (s: Step<seq<Product>, ()>)
    ensures s.result.Err? <==> exists i | 0 <= i < |ps| :: ps[i].model == p.model
    ensures s.result.Err? ==> s == Step(ps, Err(ProductAlreadyExists))
    ensures s.result.Ok? ==> s.state == ps + [p]
  {
    if FindBy(ps, ModelOf, p.model).Some? then Step(ps, Err(ProductAlreadyExists))
    else Step(ps + [p], Ok(()))
  }

  /** changeProductQuantity (productDAO.ts:52-79): adds `quantity` units. */
  function ChangeProductQuantity(ps: seq<Product>, model: string, quantity: int): (s: Step<seq<Product>, int>)
    ensures s.result.Err? ==> s.state == ps
    ensures s.result.Ok? ==> s.result.value >= 0
    ensures |s.state| == |ps|
  {
    match FindBy(ps, ModelOf, model)
    case None => Step(ps, Err(ProductNotFound))
    case Some(p) =>
      if quantity < 0 || p.quantity + quantity < 0 then Step(ps, Err(InvalidQuantity))
      else Step(UpdateBy(ps, ModelOf, model, WithQuantity(p.quantity + quantity)), Ok(p.quantity + quantity))
  }

  /** sellProduct (productDAO.ts:87-111): removes `quantity` units. */
  function SellProduct(ps: seq<Product>, model: string, quantity: int): (s: Step<seq<Product>, int>)
    ensures s.result.Err? ==> s.state == ps
    ensures s.result.Ok? ==> s.result.value >= 0
    ensures |s.state| == |ps|
  {
    if quantity <= 0 then Step(ps, Err(InvalidQuantity))
    else match FindBy(ps, ModelOf, model)
      case None => Step(ps, Err(ProductNotFound))
      case Some(p) =>
        if p.quantity < quantity then Step(ps, Err(LowProductStock))
        else Step(UpdateBy(ps, ModelOf, model, Reduce(quantity)), Ok(p.quantity - quantity))
  }

  /** The `WHERE` clause getProducts adds: only when the grouping names it and
      its value is present (productDAO.ts:121-127). */
  function GetProducts(ps: seq<Product>, grouping: Option<string>, category: Option<string>, model: Option<string>): (r: seq<Product>)
    ensures |r| <= |ps|
    ensures forall p | p in r :: p in ps
  {
    if grouping == Some("category") && Text.Truthy(category) then Filter(ps, HasCategory(category.value))
    else if grouping == Some("model") && Text.Truthy(model) then Filter(ps, HasModel(model.value))
    else ps
  }

  /** getAvailableProducts (productDAO.ts:152-198): products in stock, with
      the model grouping first checking that the model exists at all. */
  function GetAvailableProducts(ps: seq<Product>, grouping: Option<string>, category: Option<string>, model: Option<string>): (r: Result<seq<Product>>)
    ensures r.Err? ==> r.error == ProductNotFound
    ensures r.Ok? ==> |r.value| <= |ps| && forall p | p in r.value :: p in ps && p.quantity > 0
  {
    var available := Filter(ps, InStock);
    if grouping == Some("category") && Text.Truthy(category) then Ok(Filter(available, HasCategory(category.value)))
    else if grouping == Some("model") && Text.Truthy(model) then
      if |Filter(ps, HasModel(model.value))| == 0 then Err(ProductNotFound)
      else Ok(Filter(available, HasModel(model.value)))
    else Ok(available)
  }

  /** deleteProduct (productDAO.ts:221-246). */
  function DeleteProduct(ps: seq<Product>, model: string): (s: Step<seq<Product>, ()>)
    ensures s.result.Err? ==> s == Step(ps, Err(ProductNotFound))
    ensures |s.state| <= |ps|
  {
    if FindBy(ps, ModelOf, model).None? then Step(ps, Err(ProductNotFound))
    else Step(RemoveBy(ps, ModelOf, model), Ok(()))
  }

  lemma KeepsModel(f: Product -> Product)
    requires forall p :: f(p).model == p.model
    ensures KeepsKey(ModelOf, f)
  {
    forall p ensures ModelOf(f(p)) == ModelOf(p) {
      assert f(p).model == p.model;
    }
  }

  /** After a registration the new model is found as registered, every other
      model is found as before, and models stay unique. */
  lemma RegisterThenGet(ps: seq<Product>, p: Product, m: string)
    requires UniqueModels(ps)
    requires RegisterProduct(ps, p).result.Ok?
    ensures UniqueModels(RegisterProduct(ps, p).state)
    ensures GetProductByModel(RegisterProduct(ps, p).state, p.model) == Ok(p)
    ensures m != p.model ==> GetProductByModel(RegisterProduct(ps, p).state, m) == GetProductByModel(ps, m)
  {
    AppendKeepsUnique(ps, ModelOf, p);
    FindAppend(ps, ModelOf, p, p.model);
    FindAppend(ps, ModelOf, p, m);
  }

  /** changeProductQuantity: an unknown model is ProductNotFound; a negative
      argument or a negative result is InvalidQuantity; otherwise the stock
      becomes and is reported as current + quantity, and no other model's row
      changes. */
  lemma ChangeQuantitySpec(ps: seq<Product>, model: string, quantity: int, other: string)
    ensures StockOf(ps, model).None? ==>
      ChangeProductQuantity(ps, model, quantity) == Step(ps, Err(ProductNotFound))
    ensures StockOf(ps, model).Some? && (quantity < 0 || StockOf(ps, model).value + quantity < 0) ==>
      ChangeProductQuantity(ps, model, quantity) == Step(ps, Err(InvalidQuantity))
    ensures StockOf(ps, model).Some? && quantity >= 0 && StockOf(ps, model).value + quantity >= 0 ==>
      var s := ChangeProductQuantity(ps, model, quantity);
      s.result == Ok(StockOf(ps, model).value + quantity) && StockOf(s.state, model) == Some(s.result.value)
    ensures other != model ==>
      GetProductByModel(ChangeProductQuantity(ps, model, quantity).state, other) == GetProductByModel(ps, other)
  {
    var found := FindBy(ps, ModelOf, model);
    if found.Some? {
      var f := WithQuantity(found.value.quantity + quantity);
      KeepsModel(f);
      FindUpdate(ps, ModelOf, model, f, model);
      FindUpdate(ps, ModelOf, model, f, other);
    }
  }

  /** sellProduct: quantity <= 0 is InvalidQuantity before any lookup; an
      unknown model is ProductNotFound; a stock below the quantity is
      LowProductStock with the table unchanged; otherwise the stock drops by
      exactly the quantity, that value is returned, and no other model's row
      changes. */
  lemma SellSpec(ps: seq<Product>, model: string, quantity: int, other: string)
    ensures quantity <= 0 ==> SellProduct(ps, model, quantity) == Step(ps, Err(InvalidQuantity))
    ensures quantity > 0 && StockOf(ps, model).None? ==>
      SellProduct(ps, model, quantity) == Step(ps, Err(ProductNotFound))
    ensures quantity > 0 && StockOf(ps, model).Some? && StockOf(ps, model).value < quantity ==>
      SellProduct(ps, model, quantity) == Step(ps, Err(LowProductStock))
    ensures quantity > 0 && StockOf(ps, model).Some? && StockOf(ps, model).value >= quantity ==>
      var s := SellProduct(ps, model, quantity);
      s.result == Ok(StockOf(ps, model).value - quantity) && StockOf(s.state, model) == Some(s.result.value)
    ensures other != model ==>
      GetProductByModel(SellProduct(ps, model, quantity).state, other) == GetProductByModel(ps, other)
  {
    if quantity > 0 {
      match FindBy(ps, ModelOf, model)
      case None =>
      case Some(p) =>
        var f := Reduce(quantity);
        KeepsModel(f);
        FindUpdate(ps, ModelOf, model, f, model);
        FindUpdate(ps, ModelOf, model, f, other);
    }
  }

  /** A sale or a restock rewrites quantities only: models stay unique and
      every other column of every row is kept. */
  lemma StockChangesKeepRows(ps: seq<Product>, model: string, quantity: int)
    requires UniqueModels(ps)
    ensures UniqueModels(ChangeProductQuantity(ps, model, quantity).state)
    ensures UniqueModels(SellProduct(ps, model, quantity).state)
    ensures forall i | 0 <= i < |ps| :: SellProduct(ps, model, quantity).state[i] == ps[i].(quantity := SellProduct(ps, model, quantity).state[i].quantity)
    ensures forall i | 0 <= i < |ps| :: ChangeProductQuantity(ps, model, quantity).state[i] == ps[i].(quantity := ChangeProductQuantity(ps, model, quantity).state[i].quantity)
  {
    match FindBy(ps, ModelOf, model)
    case None =>
    case Some(p) =>
      KeepsModel(WithQuantity(p.quantity + quantity));
      KeepsModel(Reduce(quantity));
      UpdateKeepsUnique(ps, ModelOf, model, WithQuantity(p.quantity + quantity));
      UpdateKeepsUnique(ps, ModelOf, model, Reduce(quantity));
  }

  /** deleteProduct removes only that model: afterwards it is not found,
      every other model is found as before, and models stay unique. */
  lemma DeleteSpec(ps: seq<Product>, model: string, other: string)
    requires UniqueModels(ps)
    ensures var s := DeleteProduct(ps, model);
      && (s.result.Ok? <==> GetProductByModel(ps, model).Ok?)
      && UniqueModels(s.state)
      && GetProductByModel(s.state, model).Err?
      && (other != model ==> GetProductByModel(s.state, other) == GetProductByModel(ps, other))
  {
    RemoveKeepsUnique(ps, ModelOf, model);
    FindRemove(ps, ModelOf, model, model);
    FindRemove(ps, ModelOf, model, other);
  }

  /** getProducts filters by category or by model only when the grouping
      matches and the value is present; otherwise it returns every product. */
  lemma GetProductsSpec(ps: seq<Product>, grouping: Option<string>, category: Option<string>, model: Option<string>, p: Product)
    ensures p in GetProducts(ps, grouping, category, model) <==>
      && p in ps
      && (grouping == Some("category") && Text.Truthy(category) ==> p.category == category.value)
      && (!(grouping == Some("category") && Text.Truthy(category)) && grouping == Some("model") && Text.Truthy(model) ==> p.model == model.value)
  {
    if grouping == Some("category") && Text.Truthy(category) {
      assert HasCategory(category.value)(p) == (p.category == category.value);
    } else if grouping == Some("model") && Text.Truthy(model) {
      assert HasModel(model.value)(p) == (p.model == model.value);
    }
  }

  /** getAvailableProducts returns only products in stock, fails with
      ProductNotFound exactly when the model grouping names a model that does
      not exist, and otherwise selects like getProducts among the rows in
      stock. */
  lemma GetAvailableSpec(ps: seq<Product>, grouping: Option<string>, category: Option<string>, model: Option<string>, p: Product)
    ensures GetAvailableProducts(ps, grouping, category, model).Err? <==>
      && !(grouping == Some("category") && Text.Truthy(category))
      && grouping == Some("model") && Text.Truthy(model)
      && GetProductByModel(ps, model.value).Err?
    ensures GetAvailableProducts(ps, grouping, category, model).Err? ==>
      GetAvailableProducts(ps, grouping, category, model).error == ProductNotFound
    ensures GetAvailableProducts(ps, grouping, category, model).Ok? ==>
      (p in GetAvailableProducts(ps, grouping, category, model).value <==>
        p in GetProducts(ps, grouping, category, model) && p.quantity > 0)
  {
    var available := Filter(ps, InStock);
    if grouping == Some("category") && Text.Truthy(category) {
      assert HasCategory(category.value)(p) == (p.category == category.value);
    } else if grouping == Some("model") && Text.Truthy(model) {
      var m := model.value;
      assert HasModel(m)(p) == (p.model == m);
      if |Filter(ps, HasModel(m))| != 0 {
        var q := Filter(ps, HasModel(m))[0];
        assert q in Filter(ps, HasModel(m));
        assert HasModel(m)(q);
        var i :| 0 <= i < |ps| && ps[i] == q;
        assert ps[i].model == m;
      }
    }
  }

}

/** The class ProductDAO of productDAO.ts, owning the products table. */
module ProductDAO {
  import opened Errors
  import opened Results
  import opened Tables
  import opened ProductStore

  /** Every method performs its statements on `products` and is tied to the
      ProductStore function that describes it. */
  class ProductDAO {
    var products: seq<Product>

    ghost predicate Valid()
      reads this
    {
      UniqueModels(products)
    }

    constructor()
      ensures Valid() && products == []
    {
      products := [];
    }

    /** registerProduct: looks the model up, then inserts. */
    method RegisterProduct(p: Product) returns (r: Result<()>)
      requires Valid()
      modifies this
      ensures Valid()
      ensures Step(products, r) == ProductStore.RegisterProduct(old(products), p)
    {
      if FindBy(products, ModelOf, p.model).Some? {
        return Err(ProductAlreadyExists);
      }
      AppendKeepsUnique(products, ModelOf, p);
      products := products + [p];
      r := Ok(());
    }

    /** changeProductQuantity: reads the current quantity, checks, then updates. */
    method ChangeProductQuantity(model: string, quantity: int) returns (r: Result<int>)
      requires Valid()
      modifies this
      ensures Valid()
      ensures Step(products, r) == ProductStore.ChangeProductQuantity(old(products), model, quantity)
    {
      var row := FindBy(products, ModelOf, model);
      if row.None? {
        return Err(ProductNotFound);
      }
      var current := row.value.quantity;
      if quantity < 0 || current + quantity < 0 {
        return Err(InvalidQuantity);
      }
      StockChangesKeepRows(products, model, quantity);
      products := UpdateBy(products, ModelOf, model, WithQuantity(current + quantity));
      r := Ok(current + quantity);
    }

    /** sellProduct: checks the quantity, reads the stock, checks it, then updates. */
    method SellProduct(model: string, quantity: int) returns (r: Result<int>)
      requires Valid()
      modifies this
      ensures Valid()
      ensures Step(products, r) == ProductStore.SellProduct(old(products), model, quantity)
    {
      if quantity <= 0 {
        return Err(InvalidQuantity);
      }
      var row := FindBy(products, ModelOf, model);
      if row.None? {
        return Err(ProductNotFound);
      }
      if row.value.quantity < quantity {
        return Err(LowProductStock);
      }
      StockChangesKeepRows(products, model, quantity);
      products := UpdateBy(products, ModelOf, model, Reduce(quantity));
      r := Ok(row.value.quantity - quantity);
    }

    /** deleteAllProducts: `DELETE FROM products`. */
    method DeleteAllProducts()
      modifies this
      ensures Valid() && products == []
    {
      products := [];
    }

    /** deleteProduct: looks the model up, then deletes its rows. */
    method DeleteProduct(model: string) returns (r: Result<()>)
      requires Valid()
      modifies this
      ensures Valid()
      ensures Step(products, r) == ProductStore.DeleteProduct(old(products), model)
    {
      if FindBy(products, ModelOf, model).None? {
        return Err(ProductNotFound);
      }
      RemoveKeepsUnique(products, ModelOf, model);
      products := RemoveBy(products, ModelOf, model);
      r := Ok(());
    }
  }
}
