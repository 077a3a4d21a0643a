/**
 * productController.ts: the input guards the controller applies before it
 * calls ProductDAO. `today` is the ISO date (`YYYY-MM-DD`) the controller
 * reads from the clock; dates are compared as strings, as the controller
 * does.
 */
module ProductService {
  import opened Errors
  import opened Results
  import opened Text
  import opened Tables
  import opened ProductStore

  /** The values of the Category enum. */
  const Categories: set<string> := {"Smartphone", "Laptop", "Appliance"}

  /** `date && date > today`: a date given and later than today. */
  predicate InFuture(date: Option<string>, today: string) {
    Truthy(date) && After(date.value, today)
  }

  /** `date && arrivalDate > date`: a date given and earlier than the
      product's arrival. A null arrival date compares false in JavaScript. */
  predicate BeforeArrival(date: Option<string>, p: Product) {
    Truthy(date) && p.arrivalDate.Some? && After(p.arrivalDate.value, date.value)
  }

  /** Every stored arrival date is not later than `day`. */
  ghost predicate ArrivedBy(ps: seq<Product>, day: string) {
    forall i | 0 <= i < |ps| :: ps[i].arrivalDate.Some? ==> !After(ps[i].arrivalDate.value, day)
  }

  /** registerProducts (productController.ts:34-63). */
  function RegisterProducts(
    ps: seq<Product>, model: string, category: string, quantity: int,
    details: Option<string>, sellingPrice: real, arrivalDate: Option<string>, today: string
  ): (s: Step<seq<Product>, ()>)
    ensures s.result.Err? ==> s.state == ps
  {
    if category !in Categories then Step(ps, Err(Plain("Invalid category")))
    else if quantity <= 0 then Step(ps, Err(Plain("Quantity cannot be negative or zero")))
    else if sellingPrice <= 0.0 then Step(ps, Err(Plain("Selling price cannot be negative or zero")))
    else if InFuture(arrivalDate, today) then Step(ps, Err(ArrivalDateIsInTheFuture))
    else ProductStore.RegisterProduct(ps, Product(sellingPrice, model, category, arrivalDate, details, quantity))
  }

  /** changeProductQuantity (productController.ts:72-86). */
  function ChangeProductQuantity(ps: seq<Product>, model: string, newQuantity: int, changeDate: Option<string>, today: string): (s: Step<seq<Product>, int>)
    ensures s.result.Err? ==> s.state == ps
    ensures s.result.Ok? ==> s == ProductStore.ChangeProductQuantity(ps, model, newQuantity)
  {
    if InFuture(changeDate, today) then Step(ps, Err(ArrivalDateIsInTheFuture))
    else match GetProductByModel(ps, model)
      case Err(e) => Step(ps, Err(e))
      case Ok(p) =>
        if BeforeArrival(changeDate, p) then Step(ps, Err(ChangeDateIsBeforeArrivalDate))
        else ProductStore.ChangeProductQuantity(ps, model, newQuantity)
  }

  /** sellProduct (productController.ts:95-110). */
  function SellProduct(ps: seq<Product>, model: string, quantity: int, sellingDate: Option<string>, today: string): (s: Step<seq<Product>, int>)
    ensures s.result.Err? ==> s.state == ps
    ensures s.result.Ok? ==> s == ProductStore.SellProduct(ps, model, quantity)
  {
    if InFuture(sellingDate, today) then Step(ps, Err(ArrivalDateIsInTheFuture))
    else match GetProductByModel(ps, model)
      case Err(e) => Step(ps, Err(e))
      case Ok(p) =>
        if BeforeArrival(sellingDate, p) then Step(ps, Err(ChangeDateIsBeforeArrivalDate))
        else ProductStore.SellProduct(ps, model, quantity)
  }

  /** The query guards of getProducts and getAvailableProducts
      (productController.ts:121-131 and 161-171): the error for a grouping
      other than absent, "category" or "model", for a category outside the
      enum, and for an absent or blank model. */
  function QueryError(grouping: Option<string>, category: Option<string>, model: Option<string>): (r: Option<Error>)
    ensures r.Some? ==> r.value.Plain?
    ensures grouping.None? ==> r.None?
  {
    if Truthy(grouping) && grouping.value != "category" && grouping.value != "model" then
      Some(Plain("Invalid grouping parameter"))
    else if grouping == Some("category") && Truthy(category) && category.value !in Categories then
      Some(Plain("Invalid category parameter. It must be one of 'Smartphone', 'Laptop', 'Appliance'."))
    else if grouping == Some("model") && (!Truthy(model) || IsBlank(model.value)) then
      Some(Plain("Invalid model parameter. It must be a non-empty string."))
    else None
  }

  /** getProducts (productController.ts:119-146). */
  function GetProducts(ps: seq<Product>, grouping: Option<string>, category: Option<string>, model: Option<string>): (r: Result<seq<Product>>)
    ensures r.Err? ==> r.error == ProductNotFound || r.error.Plain?
    ensures grouping.None? ==> r == Ok(ps)
    ensures r.Ok? ==> forall p | p in r.value :: p in ps
  {
    match QueryError(grouping, category, model)
    case Some(e) => Err(e)
    case None =>
      if grouping == Some("category") then Ok(ProductStore.GetProducts(ps, grouping, category, None))
      else if grouping == Some("model") then
        var found := ProductStore.GetProducts(ps, grouping, None, model);
        if |found| == 0 then Err(ProductNotFound) else Ok(found)
      else Ok(ProductStore.GetProducts(ps, None, None, None))
  }

  /** getAvailableProducts (productController.ts:155-177). */
  function GetAvailableProducts(ps: seq<Product>, grouping: Option<string>, category: Option<string>, model: Option<string>): (r: Result<seq<Product>>)
    ensures r.Err? ==> r.error == ProductNotFound || r.error.Plain?
    ensures r.Ok? ==> forall p | p in r.value :: p in ps && p.quantity > 0
  {
    match QueryError(grouping, category, model)
    case Some(e) => Err(e)
    case None => ProductStore.GetAvailableProducts(ps, grouping, category, model)
  }

  /** registerProducts succeeds exactly when the category is in the enum, the
      quantity and the price are positive, the arrival date is absent or not
      after today, and the model is new; then it appends that product. Each
      guard has its own error, and a rejection stores nothing. */
  lemma RegisterProductsSpec(
    ps: seq<Product>, model: string, category: string, quantity: int,
    details: Option<string>, sellingPrice: real, arrivalDate: Option<string>, today: string)
    ensures var s := RegisterProducts(ps, model, category, quantity, details, sellingPrice, arrivalDate, today);
      s.result.Ok? <==>
        && category in Categories && quantity > 0 && sellingPrice > 0.0
        && !InFuture(arrivalDate, today)
        && GetProductByModel(ps, model).Err?
    ensures var s := RegisterProducts(ps, model, category, quantity, details, sellingPrice, arrivalDate, today);
      s.result.Ok? ==> s.state == ps + [Product(sellingPrice, model, category, arrivalDate, details, quantity)]
    ensures category !in Categories ==>
      RegisterProducts(ps, model, category, quantity, details, sellingPrice, arrivalDate, today).result == Err(Plain("Invalid category"))
    ensures category in Categories && quantity <= 0 ==>
      RegisterProducts(ps, model, category, quantity, details, sellingPrice, arrivalDate, today).result == Err(Plain("Quantity cannot be negative or zero"))
    ensures category in Categories && quantity > 0 && sellingPrice <= 0.0 ==>
      RegisterProducts(ps, model, category, quantity, details, sellingPrice, arrivalDate, today).result == Err(Plain("Selling price cannot be negative or zero"))
    ensures category in Categories && quantity > 0 && sellingPrice > 0.0 && InFuture(arrivalDate, today) ==>
      RegisterProducts(ps, model, category, quantity, details, sellingPrice, arrivalDate, today).result == Err(ArrivalDateIsInTheFuture)
  {
  }

  /** A product registered through the controller arrived by the day of its
      registration, so registration keeps every stored arrival date not after
      today. */
  lemma RegisterKeepsArrived(
    ps: seq<Product>, model: string, category: string, quantity: int,
    details: Option<string>, sellingPrice: real, arrivalDate: Option<string>, today: string)
    requires ArrivedBy(ps, today)
    ensures ArrivedBy(RegisterProducts(ps, model, category, quantity, details, sellingPrice, arrivalDate, today).state, today)
  {
    var s := RegisterProducts(ps, model, category, quantity, details, sellingPrice, arrivalDate, today);
    if s.result.Ok? {
      var p := Product(sellingPrice, model, category, arrivalDate, details, quantity);
      assert s.state == ps + [p];
      if arrivalDate.Some? && arrivalDate.value == "" {
        assert !Less(today, "");
      }
      forall i | 0 <= i < |s.state| ensures s.state[i].arrivalDate.Some? ==> !After(s.state[i].arrivalDate.value, today) {
        if i < |ps| {
          assert s.state[i] == ps[i];
        }
      }
    }
  }

  /** Arrival dates not after one day are not after any later day. */
  lemma ArrivedLater(ps: seq<Product>, day: string, today: string)
    requires ArrivedBy(ps, day) && !After(day, today)
    ensures ArrivedBy(ps, today)
  {
    forall i | 0 <= i < |ps| && ps[i].arrivalDate.Some? ensures !After(ps[i].arrivalDate.value, today) {
      NotAfterPersists(ps[i].arrivalDate.value, day, today);
    }
  }

  /** Restocking and selling rewrite quantities only, so they keep models
      unique and arrival dates where they were. */
  lemma StockChangesKeepArrived(ps: seq<Product>, model: string, quantity: int, date: Option<string>, today: string, day: string)
    requires UniqueModels(ps) && ArrivedBy(ps, day)
    ensures UniqueModels(ChangeProductQuantity(ps, model, quantity, date, today).state)
    ensures ArrivedBy(ChangeProductQuantity(ps, model, quantity, date, today).state, day)
    ensures UniqueModels(SellProduct(ps, model, quantity, date, today).state)
    ensures ArrivedBy(SellProduct(ps, model, quantity, date, today).state, day)
  {
    StockChangesKeepRows(ps, model, quantity);
    var a := ProductStore.ChangeProductQuantity(ps, model, quantity).state;
    var b := ProductStore.SellProduct(ps, model, quantity).state;
    forall i | 0 <= i < |a| ensures a[i].arrivalDate == ps[i].arrivalDate {
      assert a[i] == ps[i].(quantity := a[i].quantity);
    }
    forall i | 0 <= i < |b| ensures b[i].arrivalDate == ps[i].arrivalDate {
      assert b[i] == ps[i].(quantity := b[i].quantity);
    }
  }

  /** A change or sale dated after today is refused before any lookup, for
      every table, and changes nothing. */
  lemma FutureDateRefused(ps: seq<Product>, model: string, quantity: int, date: Option<string>, today: string)
    requires InFuture(date, today)
    ensures ChangeProductQuantity(ps, model, quantity, date, today) == Step(ps, Err(ArrivalDateIsInTheFuture))
    ensures SellProduct(ps, model, quantity, date, today) == Step(ps, Err(ArrivalDateIsInTheFuture))
  {
  }

  /** A change or sale dated before the product's arrival is refused with
      ChangeDateIsBeforeArrivalDate and leaves the stock as it was. */
  lemma BeforeArrivalRefused(ps: seq<Product>, model: string, quantity: int, date: Option<string>, today: string)
    requires !InFuture(date, today)
    requires GetProductByModel(ps, model).Ok? && BeforeArrival(date, GetProductByModel(ps, model).value)
    ensures ChangeProductQuantity(ps, model, quantity, date, today) == Step(ps, Err(ChangeDateIsBeforeArrivalDate))
    ensures SellProduct(ps, model, quantity, date, today) == Step(ps, Err(ChangeDateIsBeforeArrivalDate))
  {
  }

  /** A sale for more units than the stock, past the date guards, fails with
      LowProductStock and the quantity keeps its old value. */
  lemma OversellRefused(ps: seq<Product>, model: string, quantity: int, date: Option<string>, today: string)
    requires !InFuture(date, today)
    requires GetProductByModel(ps, model).Ok? && !BeforeArrival(date, GetProductByModel(ps, model).value)
    requires 0 <= GetProductByModel(ps, model).value.quantity < quantity
    ensures SellProduct(ps, model, quantity, date, today) == Step(ps, Err(LowProductStock))
    ensures StockOf(SellProduct(ps, model, quantity, date, today).state, model) == StockOf(ps, model)
  {
    SellSpec(ps, model, quantity, model);
  }

  /** A sale dated today, once every arrival date is not after today and the
      model exists, is exactly the DAO's sale: the date guards cannot fire. */
  lemma SellTodayIsDaoSell(ps: seq<Product>, model: string, quantity: int, today: string)
    requires ArrivedBy(ps, today) && GetProductByModel(ps, model).Ok?
    ensures SellProduct(ps, model, quantity, Some(today), today) == ProductStore.SellProduct(ps, model, quantity)
  {
    LessIrreflexive(today);
    var p := GetProductByModel(ps, model).value;
    var i :| 0 <= i < |ps| && ps[i] == p;
    assert !BeforeArrival(Some(today), p);
  }

  /** The query guards: a grouping other than absent, "category" or "model",
      a category outside the enum, or an absent or blank model is refused by
      both queries with the guard's message, before any lookup. */
  lemma QueryGuards(ps: seq<Product>, grouping: Option<string>, category: Option<string>, model: Option<string>)
    ensures QueryError(grouping, category, model).Some? <==>
      || (Truthy(grouping) && grouping.value != "category" && grouping.value != "model")
      || (grouping == Some("category") && Truthy(category) && category.value !in Categories)
      || (grouping == Some("model") && (!Truthy(model) || IsBlank(model.value)))
    ensures QueryError(grouping, category, model).Some? ==>
      && GetProducts(ps, grouping, category, model) == Err(QueryError(grouping, category, model).value)
      && GetAvailableProducts(ps, grouping, category, model) == Err(QueryError(grouping, category, model).value)
  {
  }

  /** getProducts by model: ProductNotFound exactly when no row has that
      model, otherwise the rows of that model. */
  lemma GetProductsByModel(ps: seq<Product>, m: string, p: Product)
    requires m != "" && !IsBlank(m)
    ensures GetProducts(ps, Some("model"), None, Some(m)).Err? <==> GetProductByModel(ps, m).Err?
    ensures GetProducts(ps, Some("model"), None, Some(m)).Err? ==> GetProducts(ps, Some("model"), None, Some(m)).error == ProductNotFound
    ensures GetProducts(ps, Some("model"), None, Some(m)).Ok? ==>
      (p in GetProducts(ps, Some("model"), None, Some(m)).value <==> p in ps && p.model == m)
  {
    GetProductsSpec(ps, Some("model"), None, Some(m), p);
    var found := Filter(ps, HasModel(m));
    if |found| != 0 {
      assert found[0] in found && HasModel(m)(found[0]);
    }
    if GetProductByModel(ps, m).Ok? {
      var q := GetProductByModel(ps, m).value;
      assert HasModel(m)(q);
      assert q in found;
    }
  }
}

/** The class ProductController of productController.ts. */
module ProductController {
  import opened Errors
  import opened Results
  import opened Text
  import opened ProductStore
  import ProductService
  import ProductDAO

  /** Each method applies the controller's guards and calls its DAO, and is
      tied to the ProductService function that describes it. In the model
      every DAO works on one shared database, so the controller is given the
      DAO that owns the products table. */
  class ProductController {
    const dao: ProductDAO.ProductDAO

    constructor(dao: ProductDAO.ProductDAO)
      ensures this.dao == dao
    {
      this.dao := dao;
    }

    method RegisterProducts(
      model: string, category: string, quantity: int,
      details: Option<string>, sellingPrice: real, arrivalDate: Option<string>, today: string
    ) returns (r: Result<()>)
      requires dao.Valid()
      modifies dao
      ensures dao.Valid()
      ensures Step(dao.products, r)
           == ProductService.RegisterProducts(old(dao.products), model, category, quantity, details, sellingPrice, arrivalDate, today)
    {
      if category !in ProductService.Categories {
        return Err(Plain("Invalid category"));
      }
      if quantity <= 0 {
        return Err(Plain("Quantity cannot be negative or zero"));
      }
      if sellingPrice <= 0.0 {
        return Err(Plain("Selling price cannot be negative or zero"));
      }
      if ProductService.InFuture(arrivalDate, today) {
        return Err(ArrivalDateIsInTheFuture);
      }
      r := dao.RegisterProduct(Product(sellingPrice, model, category, arrivalDate, details, quantity));
    }

    method ChangeProductQuantity(model: string, newQuantity: int, changeDate: Option<string>, today: string) returns (r: Result<int>)
      requires dao.Valid()
      modifies dao
      ensures dao.Valid()
      ensures Step(dao.products, r)
           == ProductService.ChangeProductQuantity(old(dao.products), model, newQuantity, changeDate, today)
    {
      if ProductService.InFuture(changeDate, today) {
        return Err(ArrivalDateIsInTheFuture);
      }
      var prod := GetProductByModel(dao.products, model);
      if prod.Err? {
        return Err(prod.error);
      }
      if ProductService.BeforeArrival(changeDate, prod.value) {
        return Err(ChangeDateIsBeforeArrivalDate);
      }
      r := dao.ChangeProductQuantity(model, newQuantity);
    }

    method SellProduct(model: string, quantity: int, sellingDate: Option<string>, today: string) returns (r: Result<int>)
      requires dao.Valid()
      modifies dao
      ensures dao.Valid()
      ensures Step(dao.products, r)
           == ProductService.SellProduct(old(dao.products), model, quantity, sellingDate, today)
    {
      if ProductService.InFuture(sellingDate, today) {
        return Err(ArrivalDateIsInTheFuture);
      }
      var prod := GetProductByModel(dao.products, model);
      if prod.Err? {
        return Err(prod.error);
      }
      if ProductService.BeforeArrival(sellingDate, prod.value) {
        return Err(ChangeDateIsBeforeArrivalDate);
      }
      r := dao.SellProduct(model, quantity);
    }

    /** deleteAllProducts resolves true once the table is empty. */
    method DeleteAllProducts() returns (r: Result<bool>)
      modifies dao
      ensures dao.Valid() && dao.products == [] && r == Ok(true)
    {
      dao.DeleteAllProducts();
      r := Ok(true);
    }

    /** deleteProduct resolves true, or rejects with the DAO's error. */
    method DeleteProduct(model: string) returns (r: Result<bool>)
      requires dao.Valid()
      modifies dao
      ensures dao.Valid()
      ensures var s := ProductStore.DeleteProduct(old(dao.products), model);
        dao.products == s.state && r == (if s.result.Ok? then Ok(true) else Err(s.result.error))
    {
      var done := dao.DeleteProduct(model);
      r := if done.Ok? then Ok(true) else Err(done.error);
    }
  }
}
