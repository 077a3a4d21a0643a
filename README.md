# ezelectronics domain layer in Dafny

This project models the domain layer of the ezelectronics backend: an
Express server that sells smartphones, laptops and appliances. Customers
fill one unpaid cart and check it out. Managers register products and
update their stock. Admins manage users. Customers review
products.

The SQLite database becomes in-memory tables. A table is the sequence of its
rows in insertion order, and each SQL statement a DAO issues is a function
over those sequences:
- `SELECT ... WHERE` is `Tables.FindBy` or `Tables.Filter`.
- `UPDATE ... WHERE` is `Tables.UpdateBy`.
- `DELETE ... WHERE` is `Tables.RemoveBy` or `Tables.Filter`.
- `INSERT` is an append.

Every DAO and controller class comes in two parts:
- A module of pure transition functions. Each returns
  `Step(state, result)`, where the result is `Ok(value)` or `Err(error)`,
  like the promise the code returns. Lemmas about these functions prove what
  the code promises.
- A module holding the class itself. Its methods change the class's own
  fields (and, for the cart checkout, the shared products table). Each method
  is proved equal to its transition function.

Errors are the error classes of `errors/*.ts`, one constructor each, plus
`Plain(message)` for a bare `new Error(message)`. `genericErrorHandler.ts`
becomes a total function from an error to the HTTP response sent.

Notes on the code as written:
- Carts. A customer has at most one unpaid cart. The `total` column is
  written as 0 and never updated.
- Products. Dates are ISO `YYYY-MM-DD` strings. `Text.Less` compares them
  character by character. That is JavaScript's string order for text
  inside the Basic Multilingual Plane, such as ISO dates. JavaScript compares
  UTF-16 code units, so the two orders differ on characters above U+FFFF.
- Users. An Admin cannot delete another Admin. Editing another Admin with
  updateUserInfo also rejects with `CannotDeleteOtherAdminError`; the model
  does the same. `CannotEditOtherAdminError` is declared but no code raises
  it.
- Reviews. The productreview table declares no key. reviewController keeps
  at most one review per (model, user).

Files:
- `results.dfy`: Option, Result and Step.
- `errors.dfy`: the error kinds and their codes.
- `error_handler.dfy`: the error responses.
- `text.dfy`: string comparison and trimming.
- `tables.dfy`: the statements on tables.
- `product_dao.dfy`, `product_controller.dfy`: products.
- `cart_dao.dfy`, `cart_controller.dfy`: carts.
- `user_dao.dfy`, `user_controller.dfy`: users.
- `review_dao.dfy`, `review_controller.dfy`: reviews.

## Model

| member | source | states |
|---|---|---|
| Errors.CustomCode | code/server/src/errors/cartError.ts:12-95 | every domain error's customCode is a 4xx status, one of 400, 401, 403, 404, 409 |
| Errors.CartErrorCodes | code/server/src/errors/cartError.ts:12-95 | the customCode of each of the seven cart error classes |
| Errors.ProductErrorCodes | code/server/src/errors/productError.ts:10-101 | the customCode of each of the eight product error classes |
| Errors.UserErrorCodes | code/server/src/errors/userError.ts:12-128 | the customCode of each of the ten user error classes |
| Errors.ReviewErrorCodes | code/server/src/errors/reviewError.ts:4-23 | ExistingReview is 409 and NoReviewProduct is 404 |
| Errors.FamiliesDisjoint | code/server/src/errors/userError.ts:143-156 | no error satisfies two of isCartError, isProductError, isUserError and isReviewError; a plain Error satisfies none |
| Errors.IsCartError | code/server/src/errors/cartError.ts:107-117 | holds for the seven cart error classes and never for a plain Error |
| Errors.IsProductError | code/server/src/errors/productError.ts:114-125 | holds for the eight product error classes and never for a plain Error |
| Errors.IsUserError | code/server/src/errors/userError.ts:143-156 | holds for the ten user error classes and never for a plain Error |
| Errors.IsReviewError | code/server/src/errors/reviewError.ts:28-30 | holds for the two review error classes and never for a plain Error |
| Errors.CustomMessage | code/server/src/errors/cartError.ts:1-7 | the customMessage constant each error class assigns; it has no contract of its own and the ErrorHandler rows state how it is sent |
| ErrorHandler.HandleCartError | code/server/src/errors/cartError.ts:119-121 | answers exactly the cart errors, with their own code and message |
| ErrorHandler.HandleProductError | code/server/src/errors/productError.ts:127-129 | answers exactly the product errors, with their own code and message |
| ErrorHandler.HandleUserError | code/server/src/errors/userError.ts:158-160 | answers exactly the user errors, with their own code and message |
| ErrorHandler.HandleReviewError | code/server/src/errors/reviewError.ts:32-34 | answers exactly the review errors, with their own code and message |
| ErrorHandler.Dispatch | code/server/src/errors/genericErrorHandler.ts:6-12 | the cart handler is chosen exactly for cart errors, likewise user, review and product; the fallback exactly for a plain Error |
| ErrorHandler.HandleError | code/server/src/errors/genericErrorHandler.ts:6-12 | a domain error gets its customCode and customMessage; any other error gets 503 with its message; 503 happens exactly for plain errors |
| Text.LessTransitive | code/server/src/controllers/productController.ts:57 | the string order used on dates is transitive |
| Text.Less | code/server/src/controllers/productController.ts:57 | the order is strict: no string is less than itself |
| Text.LessTrichotomy | code/server/src/controllers/productController.ts:57 | of two strings, one is smaller or they are equal |
| Text.NotAfterPersists | code/server/src/controllers/productController.ts:55-59 | a date that was not in the future on one day is not in the future on any later day |
| Tables.FindBy | code/server/src/dao/productDAO.ts:248-257 | the row found has the key; nothing is found exactly when no row has the key |
| Tables.Filter | code/server/src/dao/productDAO.ts:117-150 | the selection holds exactly the rows that match, and is no longer than the table |
| Tables.RemoveBy | code/server/src/dao/productDAO.ts:221-246 | the rows left are exactly those whose key differs |
| Tables.FilterCounts | code/server/src/dao/userDAO.ts:108-120 | a selection holds each matching row as many times as the table does, and no other row |
| Tables.RemoveCounts | code/server/src/dao/userDAO.ts:122-134 | a delete keeps each row with another key as many times as the table holds it, and no row with the key |
| Tables.FindUnique | code/server/src/dao/productDAO.ts:248-257 | with a unique key, looking up a row's key finds that very row |
| Tables.FindUpdate | code/server/src/dao/productDAO.ts:52-79 | after an update that keeps keys, a lookup finds the rewritten row for the updated key and the old row for any other |
| Tables.FindRemove | code/server/src/dao/productDAO.ts:221-246 | after a delete, the deleted key is not found and every other key finds what it found before |
| Tables.FilterKeepsUnique | code/server/src/dao/userDAO.ts:136-144 | a selection from a table with a unique key has a unique key |
| Tables.RemoveKeepsUnique | code/server/src/dao/userDAO.ts:122-134 | a delete keeps a key unique |
| Tables.UpdateKeepsUnique | code/server/src/dao/userDAO.ts:146-162 | an update that keeps keys keeps them unique |
| ProductStore.GetProductByModel | code/server/src/dao/productDAO.ts:248-257 | the product found has the model; ProductNotFound exactly when no row has it |
| ProductStore.RegisterProduct | code/server/src/dao/productDAO.ts:24-44 | ProductAlreadyExists with no change exactly when the model is stored; otherwise the product is appended |
| ProductStore.ChangeProductQuantity | code/server/src/dao/productDAO.ts:52-79 | a refusal changes nothing; a success reports a stock of at least 0; the table keeps the number of rows |
| ProductStore.SellProduct | code/server/src/dao/productDAO.ts:87-111 | a refusal changes nothing; a success reports a stock of at least 0; the table keeps the number of rows |
| ProductStore.GetProducts | code/server/src/dao/productDAO.ts:117-150 | lists only stored products, never more than the table holds |
| ProductStore.GetAvailableProducts | code/server/src/dao/productDAO.ts:152-198 | lists only stored products in stock; its only error is ProductNotFound |
| ProductStore.DeleteProduct | code/server/src/dao/productDAO.ts:221-246 | ProductNotFound with no change, or a table no longer than before |
| ProductStore.RegisterThenGet | code/server/src/dao/productDAO.ts:24-44 | after a registration the model is found as registered, other models are found as before, models stay unique |
| ProductStore.ChangeQuantitySpec | code/server/src/dao/productDAO.ts:52-79 | an unknown model gives ProductNotFound; a negative argument or a negative result gives InvalidQuantity; otherwise the stock becomes, and is reported as, old plus added; other models are unchanged |
| ProductStore.SellSpec | code/server/src/dao/productDAO.ts:87-111 | quantity ≤ 0 gives InvalidQuantity before the lookup; an unknown model gives ProductNotFound; less stock than asked gives LowProductStock; otherwise the stock drops by the quantity and the new stock is returned; other models are unchanged |
| ProductStore.StockChangesKeepRows | code/server/src/dao/productDAO.ts:52-111 | sales and restocks rewrite only quantities and keep models unique |
| ProductStore.DeleteSpec | code/server/src/dao/productDAO.ts:221-246 | deleteProduct succeeds exactly for a known model; afterwards that model is not found, every other model is found as before, and models stay unique |
| ProductStore.GetProductsSpec | code/server/src/dao/productDAO.ts:117-150 | a product is listed exactly when it is stored and matches the grouping's category or model, when that is given |
| ProductStore.GetAvailableSpec | code/server/src/dao/productDAO.ts:152-198 | the listing is the getProducts selection restricted to products in stock; it fails, with ProductNotFound, exactly for a model query on an unknown model |
| ProductDAO.ProductDAO.RegisterProduct | code/server/src/dao/productDAO.ts:24-44 | the table after the insert, and the result, are those of ProductStore.RegisterProduct; models stay unique |
| ProductDAO.ProductDAO.ChangeProductQuantity | code/server/src/dao/productDAO.ts:52-79 | equals ProductStore.ChangeProductQuantity on the table |
| ProductDAO.ProductDAO.SellProduct | code/server/src/dao/productDAO.ts:87-111 | equals ProductStore.SellProduct on the table |
| ProductDAO.ProductDAO.DeleteAllProducts | code/server/src/dao/productDAO.ts:204-219 | the table is emptied |
| ProductDAO.ProductDAO.DeleteProduct | code/server/src/dao/productDAO.ts:221-246 | equals ProductStore.DeleteProduct on the table |
| ProductService.RegisterProducts | code/server/src/controllers/productController.ts:34-63 | a rejected registration leaves the table unchanged |
| ProductService.ChangeProductQuantity | code/server/src/controllers/productController.ts:72-86 | a refusal changes nothing; a success is exactly the DAO's changeProductQuantity |
| ProductService.SellProduct | code/server/src/controllers/productController.ts:95-110 | a refusal changes nothing; a success is exactly the DAO's sellProduct |
| ProductService.QueryError | code/server/src/controllers/productController.ts:121-131 | every query refusal is a plain Error, and a query without a grouping is never refused |
| ProductService.GetProducts | code/server/src/controllers/productController.ts:119-146 | without a grouping, every product; otherwise only stored products, or ProductNotFound or a plain Error |
| ProductService.GetAvailableProducts | code/server/src/controllers/productController.ts:155-177 | only stored products in stock, or ProductNotFound or a plain Error |
| ProductService.RegisterProductsSpec | code/server/src/controllers/productController.ts:43-61 | the category check, then quantity, then price, then the future arrival date are refused in that order; otherwise the DAO registers |
| ProductService.RegisterKeepsArrived | code/server/src/controllers/productController.ts:55-59 | no registration stores an arrival date later than today |
| ProductService.StockChangesKeepArrived | code/server/src/controllers/productController.ts:72-110 | restocks and sales keep models unique and arrival dates as they were |
| ProductService.FutureDateRefused | code/server/src/controllers/productController.ts:72-98 | a change or selling date after today is ArrivalDateIsInTheFuture and changes nothing |
| ProductService.BeforeArrivalRefused | code/server/src/controllers/productController.ts:80-104 | a date before the product's arrival is ChangeDateIsBeforeArrivalDate and changes nothing |
| ProductService.OversellRefused | code/server/src/controllers/productController.ts:95-110 | selling more than the stock, an empty stock included, is LowProductStock and the stock is kept |
| ProductService.SellTodayIsDaoSell | code/server/src/controllers/productController.ts:95-110 | a sale dated today of a product that has arrived is exactly the DAO's sale |
| ProductService.QueryGuards | code/server/src/controllers/productController.ts:121-131 | the query is refused exactly for a bad grouping, an unknown category or a blank model, before any lookup |
| ProductService.GetProductsByModel | code/server/src/controllers/productController.ts:135-141 | a model query fails with ProductNotFound exactly when the model is unknown, otherwise lists that model's rows |
| ProductController.ProductController.RegisterProducts | code/server/src/controllers/productController.ts:34-63 | equals ProductService.RegisterProducts on the DAO's table |
| ProductController.ProductController.ChangeProductQuantity | code/server/src/controllers/productController.ts:72-86 | equals ProductService.ChangeProductQuantity on the DAO's table |
| ProductController.ProductController.SellProduct | code/server/src/controllers/productController.ts:95-110 | equals ProductService.SellProduct on the DAO's table |
| ProductController.ProductController.DeleteAllProducts | code/server/src/controllers/productController.ts:183-192 | the products table is emptied |
| ProductController.ProductController.DeleteProduct | code/server/src/controllers/productController.ts:197-205 | equals ProductStore.DeleteProduct on the DAO's table |
| CartStore.Items | code/server/src/dao/cartDAO.ts:71-86 | the lines of a cart are exactly the rows with that cart id |
| CartStore.GetCart | code/server/src/dao/cartDAO.ts:26-48 | CartNotFound exactly when no cart has the id; otherwise the cart carries the customer, paid flag and total of the row with that id and the cart's lines, and its payment date is null exactly when the stored date is "", the stored date otherwise |
| CartStore.GetUserCartId | code/server/src/dao/cartDAO.ts:55-64 | the id found is that of an unpaid cart of the customer; CartNotFound exactly when there is none |
| CartStore.CreateEmptyCart | code/server/src/dao/cartDAO.ts:93-106 | refused with CartAlreadyExists exactly when the customer has an unpaid cart; otherwise one empty unpaid cart is appended under the next id |
| CartStore.GetProductInCart | code/server/src/dao/cartDAO.ts:114-123 | the item found is the (cart, model) line; ProductNotInCart exactly when there is none |
| CartStore.IncreaseProductQuantityInCart | code/server/src/dao/cartDAO.ts:131-139 | only the line table changes, and it keeps its length; IncreaseSpec states which line gains a unit |
| CartStore.InsertProductInCart | code/server/src/dao/cartDAO.ts:147-160 | one line is appended and the earlier lines, the carts and the products are kept |
| CartStore.DecreaseProductQuantityInCart | code/server/src/dao/cartDAO.ts:223-231 | only the line table changes, and it keeps its length; DecreaseSpec states which line loses a unit |
| CartStore.RemoveProductFromCart | code/server/src/dao/cartDAO.ts:239-248 | exactly the lines of other (cart, model) pairs remain; carts and products are kept |
| CartStore.Precheck | code/server/src/dao/cartDAO.ts:174-177 | the first loop raises only ProductNotFound or NegativeQuantity, and only for a non-empty cart |
| CartStore.SellAll | code/server/src/dao/cartDAO.ts:179 | the sales keep the number of rows in the products table; they can fail only for a non-empty cart |
| CartStore.CartsOf | code/server/src/dao/cartDAO.ts:205-212 | getCart on each row in turn: one Cart object per row, or CartNotFound |
| CartStore.GetUserAllPaidCarts | code/server/src/dao/cartDAO.ts:197-215 | at most one Cart object per cart row, or CartNotFound |
| CartStore.GetAllCarts | code/server/src/dao/cartDAO.ts:254-272 | one Cart object per cart row, or CartNotFound |
| CartStore.CheckoutCart | code/server/src/dao/cartDAO.ts:167-190 | checkout never touches the lines or the next id, and a refused checkout leaves the carts unchanged |
| CartStore.PrecheckSpec | code/server/src/dao/cartDAO.ts:174-177 | the first loop passes exactly when every line's product exists with enough stock; otherwise it raises NegativeQuantity or ProductNotFound |
| CartStore.SellAllStock | code/server/src/dao/cartDAO.ts:179 | when all sales succeed, each model's stock drops by the quantity ordered |
| CartStore.CommitCannotFail | code/server/src/dao/cartDAO.ts:174-179 | once the pre-check passes on distinct lines of at least one unit, and every stored arrival date is not after today (so no sale meets ChangeDateIsBeforeArrivalDate), none of the sales can fail |
| CartStore.ItemsUnique | code/server/src/dao/cartDAO.ts:71-86 | with unique (cart, model) lines, a cart lists each model once |
| CartStore.CheckoutShortOfStock | code/server/src/dao/cartDAO.ts:174-177 | a line short of stock makes the checkout fail with no change; with every product present the error is NegativeQuantity |
| CartStore.CheckoutSucceeds | code/server/src/dao/cartDAO.ts:167-190 | a cart that passes the pre-check is paid today, stays valid, and each stock drops by the quantity ordered; every other cart row is unchanged, by position and by id |
| CartStore.CreateEmptyCartSpec | code/server/src/dao/cartDAO.ts:93-106 | the created cart is the customer's unpaid cart and reads back empty |
| CartStore.InsertSpec | code/server/src/dao/cartDAO.ts:147-160 | the inserted line is one unit at the product's category and price; no other line changes |
| CartStore.IncreaseSpec | code/server/src/dao/cartDAO.ts:131-139 | only the (cart, model) line gains one unit |
| CartStore.DecreaseSpec | code/server/src/dao/cartDAO.ts:223-231 | only the (cart, model) line loses one unit |
| CartStore.RemoveSpec | code/server/src/dao/cartDAO.ts:239-248 | only the (cart, model) line is deleted |
| CartStore.PaidCartsSpec | code/server/src/dao/cartDAO.ts:197-215 | the result is exactly the customer's paid carts, each with its lines |
| CartStore.AllCartsSpec | code/server/src/dao/cartDAO.ts:254-272 | the result is every cart with its lines |
| CartDAO.CartDAO.GetCartProducts | code/server/src/dao/cartDAO.ts:71-86 | the loop builds exactly CartStore.Items |
| CartDAO.CartDAO.GetCart | code/server/src/dao/cartDAO.ts:26-48 | equals CartStore.GetCart |
| CartDAO.CartDAO.GetUserCartId | code/server/src/dao/cartDAO.ts:55-64 | equals CartStore.GetUserCartId |
| CartDAO.CartDAO.GetProductInCart | code/server/src/dao/cartDAO.ts:114-123 | equals CartStore.GetProductInCart |
| CartDAO.CartDAO.ReadCarts | code/server/src/dao/cartDAO.ts:205-212 | the loop over the rows read stops at the first failing getCart and otherwise collects every cart |
| CartDAO.CartDAO.GetUserAllPaidCarts | code/server/src/dao/cartDAO.ts:197-215 | equals CartStore.GetUserAllPaidCarts |
| CartDAO.CartDAO.GetAllCarts | code/server/src/dao/cartDAO.ts:254-272 | equals CartStore.GetAllCarts |
| CartDAO.CartDAO.CreateEmptyCart | code/server/src/dao/cartDAO.ts:93-106 | equals CartStore.CreateEmptyCart and keeps the tables valid |
| CartDAO.CartDAO.IncreaseProductQuantityInCart | code/server/src/dao/cartDAO.ts:131-139 | equals CartStore.IncreaseProductQuantityInCart; carts untouched |
| CartDAO.CartDAO.InsertProductInCart | code/server/src/dao/cartDAO.ts:147-160 | equals CartStore.InsertProductInCart; carts untouched |
| CartDAO.CartDAO.DecreaseProductQuantityInCart | code/server/src/dao/cartDAO.ts:223-231 | equals CartStore.DecreaseProductQuantityInCart; carts untouched |
| CartDAO.CartDAO.RemoveProductFromCart | code/server/src/dao/cartDAO.ts:239-248 | equals CartStore.RemoveProductFromCart; carts untouched |
| CartDAO.CartDAO.CheckoutCart | code/server/src/dao/cartDAO.ts:167-190 | the two loops and the update equal CartStore.CheckoutCart on the carts and the shared products table |
| CartDAO.CartDAO.DeleteAllCarts | code/server/src/dao/cartDAO.ts:278-288 | the cart table is emptied and the lines stay |
| CartDAO.CartDAO.DeleteAllProductsInCarts | code/server/src/dao/cartDAO.ts:293-303 | the line table is emptied and the carts stay |
| CartDAO.CreateKeepsValid | code/server/src/dao/cartDAO.ts:93-106 | creating a cart keeps ids unique and one unpaid cart per customer |
| CartDAO.PayKeepsValid | code/server/src/dao/cartDAO.ts:181-182 | marking a cart paid keeps the tables valid |
| CartService.GetCartId | code/server/src/controllers/cartController.ts:75-91 | an existing unpaid cart is returned unchanged; without one, CartNotFound if creation is avoided, else a new cart is created and returned |
| CartService.GetCartIdSpec | code/server/src/controllers/cartController.ts:75-91 | without avoidCreatingNew the call always yields the customer's unpaid cart and keeps the invariant |
| CartService.AddToCart | code/server/src/controllers/cartController.ts:28-53 | never changes the products table; refuses only with ProductNotFound or NegativeQuantity; a success resolves true |
| CartService.AddUnit | code/server/src/controllers/cartController.ts:39-47 | increasing or inserting the line touches only the lines table: carts, products and the next id are kept |
| CartService.GetCart | code/server/src/controllers/cartController.ts:60-68 | a customer without an unpaid cart gets an empty unpaid cart; the only error is CartNotFound |
| CartService.CheckoutCart | code/server/src/controllers/cartController.ts:98-109 | lines and ids are never touched, a refusal keeps the carts, and a success needs an unpaid cart with lines |
| CartService.GetCustomerCarts | code/server/src/controllers/cartController.ts:117-121 | at most one Cart object per cart row, or CartNotFound |
| CartService.RemoveProductFromCart | code/server/src/controllers/cartController.ts:129-147 | carts and products are kept; a refusal is CartNotFound, ProductNotFound or ProductNotInCart and changes nothing |
| CartService.RemoveAll | code/server/src/controllers/cartController.ts:160 | the deletes keep carts and products and leave only lines that were there |
| CartService.ClearCart | code/server/src/controllers/cartController.ts:154-166 | carts and products are kept; the only refusal is CartNotFound, with no change |
| CartService.DeleteAllCarts | code/server/src/controllers/cartController.ts:172-182 | resolves true, keeps the products, and afterwards no cart id is found or has lines |
| CartService.GetAllCarts | code/server/src/controllers/cartController.ts:188-192 | one Cart object per cart row, or CartNotFound |
| CartService.AddToCartErrors | code/server/src/controllers/cartController.ts:28-38 | ProductNotFound for an unknown model, NegativeQuantity for zero stock, and then no line changes |
| CartService.AddToCartAdds | code/server/src/controllers/cartController.ts:39-47 | an existing line gains one unit, a new line is one unit at the product's price and category, other lines are unchanged |
| CartService.AddToCartKeepsInv | code/server/src/controllers/cartController.ts:28-53 | addToCart keeps unique lines of at least one unit in existing carts |
| CartService.GetCartSpec | code/server/src/controllers/cartController.ts:60-68 | without an unpaid cart the result is an empty unpaid cart of the customer; otherwise the DAO's cart |
| CartService.GetCartOwned | code/server/src/controllers/cartController.ts:60-68 | the cart returned belongs to the customer, is unpaid, and holds its lines |
| CartService.RemoveProductErrors | code/server/src/controllers/cartController.ts:129-147 | CartNotFound, then ProductNotFound, then ProductNotInCart, each with no change |
| CartService.RemoveProductTakesUnit | code/server/src/controllers/cartController.ts:138-140 | a line of one unit is deleted, a longer one loses one unit, nothing else changes |
| CartService.RemoveProductKeepsInv | code/server/src/controllers/cartController.ts:129-147 | removeProductFromCart keeps the cart invariant |
| CartService.RemoveAllSpec | code/server/src/controllers/cartController.ts:160 | the loop deletes exactly the cart's lines for the listed models |
| CartService.ClearCartSpec | code/server/src/controllers/cartController.ts:154-166 | without an unpaid cart CartNotFound; otherwise every line of that cart and only those are deleted |
| CartService.CheckoutErrors | code/server/src/controllers/cartController.ts:98-109 | CartNotFound without an unpaid cart, EmptyCart for no lines, otherwise the DAO's checkout |
| CartService.CheckoutSucceedsForUser | code/server/src/controllers/cartController.ts:98-109 | when every stored arrival date is not after today, a non-empty cart in stock is paid on today's date, every other cart is found unchanged, the customer has no unpaid cart afterwards, and each stock drops by the quantity ordered |
| CartService.OpenCartRow | code/server/src/dao/cartDAO.ts:55-64 | the id getUserCartId gives is that of a stored unpaid cart of the customer |
| CartService.DeleteAllCartsSpec | code/server/src/controllers/cartController.ts:172-182 | both tables are emptied and getAllCarts then returns nothing |
| CartController.CartController.GetCartId | code/server/src/controllers/cartController.ts:75-91 | equals CartService.GetCartId on the DAO's tables |
| CartController.CartController.AddToCart | code/server/src/controllers/cartController.ts:28-53 | equals CartService.AddToCart on the DAO's tables |
| CartController.CartController.GetCart | code/server/src/controllers/cartController.ts:60-68 | equals CartService.GetCart and changes nothing |
| CartController.CartController.CheckoutCart | code/server/src/controllers/cartController.ts:98-109 | equals CartService.CheckoutCart on the carts and the products table |
| CartController.CartController.GetCustomerCarts | code/server/src/controllers/cartController.ts:117-121 | equals CartService.GetCustomerCarts |
| CartController.CartController.RemoveProductFromCart | code/server/src/controllers/cartController.ts:129-147 | equals CartService.RemoveProductFromCart on the DAO's tables |
| CartController.CartController.ClearCart | code/server/src/controllers/cartController.ts:154-166 | equals CartService.ClearCart on the DAO's tables |
| CartController.CartController.RemoveAll | code/server/src/controllers/cartController.ts:160 | the loop of deletes equals CartService.RemoveAll |
| CartController.CartController.DeleteAllCarts | code/server/src/controllers/cartController.ts:172-182 | equals CartService.DeleteAllCarts |
| CartController.CartController.GetAllCarts | code/server/src/controllers/cartController.ts:188-192 | equals CartService.GetAllCarts |
| UserStore.CreateUser | code/server/src/dao/userDAO.ts:49-63 | UserAlreadyExists exactly when the username is taken, with no change; otherwise one row is appended |
| UserStore.GetUserByUsername | code/server/src/dao/userDAO.ts:70-80 | the user found has the username; UserNotFound exactly when no row has it |
| UserStore.GetUsers | code/server/src/dao/userDAO.ts:82-106 | every row in order when all have username, name, surname and role; "Data format error" exactly otherwise |
| UserStore.GetUsersByRole | code/server/src/dao/userDAO.ts:108-120 | exactly the users with that role |
| UserStore.DeleteUser | code/server/src/dao/userDAO.ts:122-134 | resolves true exactly when the username is stored and false with no change otherwise; exactly the other usernames' rows remain |
| UserStore.DeleteNonAdmin | code/server/src/dao/userDAO.ts:136-144 | resolves true; exactly the Admin rows remain |
| UserStore.UpdateInfo | code/server/src/dao/userDAO.ts:146-162 | resolves true exactly when the username is stored; every row keeps its username and role |
| UserStore.CreateUserSpec | code/server/src/dao/userDAO.ts:49-63 | the new user is found with the given fields and no address or birthdate; other usernames find what they found; usernames stay unique |
| UserStore.DeleteUserSpec | code/server/src/dao/userDAO.ts:122-134 | false with no change for an unknown username; otherwise true, that username is gone and every other one is kept |
| UserStore.DeleteNonAdminSpec | code/server/src/dao/userDAO.ts:136-144 | exactly the Admin rows remain |
| UserStore.UpdateInfoSpec | code/server/src/dao/userDAO.ts:146-162 | false with no change for an unknown username; otherwise only name, surname, address and birthdate of that user change |
| UserDAO.UserDAO.CreateUser | code/server/src/dao/userDAO.ts:49-63 | equals UserStore.CreateUser and keeps usernames unique |
| UserDAO.UserDAO.GetUserByUsername | code/server/src/dao/userDAO.ts:70-80 | equals UserStore.GetUserByUsername |
| UserDAO.UserDAO.GetUsers | code/server/src/dao/userDAO.ts:82-106 | the loop over the rows equals UserStore.GetUsers |
| UserDAO.UserDAO.GetUsersByRole | code/server/src/dao/userDAO.ts:108-120 | equals UserStore.GetUsersByRole |
| UserDAO.UserDAO.DeleteUser | code/server/src/dao/userDAO.ts:122-134 | equals UserStore.DeleteUser and keeps usernames unique |
| UserDAO.UserDAO.DeleteNonAdmin | code/server/src/dao/userDAO.ts:136-144 | equals UserStore.DeleteNonAdmin and keeps usernames unique |
| UserDAO.UserDAO.UpdateInfo | code/server/src/dao/userDAO.ts:146-162 | equals UserStore.UpdateInfo and keeps usernames unique |
| UserService.CreateUser | code/server/src/controllers/userController.ts:30-40 | a refused creation changes nothing |
| UserService.CreateUserSpec | code/server/src/controllers/userController.ts:37-39 | creation succeeds exactly when all five fields are given, the role is Manager, Customer or Admin, and the username is free; the user is then stored |
| UserService.GetUserByUsername | code/server/src/controllers/userController.ts:67-73 | any user returned has the username asked for |
| UserService.GetUserByUsernameSpec | code/server/src/controllers/userController.ts:67-73 | UserNotAdmin exactly for a non-Admin asking about someone else; an Admin gets the DAO's answer; a non-Admin asking about themself gets the caller object back even when it is not the stored row; when the caller is stored, a success is the stored row |
| UserService.DeleteUser | code/server/src/controllers/userController.ts:83-96 | a refused deletion changes nothing |
| UserService.DeleteUserSpec | code/server/src/controllers/userController.ts:83-96 | UserNotAdmin for a non-Admin deleting someone else, false for a missing user, CannotDeleteOtherAdmin for another Admin, each with no change; a row is deleted exactly when it exists and it is the caller's own or an Admin deletes a non-Admin, and then only that row goes |
| UserService.DeleteUserKeepsOtherAdmins | code/server/src/controllers/userController.ts:90-91 | no deletion removes an Admin other than the caller |
| UserService.UpdateUserInfo | code/server/src/controllers/userController.ts:116-139 | a refused update changes nothing |
| UserService.UpdateUserInfoSpec | code/server/src/controllers/userController.ts:116-139 | FutureBirthdate, UserNotAdmin, UserNotFound and CannotDeleteOtherAdmin each in its case with no change; every other request succeeds; the user returned has the new fields and the caller's role on one's own account, the stored role otherwise; only the stored row's four fields change, if the row exists, and no one else changes |
| UserController.UserController.CreateUser | code/server/src/controllers/userController.ts:30-40 | equals UserService.CreateUser on the DAO's table |
| UserController.UserController.GetUsers | code/server/src/controllers/userController.ts:46-48 | equals UserStore.GetUsers |
| UserController.UserController.GetUsersByRole | code/server/src/controllers/userController.ts:55-57 | equals UserStore.GetUsersByRole |
| UserController.UserController.GetUserByUsername | code/server/src/controllers/userController.ts:67-73 | equals UserService.GetUserByUsername |
| UserController.UserController.DeleteUser | code/server/src/controllers/userController.ts:83-96 | equals UserService.DeleteUser on the DAO's table |
| UserController.UserController.DeleteAll | code/server/src/controllers/userController.ts:102-104 | equals UserStore.DeleteNonAdmin on the DAO's table |
| UserController.UserController.UpdateUserInfo | code/server/src/controllers/userController.ts:116-139 | equals UserService.UpdateUserInfo on the DAO's table |
| ReviewStore.Count | code/server/src/dao/reviewDAO.ts:32 | the count is zero exactly when no review has the (model, user) pair |
| ReviewStore.UserHasReview | code/server/src/dao/reviewDAO.ts:28-43 | when it holds, the user has a review of the model |
| ReviewStore.AddReview | code/server/src/dao/reviewDAO.ts:12-26 | the review is appended and the earlier rows are kept |
| ReviewStore.GetReviews | code/server/src/dao/reviewDAO.ts:45-62 | exactly the reviews of the model |
| ReviewStore.DeleteUserReview | code/server/src/dao/reviewDAO.ts:64-80 | exactly the reviews of other (model, user) pairs remain |
| ReviewStore.DeleteModelReviews | code/server/src/dao/reviewDAO.ts:82-99 | exactly the reviews of other models remain |
| ReviewStore.CountAtMostOne | code/server/src/dao/reviewDAO.ts:32-36 | with one review per pair, the count is at most 1 |
| ReviewStore.HasReviewSpec | code/server/src/dao/reviewDAO.ts:28-43 | with one review per pair, userHasReview holds exactly when the user has reviewed the model |
| ReviewStore.DeleteUserReviewCount | code/server/src/dao/reviewDAO.ts:68 | after deleteUserReview the pair counts 0 and every other pair keeps its count |
| ReviewDAO.ReviewDAO.AddReview | code/server/src/dao/reviewDAO.ts:12-26 | equals ReviewStore.AddReview and resolves true |
| ReviewDAO.ReviewDAO.UserHasReview | code/server/src/dao/reviewDAO.ts:28-43 | the counting loop gives ReviewStore.UserHasReview |
| ReviewDAO.ReviewDAO.GetReviews | code/server/src/dao/reviewDAO.ts:45-62 | equals ReviewStore.GetReviews |
| ReviewDAO.ReviewDAO.DeleteUserReview | code/server/src/dao/reviewDAO.ts:64-80 | equals ReviewStore.DeleteUserReview |
| ReviewDAO.ReviewDAO.DeleteModelReviews | code/server/src/dao/reviewDAO.ts:82-99 | equals ReviewStore.DeleteModelReviews |
| ReviewDAO.ReviewDAO.DeleteAllReviews | code/server/src/dao/reviewDAO.ts:101-117 | the table is emptied |
| ReviewService.AddReview | code/server/src/controllers/reviewController.ts:25-40 | a refused review changes nothing |
| ReviewService.AddReviewSpec | code/server/src/controllers/reviewController.ts:27-35 | a score outside [1, 5] is refused whatever the tables hold; a review is stored exactly when the score is in range, the product exists and the user has no review of it; the stored review is the one given, dated today, and is counted once |
| ReviewService.SecondReviewRefused | code/server/src/controllers/reviewController.ts:30-32 | a second review of the same model by the same user is ExistingReview and the pair is still counted once |
| ReviewService.GetProductReviews | code/server/src/controllers/reviewController.ts:47-55 | ProductNotFound exactly for an unknown model; otherwise exactly that model's reviews |
| ReviewService.DeleteReview | code/server/src/controllers/reviewController.ts:63-74 | a refused delete changes nothing |
| ReviewService.DeleteReviewSpec | code/server/src/controllers/reviewController.ts:65-69 | success exactly when the product exists and the user has reviewed it, NoReviewProduct when only the review is missing; then only that review goes |
| ReviewService.DeleteReviewsOfProduct | code/server/src/controllers/reviewController.ts:83-91 | ProductNotFound with no change for an unknown model; otherwise exactly the other models' reviews remain |
| ReviewService.DeleteReviewsOfProductKeepsOne | code/server/src/controllers/reviewController.ts:83-91 | deleting a product's reviews keeps one review per pair |
| ReviewController.ReviewController.AddReview | code/server/src/controllers/reviewController.ts:25-40 | equals ReviewService.AddReview on the review table and the products read |
| ReviewController.ReviewController.GetProductReviews | code/server/src/controllers/reviewController.ts:47-55 | equals ReviewService.GetProductReviews |
| ReviewController.ReviewController.DeleteReview | code/server/src/controllers/reviewController.ts:63-74 | equals ReviewService.DeleteReview |
| ReviewController.ReviewController.DeleteReviewsOfProduct | code/server/src/controllers/reviewController.ts:83-91 | equals ReviewService.DeleteReviewsOfProduct |
| ReviewController.ReviewController.DeleteAllReviews | code/server/src/controllers/reviewController.ts:97-104 | the review table is emptied |

## Left out

- Storage failures (the `err` argument of every sqlite callback) are not modelled: every statement succeeds. Refusals come only from the checks the code makes.
- Concurrency and promise timing are not modelled. Each operation runs to completion before the next one starts. The deletes of clearCart are not awaited; the model performs them in program order. The sales of checkoutCart are awaited one by one (cartDAO.ts:179), so the first rejection stops the loop and reaches its catch, as the model does.
- Password hashing, salts and `getIsUserAuthenticated` (userDAO.ts:17-38) are left out, as are sessions and the routes. The caller is passed in as a User value.
- The clock is the `today` parameter, an ISO `YYYY-MM-DD` date. `Date.parse(birthdate) > Date.now()` is modelled as a string comparison with `today`, so an unparseable birthdate, which JavaScript lets through, is compared as a string here.
- `code/server/src/components/*.ts` (User, Product, Cart, ProductInCart, ProductReview and setReviewDate) is not part of this model. A new review's date is taken to be `today`.
- `code/server/src/db/db.ts` and the table definitions are not part of this model. Nothing in the code shows a key on productincart or productreview, so inserts there are never refused. Unique (cart, model) lines and one review per (model, user) are invariants that the controllers keep (CartService.Inv, ReviewStore.OneReviewEach).
- Product quantities, and the quantities sold or added, are integers. The controllers and the DAO take a JavaScript number and do not check that it is whole, so a fractional quantity is not modelled.
- ReviewService.AddReview: the score is an integer. A fractional score between 1 and 5, which the controller would accept, is not modelled.
- The cart `total` column stays 0, as cartDAO.ts:99 writes it. The sum of price times quantity that a total would hold is not modelled.
- createEmptyCart rejects with the class `CartAlreadyExistsError` itself rather than an instance (cartDAO.ts:96). The model uses the CartAlreadyExists kind. Its missing `return` after the reject at cartDAO.ts:98 cannot matter, because the check before it only lets CartNotFound through.
- createUser does not return after rejecting at userDAO.ts:57. A settled promise ignores the later resolve, so the model refuses the insert with UserAlreadyExists.
- The `!rows` branch of getUsers (userDAO.ts:87) cannot be reached, because `db.all` always passes an array. It is not modelled.
- checkoutCart in cartController does not handle a rejection of its inner getCart. In the model that getCart always succeeds for an unpaid cart, so the case does not arise.
- CartService.GetCart: the empty cart for a customer without an unpaid cart has paymentDate "", as cartController.ts:65 builds it. A stored unpaid cart reads back as no date.
- ReviewController reads products through its own ProductDAO (reviewController.ts:14). The model gives it a ProductDAO object, which may be the shared one. It only reads the products table.
