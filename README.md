# Restaurant orders portal: service-layer model

This project models the service layer of a food-delivery backend, as its unit tests pin it down. It has two services.

- **Order service**:
  - `placeOrder` runs a fixed chain of checks against the user, restaurant, address and food-item services. The first failing check decides the error. When every check passes, the order is saved, the user's wallet is debited with the order total and the user's cart is cleared.
  - `cancelOrder` sets an order to CANCELLED, saves it and credits the total back to the wallet.
  - `markOrderAsCompleted` sets an order to COMPLETED when the acting user is a restaurant owner.
  - `getOrdersByUserId` and `getOrdersByRestaurantId` list the stored orders after checking that the user or restaurant exists.
- **Restaurant service**:
  - Food categories are keyed by restaurant and upper-cased name.
  - Food items have names unique per restaurant, image bytes, lookup by id and listing by category.

Layout:

| file | content |
|---|---|
| `results.dfy` | `Option`, `Result`, and `Outcome` (pass or first error) |
| `tables.dfy` | A repository table as a sequence in which the row at position i has id i + 1. It provides `Get`/`Put` by id, `Find` (first match) and `Filter` (all matches, order kept). |
| `order_workflow.dfy` | Module `OrderWorkflow` (see below) |
| `food_categories.dfy` | Module `FoodCategories`: ASCII upper-casing and the `FoodCategoryService` class |
| `food_items.dfy` | Module `FoodItems`: lookups and the `FoodItemService` class |

In `OrderWorkflow`:

- The remote user, restaurant, address and food-item services are one `Directory` value held by the service.
- Pricing and the placement checks are pure functions.
- The `OrderService` class owns the mutable state:
  - the order table and the carts,
  - a log of wallet calls,
  - ghost logs of repository saves and queries.

In both restaurant-service classes, the saves are a ghost log.

The repositories and remote clients that the tests mock are state that the model owns. In each scenario, every call the scenario's methods make is answered as that test's mocks answer it. Read-only listing tests whose mocks hold the same orders share one store.

## Model

| member | source | states |
|---|---|---|
| OrderWorkflow.TotalAppend | OrderService/src/test/java/com/nt/order/microservice/service/OrderServiceImplTest.java:76-85 | The order total of two concatenated carts is the sum of their totals. |
| OrderWorkflow.TotalPermutation | OrderService/src/test/java/com/nt/order/microservice/service/OrderServiceImplTest.java:76-85 | Two carts holding the same lines in any order have the same total. |
| OrderWorkflow.TotalNonNegative | OrderService/src/test/java/com/nt/order/microservice/service/OrderServiceImplTest.java:76-85 | With non-negative prices and positive quantities, the total (the wallet debit) is not negative. |
| OrderWorkflow.CheckCartItems | OrderService/src/test/java/com/nt/order/microservice/service/OrderServiceImplTest.java:151-182 | The cart passes iff every line's food item exists and is on the restaurant's menu. Otherwise the first refused line decides the error: INVALID_FOOD_ITEM_ID if its item is unknown, FOOD_ITEM_DOES_NOT_BELONG_TO_RESTAURANT if it is off the menu. |
| OrderWorkflow.CheckPlacement | OrderService/src/test/java/com/nt/order/microservice/service/OrderServiceImplTest.java:124-206 | Placement passes iff all of these hold: the user exists, the user is not a restaurant owner, the restaurant exists, the address is one of the user's, and every cart line is accepted. |
| OrderWorkflow.PlacementErrorIsFirstFailure | OrderService/src/test/java/com/nt/order/microservice/service/OrderServiceImplTest.java:124-206 | Each placement error occurs exactly when all earlier checks passed and its own check failed. The order is: USER_NOT_FOUND, RESTAURANT_OWNER_ORDER_ERROR, INVALID_RESTAURANT_ID, ADDRESS_NOT_FOUND, then the first refused cart line. Only the owner error is of the Unauthorized kind. |
| OrderWorkflow.PlacementTestScenarios | OrderService/src/test/java/com/nt/order/microservice/service/OrderServiceImplTest.java:124-206 | Under each test's mocks, placement gives the error that test expects. With every lookup answered, it passes with a total of 100 for 2 x 50. |
| OrderWorkflow.OrdersOfUser | OrderService/src/test/java/com/nt/order/microservice/service/OrderServiceImplTest.java:257-290 | USER_NOT_FOUND iff the user is unknown. Otherwise, exactly the stored orders of that user, each as often as it is stored. |
| OrderWorkflow.OrdersOfRestaurant | OrderService/src/test/java/com/nt/order/microservice/service/OrderServiceImplTest.java:292-314 | INVALID_RESTAURANT_ID iff the restaurant is unknown. Otherwise, exactly the stored orders of that restaurant, each as often as it is stored. |
| OrderWorkflow.NoOrdersIsEmptyList | OrderService/src/test/java/com/nt/order/microservice/service/OrderServiceImplTest.java:257-267 | A known user with no orders gets an empty list, not an error. |
| OrderWorkflow.OrderService.PlaceOrder | OrderService/src/test/java/com/nt/order/microservice/service/OrderServiceImplTest.java:103-206 | Succeeds iff placement is valid. A failure returns the first failing check's error and saves, debits and clears nothing. A success appends a PLACED order to the requested address, with the cart total, under the next id, saves it once, debits the wallet once with the total and removes the user's cart. Stored orders are otherwise unchanged. |
| OrderWorkflow.OrderService.CancelOrder | OrderService/src/test/java/com/nt/order/microservice/service/OrderServiceImplTest.java:208-229 | An unknown id gives ORDER_NOT_FOUND with no save and no wallet call. Otherwise the order becomes CANCELLED in place, is saved once, and exactly one addMoney of its total goes to its user. No other order and no other field changes. |
| OrderWorkflow.OrderService.MarkOrderAsCompleted | OrderService/src/test/java/com/nt/order/microservice/service/OrderServiceImplTest.java:231-255 | An unknown order gives ORDER_NOT_FOUND; an acting user who is not a restaurant owner gives UNAUTHORIZED_USER. Neither saves. An owner turns the order COMPLETED in place with one save and no wallet call. |
| OrderWorkflow.OrderService.GetOrdersByUserId | OrderService/src/test/java/com/nt/order/microservice/service/OrderServiceImplTest.java:257-290 | Returns the listing `OrdersOfUser` describes. The order repository is queried once, and only when the user exists. |
| OrderWorkflow.OrderService.GetOrdersByRestaurantId | OrderService/src/test/java/com/nt/order/microservice/service/OrderServiceImplTest.java:292-314 | Returns the listing `OrdersOfRestaurant` describes. The order repository is queried once, and only when the restaurant exists. |
| OrderWorkflow.CancelOrderScenario | OrderService/src/test/java/com/nt/order/microservice/service/OrderServiceImplTest.java:208-217 | Cancelling stored order 1 (user 1, total 100) returns ORDER_CANCELLED_SUCCESSFULLY, stores it CANCELLED and issues exactly addMoney(1, 100). |
| OrderWorkflow.CancelMissingOrderScenario | OrderService/src/test/java/com/nt/order/microservice/service/OrderServiceImplTest.java:219-229 | Cancelling a missing order is a ResourceNotFound ORDER_NOT_FOUND with no wallet call. |
| OrderWorkflow.MarkOrderAsCompletedScenario | OrderService/src/test/java/com/nt/order/microservice/service/OrderServiceImplTest.java:231-255 | A RESTAURANT_OWNER completes order 1. A USER gets an Unauthorized UNAUTHORIZED_USER, and the order is unchanged. |
| OrderWorkflow.ListOrdersScenario | OrderService/src/test/java/com/nt/order/microservice/service/OrderServiceImplTest.java:257-314 | With one stored order, user 1 and restaurant 2 each list exactly one order. With none stored, both list nothing. Each listing queries the order repository once. An unknown user gives USER_NOT_FOUND without querying it. |
| FoodCategories.ToUpperAt | RestaurantService/src/test/java/com/nt/restaurant/microservice/service/FoodCategoryServiceImplTest.java:53-65 | Upper-casing a name maps each character to its upper-case form. |
| FoodCategories.ToUpperNormalises | RestaurantService/src/test/java/com/nt/restaurant/microservice/service/FoodCategoryServiceImplTest.java:53-65 | A stored name has no lower-case letter, and upper-casing it again changes nothing. |
| FoodCategories.ToUpperCollides | RestaurantService/src/test/java/com/nt/restaurant/microservice/service/FoodCategoryServiceImplTest.java:53-65 | Two names get the same lookup key iff they agree letter by letter up to case. |
| FoodCategories.ToUpperAppend | RestaurantService/src/test/java/com/nt/restaurant/microservice/service/FoodCategoryServiceImplTest.java:53-65 | Upper-casing distributes over concatenation. |
| FoodCategories.TestCategoryUpper | RestaurantService/src/test/java/com/nt/restaurant/microservice/service/FoodCategoryServiceImplTest.java:53-65 | "Test Category" is looked up and stored as "TEST CATEGORY". |
| FoodCategories.SampleCategoryUpper | RestaurantService/src/test/java/com/nt/restaurant/microservice/service/FoodCategoryServiceImplTest.java:128-151 | "Sample Category" is looked up as "SAMPLE CATEGORY". |
| FoodCategories.GetFoodCategoryByRestaurantId | RestaurantService/src/test/java/com/nt/restaurant/microservice/service/FoodCategoryServiceImplTest.java:153-183 | "Restaurant not found" iff the restaurant is unknown. Otherwise, exactly the stored categories of that restaurant, with their stored names. |
| FoodCategories.AddKeepsNamesUnique | RestaurantService/src/test/java/com/nt/restaurant/microservice/service/FoodCategoryServiceImplTest.java:51-72 | Storing a category whose name the duplicate lookup did not find keeps names unique per restaurant. |
| FoodCategories.RenameKeepsNamesUnique | RestaurantService/src/test/java/com/nt/restaurant/microservice/service/FoodCategoryServiceImplTest.java:89-151 | Renaming a category keeps names unique per restaurant. This holds when the duplicate lookup found no category, or found that same category. |
| FoodCategories.FoodCategoryService.AddFoodCategory | RestaurantService/src/test/java/com/nt/restaurant/microservice/service/FoodCategoryServiceImplTest.java:51-87 | In the model's order: an unknown restaurant gives "Restaurant not found", then an upper-cased name already in the restaurant gives "Food category already exists for this restaurant". Otherwise the category is stored and saved once under the upper-cased name and the next id, and FOOD_CATEGORY_ADDED_SUCCESS is returned. Unique, upper-case names are preserved. |
| FoodCategories.FoodCategoryService.UpdateFoodCategory | RestaurantService/src/test/java/com/nt/restaurant/microservice/service/FoodCategoryServiceImplTest.java:89-151 | An unknown id gives "Food category not found". An upper-cased name held by a different category of the requested restaurant gives "Food category already exists for this restaurant". Otherwise the category takes that restaurant and name in place, is saved once, and FOOD_CATEGORY_UPDATED_SUCCESS is returned. Unique names are preserved. |
| FoodCategories.AddFoodCategoryScenario | RestaurantService/src/test/java/com/nt/restaurant/microservice/service/FoodCategoryServiceImplTest.java:51-87 | "Test Category" added to restaurant 1 is stored as "TEST CATEGORY". Without restaurant 1 the add is refused with "Restaurant not found". |
| FoodCategories.TestCategoriesLookup | RestaurantService/src/test/java/com/nt/restaurant/microservice/service/FoodCategoryServiceImplTest.java:128-151 | In the test store, the lookup of "SAMPLE CATEGORY" in restaurant 1 finds category 2. |
| FoodCategories.UpdateFoodCategoryScenario | RestaurantService/src/test/java/com/nt/restaurant/microservice/service/FoodCategoryServiceImplTest.java:113-151 | Renaming category 1 to a name held by category 2 is refused with "Food category already exists for this restaurant". Renaming a missing category is refused with "Food category not found". |
| FoodItems.FindFoodItemById | RestaurantService/src/test/java/com/nt/restaurant/microservice/service/FoodItemServiceImplTest.java:166-171 | NotFound iff no stored item has the id. Otherwise, the stored item with that id. |
| FoodItems.GetFoodItemImage | RestaurantService/src/test/java/com/nt/restaurant/microservice/service/FoodItemServiceImplTest.java:154-164 | NotFound iff no stored item has the id. Otherwise, exactly the bytes stored with that item. |
| FoodItems.GetFoodItemsByCategory | RestaurantService/src/test/java/com/nt/restaurant/microservice/service/FoodItemServiceImplTest.java:102-120 | NotFound, rather than an empty list, iff no stored item is in the category. Otherwise a non-empty list of exactly the category's items. |
| FoodItems.ImageAfterAdd | RestaurantService/src/test/java/com/nt/restaurant/microservice/service/FoodItemServiceImplTest.java:154-164 | The image bytes stored by an add are read back unchanged under the new id. |
| FoodItems.ImageAfterUpdate | RestaurantService/src/test/java/com/nt/restaurant/microservice/service/FoodItemServiceImplTest.java:122-164 | After an update, the image read back is the one sent. If none was sent, it is the old one. |
| FoodItems.AddKeepsNamesUnique | RestaurantService/src/test/java/com/nt/restaurant/microservice/service/FoodItemServiceImplTest.java:83-100 | Storing an item whose name the duplicate lookup did not find keeps item names unique per restaurant. |
| FoodItems.FoodItemService.AddFoodItem | RestaurantService/src/test/java/com/nt/restaurant/microservice/service/FoodItemServiceImplTest.java:83-100 | The errors, in the model's order: unknown restaurant, unknown category, then a name already used in the restaurant (AlreadyExist). None of them saves. Otherwise the item is appended and saved once under the next id, and its image reads back unchanged. |
| FoodItems.FoodItemService.UpdateFoodItemByFoodItemId | RestaurantService/src/test/java/com/nt/restaurant/microservice/service/FoodItemServiceImplTest.java:122-137 | An unknown id gives NotFound with no save. Otherwise the item takes the new name, and the new image when one is sent, in place. It is saved once and FOOD_ITEM_UPDATED_SUCCESS is returned. |
| FoodItems.AddDuplicateFoodItemScenario | RestaurantService/src/test/java/com/nt/restaurant/microservice/service/FoodItemServiceImplTest.java:83-100 | A second "Pizza" in restaurant 1 is refused with AlreadyExist, although the restaurant and category exist. |
| FoodItems.UpdateFoodItemScenario | RestaurantService/src/test/java/com/nt/restaurant/microservice/service/FoodItemServiceImplTest.java:122-137 | Renaming item 1 succeeds and stores the new name with the old image. |
| FoodItems.LookupTestScenarios | RestaurantService/src/test/java/com/nt/restaurant/microservice/service/FoodItemServiceImplTest.java:102-171 | The stored item's image is [1, 2, 3]. A missing id is NotFound. A category with an item lists it; an empty category is NotFound. |

## Left out

- Transport failures of the remote clients, other than "not found", are not modelled. These are errors that would propagate as an upstream failure. Each client answers from the `Directory` value.
- Prices are integers in the smallest currency unit rather than `double`. The placement timestamp is a parameter rather than the clock.
- Wallet balances are not modelled. The model records only the `updateWalletBalance` and `addMoney` calls.
- OrderWorkflow.OrderService.PlaceOrder: the success branch follows the calls that the commented-out test verifies (OrderServiceImplTest.java:119-121): `save`, `deleteByUserId` and `updateWalletBalance`. Their order (save, then debit, then clear) is the model's choice and is not a tested contract. The success message of that test (ITEM_ADDED_TO_CART_SUCCESS) is not modelled; the method returns the order.
- OrderWorkflow.CheckPlacement: the address check requires the chosen address to be among the user's addresses. The tests pin only the empty-list case.
- OrderWorkflow.OrderService.MarkOrderAsCompleted: no test covers an unknown acting user; the model answers USER_NOT_FOUND. Ownership of the order's restaurant is not checked. In the completion-success test (OrderServiceImplTest.java:231-241), user 1 completes restaurant 2's order and the restaurant client is not mocked.
- OrderWorkflow.OrdersOfRestaurant: no test covers an unknown restaurant; the model answers INVALID_RESTAURANT_ID.
- Guards against cancelling twice or cancelling a completed order: none, because no test asserts one. A repeated cancel credits the wallet again.
- FoodCategories.ToUpper: upper-cases ASCII letters only. Java's locale-aware Unicode upper-casing is not modelled.
- FoodCategories.FoodCategoryService.AddFoodCategory: checking the restaurant before the duplicate lookup is the model's choice. The restaurant-not-found test leaves the lookup unmocked, so either order passes it.
- FoodCategories.FoodCategoryService.UpdateFoodCategory: the updated category takes the request's restaurant id. This is the model's choice: the test's stored category has no restaurant, and the saved entity is never inspected.
- FoodCategories.FoodCategoryService.UpdateFoodCategory: no restaurant lookup. In the success test the restaurant repository is not mocked, so it answers empty and the update still succeeds.
- FoodItems.FoodItemService.AddFoodItem: the unknown-restaurant and unknown-category errors, and their order before the duplicate check, are the model's choice. The only add test mocks both lookups as present.
- FoodItems.FoodItemService.AddFoodItem: the name is compared as given. The tests do not show whether item names are normalised. The success path follows a test that is commented out in the source.
- FoodItems.FoodItemService.UpdateFoodItemByFoodItemId: the new name is not checked for duplicates, because the success test does not exercise such a check.
- Reading image bytes from the uploaded multipart file, and its `IOException` path, are I/O. The image arrives as a byte sequence.
- Logging, the Spring and Mockito wiring, and the JPA mechanics of the repositories are not modelled. Neither are concurrent requests, such as two racing cancellations of one order.
