/**
 * The order service: placing an order after a fixed chain of checks against the
 * user, restaurant, address and food-item services, cancelling and completing
 * orders, and listing them by user or by restaurant.
 *
 * The remote services are a `Directory` value (what each client answers); the
 * order and cart repositories are tables owned by `OrderService`. Amounts are
 * integers in the smallest currency unit.
 */
module OrderWorkflow {
  import opened Results
  import opened Tables

  datatype Role = User | RestaurantOwner

  datatype OrderStatus = Placed | Cancelled | Completed

  /** One cart line: a food item, the unit price the caller supplies and a quantity. */
  datatype CartItem = CartItem(foodItemId: int, price: int, quantity: int)

  /** The placement request: who orders, from which restaurant, to which address, what. */
  datatype OrderRequest = OrderRequest(userId: int, restaurantId: int, addressId: int, cartItems: seq<CartItem>)

  datatype Order = Order(
    orderId: int,
    userId: int,
    restaurantId: int,
    addressId: int,
    lines: seq<CartItem>,
    totalPrice: int,
    placedTiming: int,
    status: OrderStatus)

  /**
   * What the remote clients answer: user profiles with their role, the restaurants
   * that exist, each user's saved address ids, the food items that exist and each
   * restaurant's menu. A key missing from `users` is the user client's "not found";
   * a user or restaurant missing from `addresses` or `menus` gets an empty list.
   */
  datatype Directory = Directory(
    users: map<int, Role>,
    restaurants: set<int>,
    addresses: map<int, seq<int>>,
    foodItems: set<int>,
    menus: map<int, seq<int>>)

  /** The exception class an error is thrown as. */
  datatype ErrorKind = ResourceNotFound | Unauthorized

  /** The failures of the order service, one per message constant. */
  datatype OrderError =
    | UserNotFound
    | RestaurantOwnerOrderError
    | InvalidRestaurantId
    | AddressNotFound
    | InvalidFoodItemId
    | FoodItemDoesNotBelongToRestaurant
    | OrderNotFound
    | UnauthorizedUser
  {
    function Kind(): ErrorKind
    {
      match this
      case RestaurantOwnerOrderError => Unauthorized
      case UnauthorizedUser => Unauthorized
      case _ => ResourceNotFound
    }
  }

  datatype Message = OrderCancelledSuccessfully | OrderCompletedSuccessfully

  /** Calls issued to the user service's wallet: a debit on placement, a refund on cancellation. */
  datatype WalletCall = UpdateWalletBalance(userId: int, amount: int) | AddMoney(userId: int, amount: int)

  /** Queries issued to the order repository by the listings. */
  datatype Query = FindByUserId(userId: int) | FindByRestaurantId(restaurantId: int)

  function OrderKey(o: Order): int { o.orderId }

  // ---------------------------------------------------------------------------
  // Pricing

  function LineTotal(item: CartItem): int { item.price * item.quantity }

  /** The order total: the sum of unit price times quantity over the cart lines. */
  function Total(items: seq<CartItem>): int
  {
    if items == [] then 0 else LineTotal(items[0]) + Total(items[1..])
  }

  lemma {:induction false} TotalAppend(a: seq<CartItem>, b: seq<CartItem>)
    ensures Total(a + b) == Total(a) + Total(b)
  {
    if a == [] {
      assert a + b == b;
    } else {
      assert (a + b)[1..] == a[1..] + b;
      TotalAppend(a[1..], b);
    }
  }

  /** The total does not depend on the order of the cart lines. */
  lemma {:induction false} TotalPermutation(a: seq<CartItem>, b: seq<CartItem>)
    requires multiset(a) == multiset(b)
    ensures Total(a) == Total(b)
  {
    if a == [] {
      assert |b| == |multiset(b)| == 0;
    } else {
      var x := a[0];
      assert x in multiset(b);
      var i :| 0 <= i < |b| && b[i] == x;
      var rest := b[..i] + b[i + 1..];
      assert b == b[..i] + [x] + b[i + 1..];
      TotalAppend(b[..i] + [x], b[i + 1..]);
      TotalAppend(b[..i], [x]);
      TotalAppend(b[..i], b[i + 1..]);
      assert Total([x]) == LineTotal(x);
      assert a == [x] + a[1..];
      assert multiset(b) == multiset(b[..i]) + multiset([x]) + multiset(b[i + 1..]);
      assert multiset(rest) == multiset(b[..i]) + multiset(b[i + 1..]);
      assert multiset(a) == multiset([x]) + multiset(a[1..]);
      assert multiset(a[1..]) == multiset(a) - multiset{x};
      assert multiset(rest) == multiset(b) - multiset{x};
      TotalPermutation(a[1..], rest);
    }
  }

  /** With non-negative prices and positive quantities the wallet debit is never negative. */
  lemma {:induction false} TotalNonNegative(items: seq<CartItem>)
    requires forall i :: 0 <= i < |items| ==> items[i].price >= 0 && items[i].quantity > 0
    ensures Total(items) >= 0
  {
    if items != [] {
      TotalNonNegative(items[1..]);
    }
  }

  // ---------------------------------------------------------------------------
  // Placement checks

  function AddressesOf(d: Directory, userId: int): seq<int>
  {
    if userId in d.addresses then d.addresses[userId] else []
  }

  function MenuOf(d: Directory, restaurantId: int): seq<int>
  {
    if restaurantId in d.menus then d.menus[restaurantId] else []
  }

  /** A cart line is accepted when its food item exists and is on the restaurant's menu. */
  predicate ItemAccepted(d: Directory, restaurantId: int, foodItemId: int)
  {
    foodItemId in d.foodItems && foodItemId in MenuOf(d, restaurantId)
  }

  /** Why a cart line is refused: the item lookup comes before the menu lookup. */
  function ItemError(d: Directory, foodItemId: int): OrderError
  {
    if foodItemId !in d.foodItems then InvalidFoodItemId else FoodItemDoesNotBelongToRestaurant
  }

  /** Line i is the first cart line that is refused. */
  ghost predicate FirstRejected(d: Directory, restaurantId: int, items: seq<CartItem>, i: int)
  {
    && 0 <= i < |items|
    && !ItemAccepted(d, restaurantId, items[i].foodItemId)
    && forall j :: 0 <= j < i ==> ItemAccepted(d, restaurantId, items[j].foodItemId)
  }

  /** The cart lines are checked in order; the first refused line decides the error. */
  function CheckCartItems(d: Directory, restaurantId: int, items: seq<CartItem>): (r: Outcome<OrderError>)
    ensures r.Pass? <==> forall i :: 0 <= i < |items| ==> ItemAccepted(d, restaurantId, items[i].foodItemId)
    ensures forall i :: FirstRejected(d, restaurantId, items, i) ==> r == Fail(ItemError(d, items[i].foodItemId))
    ensures r.Fail? ==> exists i :: FirstRejected(d, restaurantId, items, i)
  {
    if items == [] then Pass
    else if !ItemAccepted(d, restaurantId, items[0].foodItemId) then
      assert FirstRejected(d, restaurantId, items, 0);
      Fail(ItemError(d, items[0].foodItemId))
    else
      var rest := CheckCartItems(d, restaurantId, items[1..]);
      assert forall i :: 1 <= i && FirstRejected(d, restaurantId, items, i) ==> FirstRejected(d, restaurantId, items[1..], i - 1);
      assert forall i :: FirstRejected(d, restaurantId, items[1..], i) ==> FirstRejected(d, restaurantId, items, i + 1);
      rest
  }

  /** Everything placement demands, stated at once. */
  ghost predicate PlacementValid(d: Directory, request: OrderRequest)
  {
    && request.userId in d.users
    && d.users[request.userId] != RestaurantOwner
    && request.restaurantId in d.restaurants
    && request.addressId in AddressesOf(d, request.userId)
    && forall i :: 0 <= i < |request.cartItems| ==> ItemAccepted(d, request.restaurantId, request.cartItems[i].foodItemId)
  }

  /**
   * The validation pipeline of placeOrder: user exists, user is not a restaurant
   * owner, restaurant exists, the address is one of the user's, every cart line is
   * accepted. The first failing check decides the error.
   */
  function CheckPlacement(d: Directory, request: OrderRequest): (r: Outcome<OrderError>)
    ensures r.Pass? <==> PlacementValid(d, request)
  {
    if request.userId !in d.users then Fail(UserNotFound)
    else if d.users[request.userId] == RestaurantOwner then Fail(RestaurantOwnerOrderError)
    else if request.restaurantId !in d.restaurants then Fail(InvalidRestaurantId)
    else if request.addressId !in AddressesOf(d, request.userId) then Fail(AddressNotFound)
    else CheckCartItems(d, request.restaurantId, request.cartItems)
  }

  /** Each error of placement arises exactly when every earlier check passed and its own check failed. */
  lemma PlacementErrorIsFirstFailure(d: Directory, request: OrderRequest)
    ensures CheckPlacement(d, request) == Fail(UserNotFound)
        <==> request.userId !in d.users
    ensures CheckPlacement(d, request) == Fail(RestaurantOwnerOrderError)
        <==> request.userId in d.users && d.users[request.userId] == RestaurantOwner
    ensures CheckPlacement(d, request) == Fail(InvalidRestaurantId)
        <==> UserMayOrder(d, request) && request.restaurantId !in d.restaurants
    ensures CheckPlacement(d, request) == Fail(AddressNotFound)
        <==> UserMayOrder(d, request) && request.restaurantId in d.restaurants
             && request.addressId !in AddressesOf(d, request.userId)
    ensures CheckPlacement(d, request) == Fail(InvalidFoodItemId)
        <==> HeaderValid(d, request)
             && exists i :: FirstRejected(d, request.restaurantId, request.cartItems, i)
                            && request.cartItems[i].foodItemId !in d.foodItems
    ensures CheckPlacement(d, request) == Fail(FoodItemDoesNotBelongToRestaurant)
        <==> HeaderValid(d, request)
             && exists i :: FirstRejected(d, request.restaurantId, request.cartItems, i)
                            && request.cartItems[i].foodItemId in d.foodItems
    ensures CheckPlacement(d, request).Fail? ==>
        (CheckPlacement(d, request).error.Kind() == Unauthorized <==> CheckPlacement(d, request).error == RestaurantOwnerOrderError)
  {
  }

  ghost predicate UserMayOrder(d: Directory, request: OrderRequest)
  {
    request.userId in d.users && d.users[request.userId] != RestaurantOwner
  }

  ghost predicate HeaderValid(d: Directory, request: OrderRequest)
  {
    && UserMayOrder(d, request)
    && request.restaurantId in d.restaurants
    && request.addressId in AddressesOf(d, request.userId)
  }

  /** The order placement builds: status PLACED, the total of the cart, the next id. */
  function NewOrder(request: OrderRequest, orderId: int, placedTiming: int): Order
  {
    Order(orderId, request.userId, request.restaurantId, request.addressId,
          request.cartItems, Total(request.cartItems), placedTiming, Placed)
  }

  /**
   * The placement scenarios of the unit tests, each with exactly the answers its
   * mocks give (a client that is not mocked answers "nothing"): user 1 orders one
   * line of food item 1 at 50 x 2 from restaurant 2 to address 3.
   */
  function TestRequest(): OrderRequest
  {
    OrderRequest(1, 2, 3, [CartItem(1, 50, 2)])
  }

  lemma PlacementTestScenarios()
    ensures CheckPlacement(Directory(map[1 := RestaurantOwner], {}, map[], {}, map[]), TestRequest())
         == Fail(RestaurantOwnerOrderError)
    ensures CheckPlacement(Directory(map[1 := User], {2}, map[1 := []], {}, map[]), TestRequest())
         == Fail(AddressNotFound)
    ensures CheckPlacement(Directory(map[1 := User], {2}, map[1 := [3]], {}, map[]), TestRequest())
         == Fail(InvalidFoodItemId)
    ensures CheckPlacement(Directory(map[1 := User], {2}, map[1 := [3]], {1}, map[2 := []]), TestRequest())
         == Fail(FoodItemDoesNotBelongToRestaurant)
    ensures CheckPlacement(Directory(map[], {}, map[], {}, map[]), TestRequest())
         == Fail(UserNotFound)
    ensures CheckPlacement(Directory(map[1 := User], {}, map[], {}, map[]), TestRequest())
         == Fail(InvalidRestaurantId)
    ensures CheckPlacement(Directory(map[1 := User], {2}, map[1 := [3]], {1}, map[2 := [1]]), TestRequest())
         == Pass
    ensures Total(TestRequest().cartItems) == 100
  {
  }

  // ---------------------------------------------------------------------------
  // Listings

  /** getOrdersByUserId: the user must exist; then every stored order of that user. */
  function OrdersOfUser(d: Directory, orders: seq<Order>, userId: int): (r: Result<seq<Order>, OrderError>)
    ensures r.Failure? <==> userId !in d.users
    ensures r.Failure? ==> r.error == UserNotFound
    ensures r.Success? ==> forall o :: o in r.value <==> o in orders && o.userId == userId
    ensures r.Success? ==> forall o: Order :: o.userId == userId ==> multiset(r.value)[o] == multiset(orders)[o]
  {
    if userId !in d.users then Failure(UserNotFound)
    else Success(Filter(orders, (o: Order) => o.userId == userId))
  }

  /** getOrdersByRestaurantId: the restaurant must exist; then every stored order for it. */
  function OrdersOfRestaurant(d: Directory, orders: seq<Order>, restaurantId: int): (r: Result<seq<Order>, OrderError>)
    ensures r.Failure? <==> restaurantId !in d.restaurants
    ensures r.Failure? ==> r.error == InvalidRestaurantId
    ensures r.Success? ==> forall o :: o in r.value <==> o in orders && o.restaurantId == restaurantId
    ensures r.Success? ==> forall o: Order :: o.restaurantId == restaurantId ==> multiset(r.value)[o] == multiset(orders)[o]
  {
    if restaurantId !in d.restaurants then Failure(InvalidRestaurantId)
    else Success(Filter(orders, (o: Order) => o.restaurantId == restaurantId))
  }

  /** A user with no stored orders gets an empty list, not an error. */
  lemma NoOrdersIsEmptyList(d: Directory, orders: seq<Order>, userId: int)
    requires userId in d.users
    requires forall o :: o in orders ==> o.userId != userId
    ensures OrdersOfUser(d, orders, userId) == Success([])
  {
  }

  // ---------------------------------------------------------------------------
  // Order history

  /** Orders are never removed, and apart from their status never change once stored. */
  ghost predicate FrozenExceptStatus(before: seq<Order>, after: seq<Order>)
  {
    && |before| <= |after|
    && forall i :: 0 <= i < |before| ==> after[i].(status := before[i].status) == before[i]
  }

  /** The order service with its repositories and the calls it has issued. */
  class OrderService {
    const directory: Directory
    var orders: seq<Order>
    var carts: map<int, seq<CartItem>>
    var walletCalls: seq<WalletCall>
    ghost var saves: seq<Order>
    ghost var queries: seq<Query>

    ghost predicate Valid()
      reads this
    {
      Keyed(orders, OrderKey)
    }

    constructor (directory: Directory, orders: seq<Order>, carts: map<int, seq<CartItem>>)
      requires Keyed(orders, OrderKey)
      ensures Valid()
      ensures this.directory == directory && this.orders == orders && this.carts == carts
      ensures walletCalls == [] && saves == [] && queries == []
    {
      this.directory := directory;
      this.orders := orders;
      this.carts := carts;
      walletCalls := [];
      saves := [];
      queries := [];
    }

    /**
     * placeOrder: every check passes before anything is written; then the order is
     * saved, the user's wallet is debited with its total and the user's cart is cleared.
     */
    method PlaceOrder(request: OrderRequest, placedTiming: int) returns (r: Result<Order, OrderError>)
      requires Valid()
      modifies this
      ensures Valid() && queries == old(queries)
      ensures FrozenExceptStatus(old(orders), orders)
      ensures r.Success? <==> PlacementValid(directory, request)
      ensures r.Failure? ==>
        && CheckPlacement(directory, request) == Fail(r.error)
        && orders == old(orders) && saves == old(saves)
        && walletCalls == old(walletCalls) && carts == old(carts)
      ensures r.Success? ==>
        && r.value.orderId == |old(orders)| + 1
        && r.value.status == Placed
        && r.value.totalPrice == Total(request.cartItems)
        && r.value.userId == request.userId && r.value.restaurantId == request.restaurantId
        && r.value.addressId == request.addressId
        && r.value.lines == request.cartItems && r.value.placedTiming == placedTiming
        && orders == old(orders) + [r.value]
        && Get(orders, r.value.orderId) == Some(r.value)
        && saves == old(saves) + [r.value]
        && walletCalls == old(walletCalls) + [UpdateWalletBalance(request.userId, r.value.totalPrice)]
        && carts == old(carts) - {request.userId}
    {
      var check := CheckPlacement(directory, request);
      if check.Fail? {
        return Failure(check.error);
      }
      var order := NewOrder(request, |orders| + 1, placedTiming);
      AppendKeepsKeyed(orders, OrderKey, order);
      orders := orders + [order];
      saves := saves + [order];
      walletCalls := walletCalls + [UpdateWalletBalance(request.userId, order.totalPrice)];
      carts := carts - {request.userId};
      r := Success(order);
    }

    /**
     * cancelOrder: the order must exist; its status becomes CANCELLED, it is saved
     * once and its total is credited back to the user's wallet once. Any status may
     * be cancelled.
     */
    method CancelOrder(orderId: int) returns (r: Result<Message, OrderError>)
      requires Valid()
      modifies this
      ensures Valid() && carts == old(carts) && queries == old(queries)
      ensures FrozenExceptStatus(old(orders), orders)
      ensures Get(old(orders), orderId).None? ==>
        && r == Failure(OrderNotFound)
        && orders == old(orders) && saves == old(saves) && walletCalls == old(walletCalls)
      ensures Get(old(orders), orderId).Some? ==>
        var cancelled := Get(old(orders), orderId).value.(status := Cancelled);
        && r == Success(OrderCancelledSuccessfully)
        && orders == Put(old(orders), orderId, cancelled)
        && Get(orders, orderId) == Some(cancelled)
        && saves == old(saves) + [cancelled]
        && walletCalls == old(walletCalls) + [AddMoney(cancelled.userId, cancelled.totalPrice)]
    {
      var found := Get(orders, orderId);
      if found.None? {
        return Failure(OrderNotFound);
      }
      var cancelled := found.value.(status := Cancelled);
      PutKeepsKeyed(orders, OrderKey, orderId, cancelled);
      orders := Put(orders, orderId, cancelled);
      saves := saves + [cancelled];
      walletCalls := walletCalls + [AddMoney(cancelled.userId, cancelled.totalPrice)];
      r := Success(OrderCancelledSuccessfully);
    }

    /**
     * markOrderAsCompleted: the order must exist, then the acting user must be a
     * restaurant owner; the order's status becomes COMPLETED and it is saved once.
     * Ownership of the order's restaurant is not checked.
     */
    method MarkOrderAsCompleted(orderId: int, userId: int) returns (r: Result<Message, OrderError>)
      requires Valid()
      modifies this
      ensures Valid() && carts == old(carts) && queries == old(queries) && walletCalls == old(walletCalls)
      ensures FrozenExceptStatus(old(orders), orders)
      ensures r.Failure? ==> orders == old(orders) && saves == old(saves)
      ensures Get(old(orders), orderId).None? ==> r == Failure(OrderNotFound)
      ensures Get(old(orders), orderId).Some? && userId !in directory.users ==> r == Failure(UserNotFound)
      ensures Get(old(orders), orderId).Some? && userId in directory.users && directory.users[userId] != RestaurantOwner ==>
        r == Failure(UnauthorizedUser)
      ensures Get(old(orders), orderId).Some? && userId in directory.users && directory.users[userId] == RestaurantOwner ==>
        var completed := Get(old(orders), orderId).value.(status := Completed);
        && r == Success(OrderCompletedSuccessfully)
        && orders == Put(old(orders), orderId, completed)
        && Get(orders, orderId) == Some(completed)
        && saves == old(saves) + [completed]
    {
      var found := Get(orders, orderId);
      if found.None? {
        return Failure(OrderNotFound);
      }
      if userId !in directory.users {
        return Failure(UserNotFound);
      }
      if directory.users[userId] != RestaurantOwner {
        return Failure(UnauthorizedUser);
      }
      var completed := found.value.(status := Completed);
      PutKeepsKeyed(orders, OrderKey, orderId, completed);
      orders := Put(orders, orderId, completed);
      saves := saves + [completed];
      r := Success(OrderCompletedSuccessfully);
    }

    /** getOrdersByUserId: the order repository is queried only once the user is known. */
    method GetOrdersByUserId(userId: int) returns (r: Result<seq<Order>, OrderError>)
      modifies this`queries
      ensures r == OrdersOfUser(directory, orders, userId)
      ensures queries == old(queries) + (if userId in directory.users then [FindByUserId(userId)] else [])
    {
      if userId !in directory.users {
        return Failure(UserNotFound);
      }
      queries := queries + [FindByUserId(userId)];
      r := Success(Filter(orders, (o: Order) => o.userId == userId));
    }

    /** getOrdersByRestaurantId: the order repository is queried only once the restaurant is known. */
    method GetOrdersByRestaurantId(restaurantId: int) returns (r: Result<seq<Order>, OrderError>)
      modifies this`queries
      ensures r == OrdersOfRestaurant(directory, orders, restaurantId)
      ensures queries == old(queries) + (if restaurantId in directory.restaurants then [FindByRestaurantId(restaurantId)] else [])
    {
      if restaurantId !in directory.restaurants {
        return Failure(InvalidRestaurantId);
      }
      queries := queries + [FindByRestaurantId(restaurantId)];
      r := Success(Filter(orders, (o: Order) => o.restaurantId == restaurantId));
    }
  }

  // ---------------------------------------------------------------------------
  // The cancellation and completion scenarios of the unit tests

  /** The stored order of the tests: user 1, restaurant 2, total 100, PLACED. */
  function TestOrder(): Order
  {
    Order(1, 1, 2, 3, [], 100, 0, Placed)
  }

  method CancelOrderScenario() returns (r: Result<Message, OrderError>, orders: seq<Order>, walletCalls: seq<WalletCall>)
    ensures r == Success(OrderCancelledSuccessfully)
    ensures orders == [TestOrder().(status := Cancelled)]
    ensures walletCalls == [AddMoney(1, 100)]
  {
    var service := new OrderService(Directory(map[], {}, map[], {}, map[]), [TestOrder()], map[]);
    r := service.CancelOrder(1);
    orders, walletCalls := service.orders, service.walletCalls;
  }

  method CancelMissingOrderScenario() returns (r: Result<Message, OrderError>, walletCalls: seq<WalletCall>)
    ensures r == Failure(OrderNotFound) && r.error.Kind() == ResourceNotFound
    ensures walletCalls == []
  {
    var service := new OrderService(Directory(map[], {}, map[], {}, map[]), [], map[]);
    r := service.CancelOrder(1);
    walletCalls := service.walletCalls;
  }

  method MarkOrderAsCompletedScenario(role: Role) returns (r: Result<Message, OrderError>, orders: seq<Order>)
    ensures role == RestaurantOwner ==> r == Success(OrderCompletedSuccessfully) && orders == [TestOrder().(status := Completed)]
    ensures role == User ==> r == Failure(UnauthorizedUser) && r.error.Kind() == Unauthorized && orders == [TestOrder()]
  {
    var service := new OrderService(Directory(map[1 := role], {}, map[], {}, map[]), [TestOrder()], map[]);
    r := service.MarkOrderAsCompleted(1, 1);
    orders := service.orders;
  }

  /**
   * The listing scenarios. With order 1 stored, user 1 and restaurant 2 each list it,
   * with one repository query each; with nothing stored, both list nothing, again
   * with one query each; when the user service does not know user 1, the listing
   * fails before the order repository is queried.
   */
  method ListOrdersScenario() returns (byUser: Result<seq<Order>, OrderError>,
                                       byRestaurant: Result<seq<Order>, OrderError>,
                                       emptyUser: Result<seq<Order>, OrderError>,
                                       emptyRestaurant: Result<seq<Order>, OrderError>,
                                       unknownUser: Result<seq<Order>, OrderError>,
                                       ghost queries: seq<Query>, ghost emptyQueries: seq<Query>,
                                       ghost unknownQueries: seq<Query>)
    ensures byUser.Success? && |byUser.value| == 1
    ensures byRestaurant.Success? && |byRestaurant.value| == 1
    ensures queries == [FindByUserId(1), FindByRestaurantId(2)]
    ensures emptyUser == Success([]) && emptyRestaurant == Success([])
    ensures emptyQueries == [FindByUserId(1), FindByRestaurantId(2)]
    ensures unknownUser == Failure(UserNotFound) && unknownQueries == []
  {
    var known := Directory(map[1 := User], {2}, map[], {}, map[]);
    var service := new OrderService(known, [TestOrder()], map[]);
    byUser := service.GetOrdersByUserId(1);
    byRestaurant := service.GetOrdersByRestaurantId(2);
    queries := service.queries;
    assert multiset(byUser.value)[TestOrder()] == 1;
    assert multiset(byRestaurant.value)[TestOrder()] == 1;
    var empty := new OrderService(known, [], map[]);
    emptyUser := empty.GetOrdersByUserId(1);
    emptyRestaurant := empty.GetOrdersByRestaurantId(2);
    emptyQueries := empty.queries;
    var unknown := new OrderService(Directory(map[], {2}, map[], {}, map[]), [TestOrder()], map[]);
    unknownUser := unknown.GetOrdersByUserId(1);
    unknownQueries := unknown.queries;
  }
}
