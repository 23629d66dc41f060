/**
 * The food item catalog of the restaurant service: items are added under an
 * existing restaurant and category with a name unique within the restaurant,
 * updated by id, listed by category and looked up by id, with their image bytes.
 */
module FoodItems {
  import opened Results
  import opened Tables

  type Byte = bv8

  datatype FoodItem = FoodItem(
    foodItemId: int,
    foodItemName: string,
    restaurantId: int,
    foodCategoryId: int,
    price: int,
    foodItemImage: seq<Byte>)

  /** The request body of addFoodItem; the image bytes come separately. */
  datatype FoodItemIn = FoodItemIn(foodItemName: string, restaurantId: int, foodCategoryId: int, price: int)

  /** The request body of updateFoodItemByFoodItemId: a new name and, optionally, new image bytes. */
  datatype FoodItemUpdate = FoodItemUpdate(foodItemName: string, foodItemImage: Option<seq<Byte>>)

  datatype ErrorKind = NotFound | AlreadyExist

  datatype FoodItemError =
    | RestaurantNotFound
    | FoodCategoryNotFound
    | FoodItemAlreadyExists
    | FoodItemNotFound
    | NoFoodItemsInCategory
  {
    function Kind(): ErrorKind
    {
      if FoodItemAlreadyExists? then AlreadyExist else NotFound
    }
  }

  datatype Message = FoodItemAddedSuccess | FoodItemUpdatedSuccess

  function ItemKey(item: FoodItem): int { item.foodItemId }

  /** findByFoodItemNameAndRestaurantId */
  function FindByNameInRestaurant(items: seq<FoodItem>, name: string, restaurantId: int): Option<FoodItem>
  {
    Find(items, (item: FoodItem) => item.foodItemName == name && item.restaurantId == restaurantId)
  }

  /** No two items of one restaurant share a name. */
  ghost predicate NamesUnique(items: seq<FoodItem>)
  {
    forall i, j ::
      0 <= i < |items| && 0 <= j < |items|
      && items[i].restaurantId == items[j].restaurantId
      && items[i].foodItemName == items[j].foodItemName
      ==> i == j
  }

  /** findFoodItemById: the stored item with that id, or NotFound. */
  function FindFoodItemById(items: seq<FoodItem>, foodItemId: int): (r: Result<FoodItem, FoodItemError>)
    requires Keyed(items, ItemKey)
    ensures r.Failure? <==> forall item :: item in items ==> item.foodItemId != foodItemId
    ensures r.Failure? ==> r.error == FoodItemNotFound
    ensures r.Success? ==> r.value in items && r.value.foodItemId == foodItemId
  {
    GetByKey(items, ItemKey, foodItemId);
    match Get(items, foodItemId)
    case None => Failure(FoodItemNotFound)
    case Some(item) => Success(item)
  }

  /** getFoodItemImage: the bytes stored with the item, or NotFound. */
  function GetFoodItemImage(items: seq<FoodItem>, foodItemId: int): (r: Result<seq<Byte>, FoodItemError>)
    requires Keyed(items, ItemKey)
    ensures r.Failure? <==> forall item :: item in items ==> item.foodItemId != foodItemId
    ensures r.Failure? ==> r.error == FoodItemNotFound
    ensures r.Success? ==> exists item :: item in items && item.foodItemId == foodItemId && item.foodItemImage == r.value
  {
    match FindFoodItemById(items, foodItemId)
    case Failure(e) => Failure(e)
    case Success(item) => Success(item.foodItemImage)
  }

  /** getFoodItemsByCategory: the items of the category; a category without items is NotFound, not an empty list. */
  function GetFoodItemsByCategory(items: seq<FoodItem>, foodCategoryId: int): (r: Result<seq<FoodItem>, FoodItemError>)
    ensures r.Failure? <==> forall item :: item in items ==> item.foodCategoryId != foodCategoryId
    ensures r.Failure? ==> r.error == NoFoodItemsInCategory
    ensures r.Success? ==> |r.value| > 0
    ensures r.Success? ==> forall item :: item in r.value <==> item in items && item.foodCategoryId == foodCategoryId
    ensures r.Success? ==> forall item: FoodItem ::
      multiset(r.value)[item] == if item.foodCategoryId == foodCategoryId then multiset(items)[item] else 0
  {
    var found := Filter(items, (item: FoodItem) => item.foodCategoryId == foodCategoryId);
    if found == [] then Failure(NoFoodItemsInCategory) else Success(found)
  }

  /** The item an update produces: the new name, and the new image only when one was sent. */
  function Updated(item: FoodItem, update: FoodItemUpdate): FoodItem
  {
    item.(foodItemName := update.foodItemName,
          foodItemImage := if update.foodItemImage.Some? then update.foodItemImage.value else item.foodItemImage)
  }

  /** The image stored by addFoodItem is read back unchanged under the new id. */
  lemma ImageAfterAdd(items: seq<FoodItem>, added: FoodItem)
    requires Keyed(items, ItemKey) && added.foodItemId == |items| + 1
    ensures Keyed(items + [added], ItemKey)
    ensures GetFoodItemImage(items + [added], added.foodItemId) == Success(added.foodItemImage)
  {
    AppendKeepsKeyed(items, ItemKey, added);
  }

  /** After an update the image read back is the one sent, or the old one if none was sent. */
  lemma ImageAfterUpdate(items: seq<FoodItem>, foodItemId: int, update: FoodItemUpdate)
    requires Keyed(items, ItemKey) && FindFoodItemById(items, foodItemId).Success?
    ensures Keyed(Put(items, foodItemId, Updated(items[foodItemId - 1], update)), ItemKey)
    ensures GetFoodItemImage(Put(items, foodItemId, Updated(items[foodItemId - 1], update)), foodItemId)
         == Success(if update.foodItemImage.Some? then update.foodItemImage.value
                    else FindFoodItemById(items, foodItemId).value.foodItemImage)
  {
    PutKeepsKeyed(items, ItemKey, foodItemId, Updated(items[foodItemId - 1], update));
  }

  /** Storing an item whose name the duplicate lookup did not find keeps names unique. */
  lemma {:induction false} AddKeepsNamesUnique(items: seq<FoodItem>, added: FoodItem)
    requires NamesUnique(items)
    requires FindByNameInRestaurant(items, added.foodItemName, added.restaurantId).None?
    ensures NamesUnique(items + [added])
  {
    forall k | 0 <= k < |items|
      ensures !(items[k].restaurantId == added.restaurantId && items[k].foodItemName == added.foodItemName)
    {
      assert items[k] in items;
    }
  }

  /** The food item service over the restaurant, category and item repositories. */
  class FoodItemService {
    const restaurants: set<int>
    const categories: set<int>
    var items: seq<FoodItem>
    ghost var saves: seq<FoodItem>

    ghost predicate Valid()
      reads this
    {
      Keyed(items, ItemKey)
    }

    constructor (restaurants: set<int>, categories: set<int>, items: seq<FoodItem>)
      requires Keyed(items, ItemKey)
      ensures Valid()
      ensures this.restaurants == restaurants && this.categories == categories && this.items == items && saves == []
    {
      this.restaurants := restaurants;
      this.categories := categories;
      this.items := items;
      saves := [];
    }

    /**
     * addFoodItem: the restaurant must exist, then the category, then the name must be
     * free in the restaurant; then the item is saved once with the image bytes given.
     */
    method AddFoodItem(input: FoodItemIn, image: seq<Byte>) returns (r: Result<Message, FoodItemError>)
      requires Valid()
      modifies this
      ensures Valid()
      ensures NamesUnique(old(items)) ==> NamesUnique(items)
      ensures r.Failure? ==> items == old(items) && saves == old(saves)
      ensures input.restaurantId !in restaurants ==> r == Failure(RestaurantNotFound)
      ensures input.restaurantId in restaurants && input.foodCategoryId !in categories ==>
        r == Failure(FoodCategoryNotFound)
      ensures input.restaurantId in restaurants && input.foodCategoryId in categories
              && FindByNameInRestaurant(old(items), input.foodItemName, input.restaurantId).Some? ==>
        r == Failure(FoodItemAlreadyExists)
      ensures input.restaurantId in restaurants && input.foodCategoryId in categories
              && FindByNameInRestaurant(old(items), input.foodItemName, input.restaurantId).None? ==>
        var added := FoodItem(|old(items)| + 1, input.foodItemName, input.restaurantId,
                              input.foodCategoryId, input.price, image);
        && r == Success(FoodItemAddedSuccess)
        && items == old(items) + [added]
        && saves == old(saves) + [added]
        && GetFoodItemImage(items, added.foodItemId) == Success(image)
    {
      if input.restaurantId !in restaurants {
        return Failure(RestaurantNotFound);
      }
      if input.foodCategoryId !in categories {
        return Failure(FoodCategoryNotFound);
      }
      if FindByNameInRestaurant(items, input.foodItemName, input.restaurantId).Some? {
        return Failure(FoodItemAlreadyExists);
      }
      var added := FoodItem(|items| + 1, input.foodItemName, input.restaurantId,
                            input.foodCategoryId, input.price, image);
      ImageAfterAdd(items, added);
      if NamesUnique(items) {
        AddKeepsNamesUnique(items, added);
      }
      items := items + [added];
      saves := saves + [added];
      r := Success(FoodItemAddedSuccess);
    }

    /**
     * updateFoodItemByFoodItemId: the item must exist; it takes the new name and, when
     * image bytes are sent, the new image, and is saved once.
     */
    method UpdateFoodItemByFoodItemId(foodItemId: int, update: FoodItemUpdate) returns (r: Result<Message, FoodItemError>)
      requires Valid()
      modifies this
      ensures Valid()
      ensures FindFoodItemById(old(items), foodItemId).Failure? ==>
        && r == Failure(FoodItemNotFound)
        && items == old(items) && saves == old(saves)
      ensures FindFoodItemById(old(items), foodItemId).Success? ==>
        var updated := Updated(FindFoodItemById(old(items), foodItemId).value, update);
        && r == Success(FoodItemUpdatedSuccess)
        && items == Put(old(items), foodItemId, updated)
        && FindFoodItemById(items, foodItemId) == Success(updated)
        && saves == old(saves) + [updated]
    {
      var found := FindFoodItemById(items, foodItemId);
      if found.Failure? {
        return Failure(FoodItemNotFound);
      }
      var updated := Updated(found.value, update);
      ImageAfterUpdate(items, foodItemId, update);
      items := Put(items, foodItemId, updated);
      saves := saves + [updated];
      r := Success(FoodItemUpdatedSuccess);
    }
  }

  // ---------------------------------------------------------------------------
  // The scenarios of the unit tests

  /** The stored item of the tests: "Pizza" of restaurant 1, category 1, image bytes 1, 2, 3. */
  function TestItem(): FoodItem
  {
    FoodItem(1, "Pizza", 1, 1, 0, [1, 2, 3])
  }

  /** Adding a second "Pizza" to restaurant 1 is refused even though restaurant and category exist. */
  method AddDuplicateFoodItemScenario() returns (r: Result<Message, FoodItemError>)
    ensures r == Failure(FoodItemAlreadyExists) && r.error.Kind() == AlreadyExist
  {
    var service := new FoodItemService({1}, {1}, [TestItem()]);
    r := service.AddFoodItem(FoodItemIn("Pizza", 1, 1, 0), []);
  }

  /** Renaming item 1 to "Updated Pizza" succeeds and keeps its image. */
  method UpdateFoodItemScenario() returns (r: Result<Message, FoodItemError>, stored: seq<FoodItem>)
    ensures r == Success(FoodItemUpdatedSuccess)
    ensures stored == [TestItem().(foodItemName := "Updated Pizza")]
  {
    var service := new FoodItemService({}, {}, [TestItem()]);
    r := service.UpdateFoodItemByFoodItemId(1, FoodItemUpdate("Updated Pizza", None));
    stored := service.items;
  }

  /** Lookups over the one stored item. */
  lemma LookupTestScenarios()
    ensures GetFoodItemImage([TestItem()], 1) == Success([1, 2, 3])
    ensures FindFoodItemById([], 1) == Failure(FoodItemNotFound)
    ensures GetFoodItemsByCategory([TestItem()], 1).Success?
    ensures GetFoodItemsByCategory([], 1) == Failure(NoFoodItemsInCategory)
  {
  }
}
