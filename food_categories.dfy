/**
 * The food category registry of the restaurant service. A category belongs to a
 * restaurant; its name is upper-cased before the duplicate lookup and before it is
 * stored, so two names that differ only in letter case collide.
 */
module FoodCategories {
  import opened Results
  import opened Tables

  datatype FoodCategory = FoodCategory(foodCategoryId: int, restaurantId: int, foodCategoryName: string)

  /** The request body of add and update. */
  datatype FoodCategoryIn = FoodCategoryIn(restaurantId: int, foodCategoryName: string)

  datatype ErrorKind = ResourceNotFound | ResourceAlreadyExist

  datatype CategoryError = RestaurantNotFound | FoodCategoryNotFound | FoodCategoryAlreadyExists
  {
    function Kind(): ErrorKind
    {
      if FoodCategoryAlreadyExists? then ResourceAlreadyExist else ResourceNotFound
    }

    function Message(): string
    {
      match this
      case RestaurantNotFound => "Restaurant not found"
      case FoodCategoryNotFound => "Food category not found"
      case FoodCategoryAlreadyExists => "Food category already exists for this restaurant"
    }
  }

  datatype Message = FoodCategoryAddedSuccess | FoodCategoryUpdatedSuccess

  function CategoryKey(c: FoodCategory): int { c.foodCategoryId }

  // ---------------------------------------------------------------------------
  // Upper-casing of names (ASCII letters only)

  function UpperChar(c: char): char
  {
    if 'a' <= c <= 'z' then (c as int - 32) as char else c
  }

  function ToUpper(s: string): (r: string)
    ensures |r| == |s|
  {
    if s == [] then [] else [UpperChar(s[0])] + ToUpper(s[1..])
  }

  /** Upper-casing works character by character. */
  lemma {:induction false} ToUpperAt(s: string)
    ensures forall i :: 0 <= i < |s| ==> ToUpper(s)[i] == UpperChar(s[i])
  {
    if s != [] {
      ToUpperAt(s[1..]);
    }
  }

  predicate IsUpperCase(s: string)
  {
    forall i :: 0 <= i < |s| ==> !('a' <= s[i] <= 'z')
  }

  /** Two names are the same category name when they agree letter by letter up to case. */
  ghost predicate SameIgnoringCase(s: string, t: string)
  {
    |s| == |t| && forall i :: 0 <= i < |s| ==> UpperChar(s[i]) == UpperChar(t[i])
  }

  /** Upper-casing leaves no lower-case letter and changes nothing the second time. */
  lemma ToUpperNormalises(s: string)
    ensures IsUpperCase(ToUpper(s))
    ensures ToUpper(ToUpper(s)) == ToUpper(s)
  {
    ToUpperAt(s);
    ToUpperAt(ToUpper(s));
  }

  /** Two names are stored under the same key exactly when they agree up to case. */
  lemma ToUpperCollides(s: string, t: string)
    ensures ToUpper(s) == ToUpper(t) <==> SameIgnoringCase(s, t)
  {
    ToUpperAt(s);
    ToUpperAt(t);
    if SameIgnoringCase(s, t) {
      assert forall i :: 0 <= i < |s| ==> ToUpper(s)[i] == ToUpper(t)[i];
    }
  }

  /** Upper-casing distributes over concatenation. */
  lemma {:induction false} ToUpperAppend(a: string, b: string)
    ensures ToUpper(a + b) == ToUpper(a) + ToUpper(b)
  {
    if a == [] {
      assert a + b == b;
    } else {
      assert (a + b)[1..] == a[1..] + b;
      ToUpperAppend(a[1..], b);
    }
  }

  lemma TestUpper()
    ensures ToUpper("Test ") == "TEST "
  {
    var s := "Test ";
    ToUpperAt(s);
  }

  lemma SampleUpper()
    ensures ToUpper("Sample ") == "SAMPLE "
  {
    var s := "Sample ";
    ToUpperAt(s);
  }

  lemma CategoryUpper()
    ensures ToUpper("Category") == "CATEGORY"
  {
    var s := "Category";
    ToUpperAt(s);
  }

  lemma TestJoin()
    ensures "Test " + "Category" == "Test Category"
    ensures "TEST " + "CATEGORY" == "TEST CATEGORY"
  {
  }

  lemma SampleJoin()
    ensures "Sample " + "Category" == "Sample Category"
    ensures "SAMPLE " + "CATEGORY" == "SAMPLE CATEGORY"
  {
  }

  /** "Test Category" is looked up and stored as "TEST CATEGORY". */
  lemma TestCategoryUpper()
    ensures ToUpper("Test Category") == "TEST CATEGORY"
  {
    TestUpper();
    CategoryUpper();
    TestJoin();
    ToUpperAppend("Test ", "Category");
  }

  /** "Sample Category" is looked up and stored as "SAMPLE CATEGORY". */
  lemma SampleCategoryUpper()
    ensures ToUpper("Sample Category") == "SAMPLE CATEGORY"
  {
    SampleUpper();
    CategoryUpper();
    SampleJoin();
    ToUpperAppend("Sample ", "Category");
  }

  // ---------------------------------------------------------------------------
  // Queries of the category repository

  /** findByRestaurantIdAndFoodCategoryName */
  function FindCategory(categories: seq<FoodCategory>, restaurantId: int, name: string): Option<FoodCategory>
  {
    Find(categories, (c: FoodCategory) => c.restaurantId == restaurantId && c.foodCategoryName == name)
  }

  /** No two categories of one restaurant share a name. */
  ghost predicate NamesUnique(categories: seq<FoodCategory>)
  {
    forall i, j ::
      0 <= i < |categories| && 0 <= j < |categories|
      && categories[i].restaurantId == categories[j].restaurantId
      && categories[i].foodCategoryName == categories[j].foodCategoryName
      ==> i == j
  }

  ghost predicate NamesUpperCase(categories: seq<FoodCategory>)
  {
    forall i :: 0 <= i < |categories| ==> IsUpperCase(categories[i].foodCategoryName)
  }

  /** getFoodCategoryByRestaurantId: the restaurant must exist; then its categories with their stored names. */
  function GetFoodCategoryByRestaurantId(restaurants: set<int>, categories: seq<FoodCategory>, restaurantId: int)
    : (r: Result<seq<FoodCategory>, CategoryError>)
    ensures r.Failure? <==> restaurantId !in restaurants
    ensures r.Failure? ==> r.error == RestaurantNotFound
    ensures r.Success? ==> forall c :: c in r.value <==> c in categories && c.restaurantId == restaurantId
    ensures r.Success? ==> forall c: FoodCategory ::
      multiset(r.value)[c] == if c.restaurantId == restaurantId then multiset(categories)[c] else 0
  {
    if restaurantId !in restaurants then Failure(RestaurantNotFound)
    else Success(Filter(categories, (c: FoodCategory) => c.restaurantId == restaurantId))
  }

  /** Storing a category whose name the duplicate lookup did not find keeps names unique. */
  lemma {:induction false} AddKeepsNamesUnique(categories: seq<FoodCategory>, c: FoodCategory)
    requires NamesUnique(categories)
    requires FindCategory(categories, c.restaurantId, c.foodCategoryName).None?
    ensures NamesUnique(categories + [c])
  {
    forall k | 0 <= k < |categories|
      ensures !(categories[k].restaurantId == c.restaurantId && categories[k].foodCategoryName == c.foodCategoryName)
    {
      assert categories[k] in categories;
    }
  }

  /**
   * Renaming category `id` to a name that the duplicate lookup either did not find or
   * found on that same category keeps names unique.
   */
  lemma {:induction false} RenameKeepsNamesUnique(categories: seq<FoodCategory>, id: int, c: FoodCategory)
    requires Keyed(categories, CategoryKey) && NamesUnique(categories)
    requires 1 <= id <= |categories| && c.foodCategoryId == id
    requires
      var hit := FindCategory(categories, c.restaurantId, c.foodCategoryName);
      hit.None? || hit.value.foodCategoryId == id
    ensures NamesUnique(Put(categories, id, c))
  {
    var all := Put(categories, id, c);
    var hit := FindCategory(categories, c.restaurantId, c.foodCategoryName);
    forall i, j | 0 <= i < |all| && 0 <= j < |all|
        && all[i].restaurantId == all[j].restaurantId
        && all[i].foodCategoryName == all[j].foodCategoryName
      ensures i == j
    {
      if i != id - 1 && j == id - 1 {
        OtherRowKeepsName(categories, id, c, i);
      } else if j != id - 1 && i == id - 1 {
        OtherRowKeepsName(categories, id, c, j);
      }
    }
  }

  /** A row other than `id` cannot carry the key the rename gives row `id`. */
  lemma OtherRowKeepsName(categories: seq<FoodCategory>, id: int, c: FoodCategory, k: int)
    requires Keyed(categories, CategoryKey) && NamesUnique(categories)
    requires 1 <= id <= |categories| && 0 <= k < |categories| && k != id - 1
    requires
      var hit := FindCategory(categories, c.restaurantId, c.foodCategoryName);
      hit.None? || hit.value.foodCategoryId == id
    ensures !(categories[k].restaurantId == c.restaurantId && categories[k].foodCategoryName == c.foodCategoryName)
  {
    assert categories[k] in categories;
    var hit := FindCategory(categories, c.restaurantId, c.foodCategoryName);
    if hit.Some? {
      var m :| 0 <= m < |categories| && categories[m] == hit.value;
      assert CategoryKey(categories[m]) == m + 1;
    }
  }

  /** The category service over the restaurant and category repositories. */
  class FoodCategoryService {
    const restaurants: set<int>
    var categories: seq<FoodCategory>
    ghost var saves: seq<FoodCategory>

    ghost predicate Valid()
      reads this
    {
      Keyed(categories, CategoryKey) && NamesUnique(categories)
    }

    constructor (restaurants: set<int>, categories: seq<FoodCategory>)
      requires Keyed(categories, CategoryKey) && NamesUnique(categories)
      ensures Valid()
      ensures this.restaurants == restaurants && this.categories == categories && saves == []
    {
      this.restaurants := restaurants;
      this.categories := categories;
      saves := [];
    }

    /**
     * addFoodCategory: the restaurant must exist and the upper-cased name must be free
     * in it; then the category is saved once under the upper-cased name.
     */
    method AddFoodCategory(input: FoodCategoryIn) returns (r: Result<Message, CategoryError>)
      requires Valid()
      modifies this
      ensures Valid()
      ensures NamesUpperCase(old(categories)) ==> NamesUpperCase(categories)
      ensures r.Failure? ==> categories == old(categories) && saves == old(saves)
      ensures input.restaurantId !in restaurants ==> r == Failure(RestaurantNotFound)
      ensures input.restaurantId in restaurants
              && FindCategory(old(categories), input.restaurantId, ToUpper(input.foodCategoryName)).Some? ==>
        r == Failure(FoodCategoryAlreadyExists)
      ensures input.restaurantId in restaurants
              && FindCategory(old(categories), input.restaurantId, ToUpper(input.foodCategoryName)).None? ==>
        var added := FoodCategory(|old(categories)| + 1, input.restaurantId, ToUpper(input.foodCategoryName));
        && r == Success(FoodCategoryAddedSuccess)
        && categories == old(categories) + [added]
        && Get(categories, added.foodCategoryId) == Some(added)
        && saves == old(saves) + [added]
    {
      if input.restaurantId !in restaurants {
        return Failure(RestaurantNotFound);
      }
      var name := ToUpper(input.foodCategoryName);
      if FindCategory(categories, input.restaurantId, name).Some? {
        return Failure(FoodCategoryAlreadyExists);
      }
      var added := FoodCategory(|categories| + 1, input.restaurantId, name);
      AddKeepsNamesUnique(categories, added);
      AppendKeepsKeyed(categories, CategoryKey, added);
      ToUpperNormalises(input.foodCategoryName);
      categories := categories + [added];
      saves := saves + [added];
      r := Success(FoodCategoryAddedSuccess);
    }

    /**
     * updateFoodCategory: the category must exist; the upper-cased name must not be
     * held by another category of the requested restaurant; then the category takes
     * the requested restaurant and the upper-cased name and is saved once. The
     * restaurant itself is not looked up.
     */
    method UpdateFoodCategory(foodCategoryId: int, input: FoodCategoryIn) returns (r: Result<Message, CategoryError>)
      requires Valid()
      modifies this
      ensures Valid()
      ensures NamesUpperCase(old(categories)) ==> NamesUpperCase(categories)
      ensures r.Failure? ==> categories == old(categories) && saves == old(saves)
      ensures Get(old(categories), foodCategoryId).None? ==> r == Failure(FoodCategoryNotFound)
      ensures Get(old(categories), foodCategoryId).Some? ==>
        var hit := FindCategory(old(categories), input.restaurantId, ToUpper(input.foodCategoryName));
        var updated := FoodCategory(foodCategoryId, input.restaurantId, ToUpper(input.foodCategoryName));
        if hit.Some? && hit.value.foodCategoryId != foodCategoryId then
          r == Failure(FoodCategoryAlreadyExists)
        else
          && r == Success(FoodCategoryUpdatedSuccess)
          && categories == Put(old(categories), foodCategoryId, updated)
          && Get(categories, foodCategoryId) == Some(updated)
          && saves == old(saves) + [updated]
    {
      if Get(categories, foodCategoryId).None? {
        return Failure(FoodCategoryNotFound);
      }
      var name := ToUpper(input.foodCategoryName);
      var hit := FindCategory(categories, input.restaurantId, name);
      if hit.Some? && hit.value.foodCategoryId != foodCategoryId {
        return Failure(FoodCategoryAlreadyExists);
      }
      var updated := FoodCategory(foodCategoryId, input.restaurantId, name);
      RenameKeepsNamesUnique(categories, foodCategoryId, updated);
      PutKeepsKeyed(categories, CategoryKey, foodCategoryId, updated);
      ToUpperNormalises(input.foodCategoryName);
      categories := Put(categories, foodCategoryId, updated);
      saves := saves + [updated];
      r := Success(FoodCategoryUpdatedSuccess);
    }
  }

  // ---------------------------------------------------------------------------
  // The scenarios of the unit tests

  /** Adding "Test Category" to restaurant 1 stores "TEST CATEGORY"; without restaurant 1 it is refused. */
  method AddFoodCategoryScenario() returns (added: Result<Message, CategoryError>, stored: seq<FoodCategory>,
                                            refused: Result<Message, CategoryError>)
    ensures added == Success(FoodCategoryAddedSuccess)
    ensures stored == [FoodCategory(1, 1, "TEST CATEGORY")]
    ensures refused == Failure(RestaurantNotFound) && refused.error.Message() == "Restaurant not found"
  {
    TestCategoryUpper();
    var service := new FoodCategoryService({1}, []);
    added := service.AddFoodCategory(FoodCategoryIn(1, "Test Category"));
    stored := service.categories;
    var noRestaurant := new FoodCategoryService({}, []);
    refused := noRestaurant.AddFoodCategory(FoodCategoryIn(1, "Test Category"));
  }

  /** The stored categories of the update tests: "TEST CATEGORY" and "SAMPLE CATEGORY" of restaurant 1. */
  function TestCategories(): seq<FoodCategory>
  {
    [FoodCategory(1, 1, "TEST CATEGORY"), FoodCategory(2, 1, "SAMPLE CATEGORY")]
  }

  /** The test store is keyed, its names are unique, and "SAMPLE CATEGORY" of restaurant 1 is category 2. */
  lemma TestCategoriesLookup()
    ensures Keyed(TestCategories(), CategoryKey) && NamesUnique(TestCategories())
    ensures FindCategory(TestCategories(), 1, "SAMPLE CATEGORY") == Some(TestCategories()[1])
  {
    var stored := TestCategories();
    assert stored[0].foodCategoryName[0] != stored[1].foodCategoryName[0];
  }

  /**
   * Updating category 1 of restaurant 1 to a name that upper-cases to "SAMPLE CATEGORY"
   * (such as "Sample Category"): refused when category 2 already holds that name,
   * refused when category 1 does not exist.
   */
  method UpdateFoodCategoryScenario(name: string) returns (taken: Result<Message, CategoryError>, missing: Result<Message, CategoryError>)
    requires ToUpper(name) == "SAMPLE CATEGORY"
    ensures taken == Failure(FoodCategoryAlreadyExists)
    ensures taken.error.Message() == "Food category already exists for this restaurant"
    ensures missing == Failure(FoodCategoryNotFound) && missing.error.Message() == "Food category not found"
  {
    TestCategoriesLookup();
    var service := new FoodCategoryService({}, TestCategories());
    taken := service.UpdateFoodCategory(1, FoodCategoryIn(1, name));
    var empty := new FoodCategoryService({}, []);
    missing := empty.UpdateFoodCategory(1, FoodCategoryIn(1, name));
  }
}
