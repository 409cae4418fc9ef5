/**
 * MemStorage of server/storage.ts: one `Map<number, Record>` per entity, one id counter
 * per table, and an optional settings record. Every create takes the table's counter as
 * the new id and then increments it; updates merge a patch into an existing record;
 * deletes report whether the key was present. The `async` methods resolve at once,
 * so each is one synchronous step here.
 */
module Storage {
  import opened Wrappers
  import opened Schema
  import opened Tables
  import Seqs
  import Text

  function UserId(x: User): int { x.id }
  function CategoryId(x: Category): int { x.id }
  function MenuItemId(x: MenuItem): int { x.id }
  function OrderId(x: Order): int { x.id }
  function OrderItemId(x: OrderItem): int { x.id }
  function ReservationId(x: Reservation): int { x.id }
  function LocationId(x: Location): int { x.id }

  /** `status !== "completed" && status !== "cancelled"` */
  predicate IsActiveStatus(status: string) {
    status != "completed" && status != "cancelled"
  }

  /** The same test on a reservation, whose status may be missing (`undefined` is neither string). */
  predicate IsActiveReservationStatus(status: Option<string>) {
    status != Some("completed") && status != Some("cancelled")
  }

  /** `a.toLowerCase() === b.toLowerCase()` */
  predicate SameIgnoringCase(a: string, b: string) {
    Text.ToLower(a) == Text.ToLower(b)
  }

  /** The settings record `updateSettings` creates when there is none yet (`name || "Restaurant"`, `themeSettings || {}`). */
  function NewSettings(id: int, patch: SettingsPatch): (s: Settings)
    ensures s.id == id
    ensures s.name != ""
    ensures patch.name.Some? && patch.name.value != "" ==> s.name == patch.name.value
    ensures (patch.name.None? || patch.name == Some("")) ==> s.name == "Restaurant"
    ensures s.logoUrl == patch.logoUrl.GetOr(None) && s.primaryColor == patch.primaryColor.GetOr(None)
    ensures s.themeSettings.Some?
    ensures patch.themeSettings.Some? && patch.themeSettings.value.Some? ==> s.themeSettings == patch.themeSettings.value
  {
    Settings(id,
             if patch.name.Some? && patch.name.value != "" then patch.name.value else "Restaurant",
             patch.logoUrl.GetOr(None),
             patch.primaryColor.GetOr(None),
             Some(patch.themeSettings.GetOr(None).GetOr(map[])))
  }

  /** `item => item.categoryId === categoryId` */
  function InCategory(categoryId: int): MenuItem -> bool {
    (m: MenuItem) => m.categoryId == Some(categoryId)
  }

  // The seed data of the store's constructor.
  const Admin: User := User(1, "admin", "adminpass", "admin@paulsrestaurant.com", "Admin User", None, Some(AdminRole))
  const SalmonDescription: string := "Fresh Atlantic salmon with asparagus and lemon butter"
  const SalmonImage: string := "https://images.unsplash.com/photo-1519708227418-c8fd9a32b7a2?ixlib=rb-4.0.3&auto=format&fit=crop&w=500&h=300"
  const PastaDescription: string := "Homemade pasta with cherry tomatoes, basil and parmesan"
  const PastaImage: string := "https://images.unsplash.com/photo-1556761223-4c4282c73f77?ixlib=rb-4.0.3&auto=format&fit=crop&w=500&h=300"
  const FiletDescription: string := "Premium cut steak with roasted vegetables and red wine sauce"
  const FiletImage: string := "https://images.unsplash.com/photo-1600891964092-4316c288032e?ixlib=rb-4.0.3&auto=format&fit=crop&w=500&h=300"
  const Salmon: MenuItem := MenuItem(1, "Grilled Salmon", SalmonDescription, 2499, Some(SalmonImage), Some(2), true)
  const Pasta: MenuItem := MenuItem(2, "Pasta Pomodoro", PastaDescription, 1850, Some(PastaImage), Some(2), true)
  const Filet: MenuItem := MenuItem(3, "Filet Mignon", FiletDescription, 3299, Some(FiletImage), Some(2), true)
  const Downtown: Location := Location(1, "Downtown", "123 Main Street, City Center", "(123) 456-7890", "11:00 AM - 10:00 PM")
  const Uptown: Location := Location(2, "Uptown", "456 Park Avenue, Uptown District", "(123) 456-7891", "11:00 AM - 11:00 PM")
  const DefaultSettings: Settings := Settings(1, "Paul's Restaurant", Some(""), Some("#8D4E00"), Some(map[]))

  const SeededCategories: map<int, Category> :=
    map[1 := Category(1, "Starters"), 2 := Category(2, "Main Courses"), 3 := Category(3, "Desserts"), 4 := Category(4, "Drinks")]
  const SeededMenuItems: map<int, MenuItem> := map[1 := Salmon, 2 := Pasta, 3 := Filet]

  /** The three seeded dishes, filed under `categoryId`. */
  function SeededDishes(categoryId: Option<int>): map<int, MenuItem> {
    map[1 := Salmon.(categoryId := categoryId), 2 := Pasta.(categoryId := categoryId), 3 := Filet.(categoryId := categoryId)]
  }
  const SeededLocations: map<int, Location> := map[1 := Downtown, 2 := Uptown]

  class MemStorage {
    var users: map<int, User>
    var categories: map<int, Category>
    var menuItems: map<int, MenuItem>
    var orders: map<int, Order>
    var orderItems: map<int, OrderItem>
    var reservations: map<int, Reservation>
    var locations: map<int, Location>
    var settings: Option<Settings>

    var userIdCounter: int
    var categoryIdCounter: int
    var menuItemIdCounter: int
    var orderIdCounter: int
    var orderItemIdCounter: int
    var reservationIdCounter: int
    var locationIdCounter: int
    var settingsIdCounter: int

    /** Every table is well formed under its own counter. */
    ghost predicate Valid()
      reads this
    {
      TableOk(users, userIdCounter, UserId) &&
      TableOk(categories, categoryIdCounter, CategoryId) &&
      TableOk(menuItems, menuItemIdCounter, MenuItemId) &&
      TableOk(orders, orderIdCounter, OrderId) &&
      TableOk(orderItems, orderItemIdCounter, OrderItemId) &&
      TableOk(reservations, reservationIdCounter, ReservationId) &&
      TableOk(locations, locationIdCounter, LocationId)
    }

    /**
     * `new MemStorage()`: every table empty and every counter at 1, then the admin
     * account, then `initializeDefaultData`.
     */
    constructor ()
      ensures Valid()
      ensures users == map[1 := Admin] && userIdCounter == 2
      ensures categories == SeededCategories && categoryIdCounter == 5
      ensures menuItems == SeededMenuItems && menuItemIdCounter == 4
      ensures locations == SeededLocations && locationIdCounter == 3
      ensures settings == Some(DefaultSettings) && settingsIdCounter == 2
      ensures orders == map[] && orderItems == map[] && reservations == map[]
      ensures orderIdCounter == 1 && orderItemIdCounter == 1 && reservationIdCounter == 1
    {
      users, categories, menuItems, orders, orderItems, reservations, locations :=
        map[], map[], map[], map[], map[], map[], map[];
      userIdCounter, categoryIdCounter, menuItemIdCounter, orderIdCounter := 1, 1, 1, 1;
      orderItemIdCounter, reservationIdCounter, settingsIdCounter, locationIdCounter := 1, 1, 1, 1;
      settings := None;
      new;
      var admin := CreateUser(InsertUser(Admin.username, Admin.password, Admin.email, Admin.fullName, None, Some(AdminRole)));
      InitializeDefaultData();
    }

    /**
     * `initializeDefaultData` with `createCategory` awaited: four categories, three
     * main courses filed under the "Main Courses" category's id, the default settings
     * from the settings counter, and two locations.
     */
    method InitializeDefaultData()
      requires Valid()
      requires categories == map[] && menuItems == map[] && locations == map[]
      requires categoryIdCounter == 1 && menuItemIdCounter == 1 && locationIdCounter == 1 && settingsIdCounter == 1
      modifies this`categories, this`categoryIdCounter, this`menuItems, this`menuItemIdCounter
      modifies this`locations, this`locationIdCounter, this`settings, this`settingsIdCounter
      ensures Valid()
      ensures categories == SeededCategories && categoryIdCounter == 5
      ensures menuItems == SeededMenuItems && menuItemIdCounter == 4
      ensures locations == SeededLocations && locationIdCounter == 3
      ensures settings == Some(DefaultSettings) && settingsIdCounter == 2
    {
      var mains := SeedCategories();
      SeedMenuItems(SeedCategoryId(mains));
      settings := Some(DefaultSettings.(id := settingsIdCounter));
      settingsIdCounter := settingsIdCounter + 1;
      SeedLocations();
    }

    /**
     * `initializeDefaultData` as the code stands: `mains` is the Promise `createCategory`
     * returns, so the dishes are stored with `categoryId: undefined`.
     */
    method InitializeDefaultDataAsWritten()
      requires Valid()
      requires categories == map[] && menuItems == map[] && locations == map[]
      requires categoryIdCounter == 1 && menuItemIdCounter == 1 && locationIdCounter == 1 && settingsIdCounter == 1
      modifies this`categories, this`categoryIdCounter, this`menuItems, this`menuItemIdCounter
      modifies this`locations, this`locationIdCounter, this`settings, this`settingsIdCounter
      ensures Valid()
      ensures categories == SeededCategories && categoryIdCounter == 5
      ensures menuItems == SeededDishes(None) && menuItemIdCounter == 4
      ensures locations == SeededLocations && locationIdCounter == 3
      ensures settings == Some(DefaultSettings) && settingsIdCounter == 2
    {
      var mains := SeedCategories();
      SeedMenuItems(SeedCategoryIdAsWritten(mains));
      settings := Some(DefaultSettings.(id := settingsIdCounter));
      settingsIdCounter := settingsIdCounter + 1;
      SeedLocations();
    }

    /** The four seeded categories, created in order; returns "Main Courses". */
    method SeedCategories() returns (mains: Category)
      requires Valid()
      modifies this`categories, this`categoryIdCounter
      ensures Valid()
      ensures mains == Category(old(categoryIdCounter) + 1, "Main Courses")
      ensures categoryIdCounter == old(categoryIdCounter) + 4
      ensures categories == old(categories)[old(categoryIdCounter) := Category(old(categoryIdCounter), "Starters")]
        [mains.id := mains]
        [old(categoryIdCounter) + 2 := Category(old(categoryIdCounter) + 2, "Desserts")]
        [old(categoryIdCounter) + 3 := Category(old(categoryIdCounter) + 3, "Drinks")]
    {
      var starters := CreateCategory(InsertCategory("Starters"));
      mains := CreateCategory(InsertCategory("Main Courses"));
      var desserts := CreateCategory(InsertCategory("Desserts"));
      var drinks := CreateCategory(InsertCategory("Drinks"));
    }

    /** The three seeded main courses, filed under `mainsId` (`None` for `undefined`), created in order. */
    method SeedMenuItems(mainsId: Option<int>)
      requires Valid()
      modifies this`menuItems, this`menuItemIdCounter
      ensures Valid()
      ensures menuItemIdCounter == old(menuItemIdCounter) + 3
      ensures menuItems == old(menuItems)
        [old(menuItemIdCounter) := Salmon.(id := old(menuItemIdCounter), categoryId := mainsId)]
        [old(menuItemIdCounter) + 1 := Pasta.(id := old(menuItemIdCounter) + 1, categoryId := mainsId)]
        [old(menuItemIdCounter) + 2 := Filet.(id := old(menuItemIdCounter) + 2, categoryId := mainsId)]
    {
      var salmon := CreateMenuItem(InsertMenuItem(Salmon.name, Salmon.description, Salmon.price, Salmon.imageUrl, mainsId, true));
      var pasta := CreateMenuItem(InsertMenuItem(Pasta.name, Pasta.description, Pasta.price, Pasta.imageUrl, mainsId, true));
      var filet := CreateMenuItem(InsertMenuItem(Filet.name, Filet.description, Filet.price, Filet.imageUrl, mainsId, true));
    }

    /** The two seeded locations, created in order. */
    method SeedLocations()
      requires Valid()
      modifies this`locations, this`locationIdCounter
      ensures Valid()
      ensures locationIdCounter == old(locationIdCounter) + 2
      ensures locations == old(locations)
        [old(locationIdCounter) := Downtown.(id := old(locationIdCounter))]
        [old(locationIdCounter) + 1 := Uptown.(id := old(locationIdCounter) + 1)]
    {
      var downtown := CreateLocation(InsertLocation(Downtown.name, Downtown.address, Downtown.phone, Downtown.openingHours));
      var uptown := CreateLocation(InsertLocation(Uptown.name, Uptown.address, Uptown.phone, Uptown.openingHours));
    }

    // ------------------------------------------------------------ users

    /** `getAllUsers`: every stored record, in ascending id (insertion) order (see `Tables.ValuesIn`). */
    function GetAllUsers(): seq<User>
      reads this
    {
      ValuesIn(users, 1, userIdCounter)
    }

    /** `getUser(id)`: the record stored under `id`, or undefined. */
    function GetUser(id: int): (r: Option<User>)
      reads this
      requires Valid()
      ensures r.Some? <==> id in users
      ensures r.Some? ==> r.value.id == id
    {
      if id in users then Some(users[id]) else None
    }

    /** `createUser`: the counter becomes the new id, then grows by one; the record is listed last. */
    method CreateUser(insert: InsertUser) returns (r: User)
      requires Valid()
      modifies this`users, this`userIdCounter
      ensures Valid()
      ensures r == insert.WithId(old(userIdCounter)) && r.id !in old(users)
      ensures userIdCounter == old(userIdCounter) + 1 && users == old(users)[r.id := r]
      ensures GetAllUsers() == old(GetAllUsers()) + [r]
    {
      var id := userIdCounter;
      r := insert.WithId(id);
      TableInsert(users, id, UserId, r);
      userIdCounter := userIdCounter + 1;
      users := users[id := r];
    }

    // ------------------------------------------------------------ categories

    /** `getAllCategories`: every stored record, in ascending id (insertion) order (see `Tables.ValuesIn`). */
    function GetAllCategories(): seq<Category>
      reads this
    {
      ValuesIn(categories, 1, categoryIdCounter)
    }

    /** `getCategory(id)`: the record stored under `id`, or undefined. */
    function GetCategory(id: int): (r: Option<Category>)
      reads this
      requires Valid()
      ensures r.Some? <==> id in categories
      ensures r.Some? ==> r.value.id == id
    {
      if id in categories then Some(categories[id]) else None
    }

    /** `createCategory`: the counter becomes the new id, then grows by one; the record is listed last. */
    method CreateCategory(insert: InsertCategory) returns (r: Category)
      requires Valid()
      modifies this`categories, this`categoryIdCounter
      ensures Valid()
      ensures r == insert.WithId(old(categoryIdCounter)) && r.id !in old(categories)
      ensures categoryIdCounter == old(categoryIdCounter) + 1 && categories == old(categories)[r.id := r]
      ensures GetAllCategories() == old(GetAllCategories()) + [r]
    {
      var id := categoryIdCounter;
      r := insert.WithId(id);
      TableInsert(categories, id, CategoryId, r);
      categoryIdCounter := categoryIdCounter + 1;
      categories := categories[id := r];
    }

    /** `updateCategory`: undefined and no change for a missing id; otherwise `{ ...existing, ...patch }` stored in place. */
    method UpdateCategory(id: int, patch: CategoryPatch) returns (r: Option<Category>)
      requires Valid()
      modifies this`categories
      ensures Valid()
      ensures id !in old(categories) ==> r.None? && categories == old(categories)
      ensures id in old(categories) ==> r == Some(ApplyCategoryPatch(old(categories)[id], patch)) && categories == old(categories)[id := r.value]
      ensures r.Some? ==> GetAllCategories() == ReplaceId(old(GetAllCategories()), CategoryId, id, r.value)
    {
      if id !in categories {
        return None;
      }
      var updated := ApplyCategoryPatch(categories[id], patch);
      TableReplace(categories, categoryIdCounter, CategoryId, id, updated, 1, categoryIdCounter);
      categories := categories[id := updated];
      r := Some(updated);
    }

    /** `deleteCategory`: true exactly when `id` was stored; the other records keep their order. */
    method DeleteCategory(id: int) returns (deleted: bool)
      requires Valid()
      modifies this`categories
      ensures Valid()
      ensures deleted <==> id in old(categories)
      ensures categories == old(categories) - {id}
      ensures GetAllCategories() == WithoutId(old(GetAllCategories()), CategoryId, id)
    {
      deleted := id in categories;
      TableRemoveOk(categories, categoryIdCounter, CategoryId, id);
      TableRemove(categories, categoryIdCounter, CategoryId, id, 1, categoryIdCounter);
      categories := categories - {id};
    }

    // ------------------------------------------------------------ menuItems

    /** `getAllMenuItems`: every stored record, in ascending id (insertion) order (see `Tables.ValuesIn`). */
    function GetAllMenuItems(): seq<MenuItem>
      reads this
    {
      ValuesIn(menuItems, 1, menuItemIdCounter)
    }

    /** `getMenuItem(id)`: the record stored under `id`, or undefined. */
    function GetMenuItem(id: int): (r: Option<MenuItem>)
      reads this
      requires Valid()
      ensures r.Some? <==> id in menuItems
      ensures r.Some? ==> r.value.id == id
    {
      if id in menuItems then Some(menuItems[id]) else None
    }

    /** `createMenuItem`: the counter becomes the new id, then grows by one; the record is listed last. */
    method CreateMenuItem(insert: InsertMenuItem) returns (r: MenuItem)
      requires Valid()
      modifies this`menuItems, this`menuItemIdCounter
      ensures Valid()
      ensures r == insert.WithId(old(menuItemIdCounter)) && r.id !in old(menuItems)
      ensures menuItemIdCounter == old(menuItemIdCounter) + 1 && menuItems == old(menuItems)[r.id := r]
      ensures GetAllMenuItems() == old(GetAllMenuItems()) + [r]
    {
      var id := menuItemIdCounter;
      r := insert.WithId(id);
      TableInsert(menuItems, id, MenuItemId, r);
      menuItemIdCounter := menuItemIdCounter + 1;
      menuItems := menuItems[id := r];
    }

    /** `updateMenuItem`: undefined and no change for a missing id; otherwise `{ ...existing, ...patch }` stored in place. */
    method UpdateMenuItem(id: int, patch: MenuItemPatch) returns (r: Option<MenuItem>)
      requires Valid()
      modifies this`menuItems
      ensures Valid()
      ensures id !in old(menuItems) ==> r.None? && menuItems == old(menuItems)
      ensures id in old(menuItems) ==> r == Some(ApplyMenuItemPatch(old(menuItems)[id], patch)) && menuItems == old(menuItems)[id := r.value]
      ensures r.Some? ==> GetAllMenuItems() == ReplaceId(old(GetAllMenuItems()), MenuItemId, id, r.value)
    {
      if id !in menuItems {
        return None;
      }
      var updated := ApplyMenuItemPatch(menuItems[id], patch);
      TableReplace(menuItems, menuItemIdCounter, MenuItemId, id, updated, 1, menuItemIdCounter);
      menuItems := menuItems[id := updated];
      r := Some(updated);
    }

    /** `deleteMenuItem`: true exactly when `id` was stored; the other records keep their order. */
    method DeleteMenuItem(id: int) returns (deleted: bool)
      requires Valid()
      modifies this`menuItems
      ensures Valid()
      ensures deleted <==> id in old(menuItems)
      ensures menuItems == old(menuItems) - {id}
      ensures GetAllMenuItems() == WithoutId(old(GetAllMenuItems()), MenuItemId, id)
    {
      deleted := id in menuItems;
      TableRemoveOk(menuItems, menuItemIdCounter, MenuItemId, id);
      TableRemove(menuItems, menuItemIdCounter, MenuItemId, id, 1, menuItemIdCounter);
      menuItems := menuItems - {id};
    }

    // ------------------------------------------------------------ orders

    /** `getAllOrders`: every stored record, in ascending id (insertion) order (see `Tables.ValuesIn`). */
    function GetAllOrders(): seq<Order>
      reads this
    {
      ValuesIn(orders, 1, orderIdCounter)
    }

    /** `getOrder(id)`: the record stored under `id`, or undefined. */
    function GetOrder(id: int): (r: Option<Order>)
      reads this
      requires Valid()
      ensures r.Some? <==> id in orders
      ensures r.Some? ==> r.value.id == id
    {
      if id in orders then Some(orders[id]) else None
    }

    /** `createOrder`: the counter becomes the new id, then grows by one; the record is listed last. */
    method CreateOrder(insert: InsertOrder, now: int) returns (r: Order)
      requires Valid()
      modifies this`orders, this`orderIdCounter
      ensures Valid()
      ensures r == insert.WithId(old(orderIdCounter), now) && r.id !in old(orders)
      ensures orderIdCounter == old(orderIdCounter) + 1 && orders == old(orders)[r.id := r]
      ensures GetAllOrders() == old(GetAllOrders()) + [r]
    {
      var id := orderIdCounter;
      r := insert.WithId(id, now);
      TableInsert(orders, id, OrderId, r);
      orderIdCounter := orderIdCounter + 1;
      orders := orders[id := r];
    }

    /** `updateOrder`: undefined and no change for a missing id; otherwise `{ ...existing, ...patch }` stored in place. */
    method UpdateOrder(id: int, patch: OrderPatch) returns (r: Option<Order>)
      requires Valid()
      modifies this`orders
      ensures Valid()
      ensures id !in old(orders) ==> r.None? && orders == old(orders)
      ensures id in old(orders) ==> r == Some(ApplyOrderPatch(old(orders)[id], patch)) && orders == old(orders)[id := r.value]
      ensures r.Some? ==> GetAllOrders() == ReplaceId(old(GetAllOrders()), OrderId, id, r.value)
    {
      if id !in orders {
        return None;
      }
      var updated := ApplyOrderPatch(orders[id], patch);
      TableReplace(orders, orderIdCounter, OrderId, id, updated, 1, orderIdCounter);
      orders := orders[id := updated];
      r := Some(updated);
    }

    /** `deleteOrder`: true exactly when `id` was stored; the other records keep their order. */
    method DeleteOrder(id: int) returns (deleted: bool)
      requires Valid()
      modifies this`orders
      ensures Valid()
      ensures deleted <==> id in old(orders)
      ensures orders == old(orders) - {id}
      ensures GetAllOrders() == WithoutId(old(GetAllOrders()), OrderId, id)
    {
      deleted := id in orders;
      TableRemoveOk(orders, orderIdCounter, OrderId, id);
      TableRemove(orders, orderIdCounter, OrderId, id, 1, orderIdCounter);
      orders := orders - {id};
    }

    // ------------------------------------------------------------ orderItems

    /** `getAllOrderItems`: every stored record, in ascending id (insertion) order (see `Tables.ValuesIn`). */
    function GetAllOrderItems(): seq<OrderItem>
      reads this
    {
      ValuesIn(orderItems, 1, orderItemIdCounter)
    }

    /** `createOrderItem`: the counter becomes the new id, then grows by one; the record is listed last. */
    method CreateOrderItem(insert: InsertOrderItem) returns (r: OrderItem)
      requires Valid()
      modifies this`orderItems, this`orderItemIdCounter
      ensures Valid()
      ensures r == insert.WithId(old(orderItemIdCounter)) && r.id !in old(orderItems)
      ensures orderItemIdCounter == old(orderItemIdCounter) + 1 && orderItems == old(orderItems)[r.id := r]
      ensures GetAllOrderItems() == old(GetAllOrderItems()) + [r]
    {
      var id := orderItemIdCounter;
      r := insert.WithId(id);
      TableInsert(orderItems, id, OrderItemId, r);
      orderItemIdCounter := orderItemIdCounter + 1;
      orderItems := orderItems[id := r];
    }

    /** `deleteOrderItem`: true exactly when `id` was stored; the other records keep their order. */
    method DeleteOrderItem(id: int) returns (deleted: bool)
      requires Valid()
      modifies this`orderItems
      ensures Valid()
      ensures deleted <==> id in old(orderItems)
      ensures orderItems == old(orderItems) - {id}
      ensures GetAllOrderItems() == WithoutId(old(GetAllOrderItems()), OrderItemId, id)
    {
      deleted := id in orderItems;
      TableRemoveOk(orderItems, orderItemIdCounter, OrderItemId, id);
      TableRemove(orderItems, orderItemIdCounter, OrderItemId, id, 1, orderItemIdCounter);
      orderItems := orderItems - {id};
    }

    // ------------------------------------------------------------ reservations

    /** `getAllReservations`: every stored record, in ascending id (insertion) order (see `Tables.ValuesIn`). */
    function GetAllReservations(): seq<Reservation>
      reads this
    {
      ValuesIn(reservations, 1, reservationIdCounter)
    }

    /** `getReservation(id)`: the record stored under `id`, or undefined. */
    function GetReservation(id: int): (r: Option<Reservation>)
      reads this
      requires Valid()
      ensures r.Some? <==> id in reservations
      ensures r.Some? ==> r.value.id == id
    {
      if id in reservations then Some(reservations[id]) else None
    }

    /** `createReservation`: the counter becomes the new id, then grows by one; the record is listed last. */
    method CreateReservation(insert: InsertReservation) returns (r: Reservation)
      requires Valid()
      modifies this`reservations, this`reservationIdCounter
      ensures Valid()
      ensures r == insert.WithId(old(reservationIdCounter)) && r.id !in old(reservations)
      ensures reservationIdCounter == old(reservationIdCounter) + 1 && reservations == old(reservations)[r.id := r]
      ensures GetAllReservations() == old(GetAllReservations()) + [r]
    {
      var id := reservationIdCounter;
      r := insert.WithId(id);
      TableInsert(reservations, id, ReservationId, r);
      reservationIdCounter := reservationIdCounter + 1;
      reservations := reservations[id := r];
    }

    /** `updateReservation`: undefined and no change for a missing id; otherwise `{ ...existing, ...patch }` stored in place. */
    method UpdateReservation(id: int, patch: ReservationPatch) returns (r: Option<Reservation>)
      requires Valid()
      modifies this`reservations
      ensures Valid()
      ensures id !in old(reservations) ==> r.None? && reservations == old(reservations)
      ensures id in old(reservations) ==> r == Some(ApplyReservationPatch(old(reservations)[id], patch)) && reservations == old(reservations)[id := r.value]
      ensures r.Some? ==> GetAllReservations() == ReplaceId(old(GetAllReservations()), ReservationId, id, r.value)
    {
      if id !in reservations {
        return None;
      }
      var updated := ApplyReservationPatch(reservations[id], patch);
      TableReplace(reservations, reservationIdCounter, ReservationId, id, updated, 1, reservationIdCounter);
      reservations := reservations[id := updated];
      r := Some(updated);
    }

    /** `deleteReservation`: true exactly when `id` was stored; the other records keep their order. */
    method DeleteReservation(id: int) returns (deleted: bool)
      requires Valid()
      modifies this`reservations
      ensures Valid()
      ensures deleted <==> id in old(reservations)
      ensures reservations == old(reservations) - {id}
      ensures GetAllReservations() == WithoutId(old(GetAllReservations()), ReservationId, id)
    {
      deleted := id in reservations;
      TableRemoveOk(reservations, reservationIdCounter, ReservationId, id);
      TableRemove(reservations, reservationIdCounter, ReservationId, id, 1, reservationIdCounter);
      reservations := reservations - {id};
    }

    // ------------------------------------------------------------ locations

    /** `getAllLocations`: every stored record, in ascending id (insertion) order (see `Tables.ValuesIn`). */
    function GetAllLocations(): seq<Location>
      reads this
    {
      ValuesIn(locations, 1, locationIdCounter)
    }

    /** `getLocation(id)`: the record stored under `id`, or undefined. */
    function GetLocation(id: int): (r: Option<Location>)
      reads this
      requires Valid()
      ensures r.Some? <==> id in locations
      ensures r.Some? ==> r.value.id == id
    {
      if id in locations then Some(locations[id]) else None
    }

    /** `createLocation`: the counter becomes the new id, then grows by one; the record is listed last. */
    method CreateLocation(insert: InsertLocation) returns (r: Location)
      requires Valid()
      modifies this`locations, this`locationIdCounter
      ensures Valid()
      ensures r == insert.WithId(old(locationIdCounter)) && r.id !in old(locations)
      ensures locationIdCounter == old(locationIdCounter) + 1 && locations == old(locations)[r.id := r]
      ensures GetAllLocations() == old(GetAllLocations()) + [r]
    {
      var id := locationIdCounter;
      r := insert.WithId(id);
      TableInsert(locations, id, LocationId, r);
      locationIdCounter := locationIdCounter + 1;
      locations := locations[id := r];
    }

    /** `updateLocation`: undefined and no change for a missing id; otherwise `{ ...existing, ...patch }` stored in place. */
    method UpdateLocation(id: int, patch: LocationPatch) returns (r: Option<Location>)
      requires Valid()
      modifies this`locations
      ensures Valid()
      ensures id !in old(locations) ==> r.None? && locations == old(locations)
      ensures id in old(locations) ==> r == Some(ApplyLocationPatch(old(locations)[id], patch)) && locations == old(locations)[id := r.value]
      ensures r.Some? ==> GetAllLocations() == ReplaceId(old(GetAllLocations()), LocationId, id, r.value)
    {
      if id !in locations {
        return None;
      }
      var updated := ApplyLocationPatch(locations[id], patch);
      TableReplace(locations, locationIdCounter, LocationId, id, updated, 1, locationIdCounter);
      locations := locations[id := updated];
      r := Some(updated);
    }

    /** `deleteLocation`: true exactly when `id` was stored; the other records keep their order. */
    method DeleteLocation(id: int) returns (deleted: bool)
      requires Valid()
      modifies this`locations
      ensures Valid()
      ensures deleted <==> id in old(locations)
      ensures locations == old(locations) - {id}
      ensures GetAllLocations() == WithoutId(old(GetAllLocations()), LocationId, id)
    {
      deleted := id in locations;
      TableRemoveOk(locations, locationIdCounter, LocationId, id);
      TableRemove(locations, locationIdCounter, LocationId, id, 1, locationIdCounter);
      locations := locations - {id};
    }

    /** `getUserByUsername`: the first record, in insertion order, whose username equals `username` ignoring case. */
    function GetUserByUsername(username: string): (r: Option<User>)
      reads this
      requires Valid()
      ensures r.None? <==> forall i :: 0 <= i < |GetAllUsers()| ==> !SameIgnoringCase(GetAllUsers()[i].username, username)
      ensures r.Some? ==> exists i :: (0 <= i < |GetAllUsers()| && GetAllUsers()[i] == r.value &&
        SameIgnoringCase(r.value.username, username) &&
        forall j :: 0 <= j < i ==> !SameIgnoringCase(GetAllUsers()[j].username, username))
    {
      Seqs.Find(GetAllUsers(), (u: User) => SameIgnoringCase(u.username, username))
    }

    /** `getUserByEmail`: the first record, in insertion order, whose email equals `email` ignoring case. */
    function GetUserByEmail(email: string): (r: Option<User>)
      reads this
      requires Valid()
      ensures r.None? <==> forall i :: 0 <= i < |GetAllUsers()| ==> !SameIgnoringCase(GetAllUsers()[i].email, email)
      ensures r.Some? ==> exists i :: (0 <= i < |GetAllUsers()| && GetAllUsers()[i] == r.value &&
        SameIgnoringCase(r.value.email, email) &&
        forall j :: 0 <= j < i ==> !SameIgnoringCase(GetAllUsers()[j].email, email))
    {
      Seqs.Find(GetAllUsers(), (u: User) => SameIgnoringCase(u.email, email))
    }

    /** `getCategoryByName`: the first record, in insertion order, whose name equals `name` ignoring case. */
    function GetCategoryByName(name: string): (r: Option<Category>)
      reads this
      requires Valid()
      ensures r.None? <==> forall i :: 0 <= i < |GetAllCategories()| ==> !SameIgnoringCase(GetAllCategories()[i].name, name)
      ensures r.Some? ==> exists i :: (0 <= i < |GetAllCategories()| && GetAllCategories()[i] == r.value &&
        SameIgnoringCase(r.value.name, name) &&
        forall j :: 0 <= j < i ==> !SameIgnoringCase(GetAllCategories()[j].name, name))
    {
      Seqs.Find(GetAllCategories(), (c: Category) => SameIgnoringCase(c.name, name))
    }

    /** `getMenuItemsByCategory`: the menu items of category `categoryId`, in insertion order. */
    function GetMenuItemsByCategory(categoryId: int): (r: seq<MenuItem>)
      reads this
      requires Valid()
      ensures forall m :: m in r <==> m in GetAllMenuItems() && m.categoryId == Some(categoryId)
      ensures forall i :: 0 <= i < |r| ==> r[i].categoryId == Some(categoryId)
    {
      var p := InCategory(categoryId);
      var r := Seqs.Filter(GetAllMenuItems(), p);
      assert forall m :: m in r <==> m in GetAllMenuItems() && p(m) by {
        forall m ensures m in r <==> m in GetAllMenuItems() && p(m) {
          Seqs.FilterMember(GetAllMenuItems(), p, m);
        }
      }
      r
    }

    /** `getOrdersByUser`: the orders placed by `userId`, in insertion order. */
    function GetOrdersByUser(userId: int): (r: seq<Order>)
      reads this
      requires Valid()
      ensures forall o :: o in r <==> o in GetAllOrders() && o.userId == userId
      ensures forall i :: 0 <= i < |r| ==> r[i].userId == userId
    {
      var p := (o: Order) => o.userId == userId;
      var r := Seqs.Filter(GetAllOrders(), p);
      assert forall o :: o in r <==> o in GetAllOrders() && p(o) by {
        forall o ensures o in r <==> o in GetAllOrders() && p(o) {
          Seqs.FilterMember(GetAllOrders(), p, o);
        }
      }
      r
    }

    /** `getActiveOrders`: the orders that are neither completed nor cancelled, in insertion order. */
    function GetActiveOrders(): (r: seq<Order>)
      reads this
      requires Valid()
      ensures forall o :: o in r <==> o in GetAllOrders() && IsActiveStatus(o.status)
      ensures forall i :: 0 <= i < |r| ==> IsActiveStatus(r[i].status)
    {
      var p := (o: Order) => IsActiveStatus(o.status);
      var r := Seqs.Filter(GetAllOrders(), p);
      assert forall o :: o in r <==> o in GetAllOrders() && p(o) by {
        forall o ensures o in r <==> o in GetAllOrders() && p(o) {
          Seqs.FilterMember(GetAllOrders(), p, o);
        }
      }
      r
    }

    /** `getOrderItems`: the items of order `orderId`, in insertion order. */
    function GetOrderItems(orderId: int): (r: seq<OrderItem>)
      reads this
      requires Valid()
      ensures forall it :: it in r <==> it in GetAllOrderItems() && it.orderId == orderId
      ensures forall i :: 0 <= i < |r| ==> r[i].orderId == orderId
    {
      var p := (it: OrderItem) => it.orderId == orderId;
      var r := Seqs.Filter(GetAllOrderItems(), p);
      assert forall it :: it in r <==> it in GetAllOrderItems() && p(it) by {
        forall it ensures it in r <==> it in GetAllOrderItems() && p(it) {
          Seqs.FilterMember(GetAllOrderItems(), p, it);
        }
      }
      r
    }

    /** `getReservationsByUser`: the reservations made by `userId`, in insertion order. */
    function GetReservationsByUser(userId: int): (r: seq<Reservation>)
      reads this
      requires Valid()
      ensures forall v :: v in r <==> v in GetAllReservations() && v.userId == userId
      ensures forall i :: 0 <= i < |r| ==> r[i].userId == userId
    {
      var p := (v: Reservation) => v.userId == userId;
      var r := Seqs.Filter(GetAllReservations(), p);
      assert forall v :: v in r <==> v in GetAllReservations() && p(v) by {
        forall v ensures v in r <==> v in GetAllReservations() && p(v) {
          Seqs.FilterMember(GetAllReservations(), p, v);
        }
      }
      r
    }

    /** `getActiveReservations`: the reservations that are neither completed nor cancelled (a missing status counts as active), in insertion order. */
    function GetActiveReservations(): (r: seq<Reservation>)
      reads this
      requires Valid()
      ensures forall v :: v in r <==> v in GetAllReservations() && IsActiveReservationStatus(v.status)
      ensures forall i :: 0 <= i < |r| ==> IsActiveReservationStatus(r[i].status)
    {
      var p := (v: Reservation) => IsActiveReservationStatus(v.status);
      var r := Seqs.Filter(GetAllReservations(), p);
      assert forall v :: v in r <==> v in GetAllReservations() && p(v) by {
        forall v ensures v in r <==> v in GetAllReservations() && p(v) {
          Seqs.FilterMember(GetAllReservations(), p, v);
        }
      }
      r
    }

    // ------------------------------------------------------------------ settings

    /** `getSettings` */
    function GetSettings(): Option<Settings>
      reads this
    {
      settings
    }

    /**
     * `updateSettings`: with no settings yet, creates them under the next settings id,
     * the name defaulting to "Restaurant" and the theme to `{}`; otherwise merges the
     * patch into them. Either way the stored settings are the ones returned.
     */
    method UpdateSettings(patch: SettingsPatch) returns (r: Settings)
      modifies this`settings, this`settingsIdCounter
      ensures settings == Some(r)
      ensures old(settings).None? ==>
        r == NewSettings(old(settingsIdCounter), patch) && settingsIdCounter == old(settingsIdCounter) + 1
      ensures old(settings).Some? ==>
        r == ApplySettingsPatch(old(settings).value, patch) && settingsIdCounter == old(settingsIdCounter)
    {
      if settings.None? {
        var id := settingsIdCounter;
        settingsIdCounter := settingsIdCounter + 1;
        r := NewSettings(id, patch);
      } else {
        r := ApplySettingsPatch(settings.value, patch);
      }
      settings := Some(r);
    }
  }

  /**
   * Every listing of a well-formed store holds distinct, strictly increasing ids, all
   * from 1 up to the table's counter, so the id the next create takes is larger than
   * every id listed.
   */
  lemma ListingsAscend(s: MemStorage)
    requires s.Valid()
    ensures IdsAscend(s.GetAllUsers(), UserId, 1, s.userIdCounter)
    ensures IdsAscend(s.GetAllCategories(), CategoryId, 1, s.categoryIdCounter)
    ensures IdsAscend(s.GetAllMenuItems(), MenuItemId, 1, s.menuItemIdCounter)
    ensures IdsAscend(s.GetAllOrders(), OrderId, 1, s.orderIdCounter)
    ensures IdsAscend(s.GetAllOrderItems(), OrderItemId, 1, s.orderItemIdCounter)
    ensures IdsAscend(s.GetAllReservations(), ReservationId, 1, s.reservationIdCounter)
    ensures IdsAscend(s.GetAllLocations(), LocationId, 1, s.locationIdCounter)
  {
    ValuesInAscending(s.users, s.userIdCounter, UserId, 1, s.userIdCounter);
    ValuesInAscending(s.categories, s.categoryIdCounter, CategoryId, 1, s.categoryIdCounter);
    ValuesInAscending(s.menuItems, s.menuItemIdCounter, MenuItemId, 1, s.menuItemIdCounter);
    ValuesInAscending(s.orders, s.orderIdCounter, OrderId, 1, s.orderIdCounter);
    ValuesInAscending(s.orderItems, s.orderItemIdCounter, OrderItemId, 1, s.orderItemIdCounter);
    ValuesInAscending(s.reservations, s.reservationIdCounter, ReservationId, 1, s.reservationIdCounter);
    ValuesInAscending(s.locations, s.locationIdCounter, LocationId, 1, s.locationIdCounter);
  }

  /** The seeded users and categories are listed in creation order. */
  lemma SeededUsersAndCategoriesListed()
    ensures ValuesIn(map[1 := Admin], 1, 2) == [Admin]
    ensures ValuesIn(SeededCategories, 1, 5) ==
      [Category(1, "Starters"), Category(2, "Main Courses"), Category(3, "Desserts"), Category(4, "Drinks")]
  {
    assert ValuesIn(map[1 := Admin], 1, 1) == [];
    assert ValuesIn(SeededCategories, 1, 3) == [Category(1, "Starters"), Category(2, "Main Courses")];
  }

  /** The seeded menu items and locations are listed in creation order. */
  lemma SeededItemsAndLocationsListed()
    ensures ValuesIn(SeededMenuItems, 1, 4) == [Salmon, Pasta, Filet]
    ensures ValuesIn(SeededLocations, 1, 3) == [Downtown, Uptown]
  {
    assert ValuesIn(SeededMenuItems, 1, 3) == [Salmon, Pasta];
    assert ValuesIn(SeededLocations, 1, 2) == [Downtown];
  }

  /**
   * On a new store the "Main Courses" category (id 2) lists the three seeded dishes
   * in creation order, and every other category lists none.
   */
  lemma FreshStoreMainCourses(s: MemStorage, categoryId: int)
    requires s.Valid() && s.menuItems == SeededMenuItems && s.menuItemIdCounter == 4
    ensures s.GetMenuItemsByCategory(2) == [Salmon, Pasta, Filet]
    ensures categoryId != 2 ==> s.GetMenuItemsByCategory(categoryId) == []
  {
    SeededItemsAndLocationsListed();
    Seqs.FilterAll(s.GetAllMenuItems(), InCategory(2));
    if categoryId != 2 {
      Seqs.FilterNone(s.GetAllMenuItems(), InCategory(categoryId));
    }
  }

  /**
   * On a store seeded as the code stands, the three dishes are stored and listed, yet
   * every category, "Main Courses" included, lists none of them.
   */
  lemma AsWrittenSeedingListsNoDish(s: MemStorage, categoryId: int)
    requires s.Valid() && s.menuItems == SeededDishes(None) && s.menuItemIdCounter == 4
    ensures s.GetAllMenuItems() == [Salmon.(categoryId := None), Pasta.(categoryId := None), Filet.(categoryId := None)]
    ensures s.GetMenuItemsByCategory(categoryId) == []
  {
    assert ValuesIn(s.menuItems, 1, 2) == [Salmon.(categoryId := None)];
    assert ValuesIn(s.menuItems, 1, 3) == [Salmon.(categoryId := None), Pasta.(categoryId := None)];
    Seqs.FilterNone(s.GetAllMenuItems(), InCategory(categoryId));
  }

  /**
   * What `mains` holds in `initializeDefaultData` (storage.ts:127): `createCategory`
   * is `async`, so the constant is the category once awaited, but a pending Promise
   * of it as the code stands (no `await`).
   */
  datatype CategoryRef = Awaited(category: Category) | Pending(promised: Category)

  /** `ref.id`: the category's id, or `undefined` on a Promise, which has no `id` property. */
  function IdProperty(ref: CategoryRef): (r: Option<int>)
    ensures r.Some? <==> ref.Awaited?
    ensures ref.Awaited? ==> r == Some(ref.category.id)
  {
    match ref
    case Awaited(c) => Some(c.id)
    case Pending(_) => None
  }

  /** `item.categoryId === categoryId` for a stored category id that may be `undefined`. */
  predicate ListedUnder(stored: Option<int>, categoryId: int) {
    stored == Some(categoryId)
  }

  /**
   * The category id the seeding code as written stores on the three menu items:
   * `mains.id` with `mains` a Promise. It equals no category id, so `getMenuItemsByCategory`
   * never lists the seeded dishes.
   */
  function SeedCategoryIdAsWritten(mains: Category): (r: Option<int>)
    ensures forall categoryId :: !ListedUnder(r, categoryId)
  {
    IdProperty(Pending(mains))
  }

  /** With `await`, `mains.id` is the id of "Main Courses", and the dishes are listed under it. */
  function SeedCategoryId(mains: Category): (r: Option<int>)
    ensures ListedUnder(r, mains.id)
  {
    IdProperty(Awaited(mains))
  }
}
