/**
 * The records of shared/schema.ts as MemStorage holds them.
 *
 * Prices are integer cents; an order total is a `real` number of cents, because the
 * cart's tax is an unrounded fraction of a cent. Timestamps are integers.
 * A nullable column is an `Option` (null and absent are the same here). A column
 * that has a database default (users.role, orders.paymentCompleted,
 * reservations.status) is optional in the insert schema, and MemStorage stores the
 * insert as it is, so the stored record may lack it: such fields are `Option` too.
 */
module Schema {
  import opened Wrappers

  const AdminRole: string := "admin"
  const CustomerRole: string := "customer"

  /** The JSON object stored in settings.themeSettings, reduced to string entries. */
  type ThemeSettings = map<string, string>

  datatype User = User(id: int, username: string, password: string, email: string,
                       fullName: string, phone: Option<string>, role: Option<string>)

  datatype InsertUser = InsertUser(username: string, password: string, email: string,
                                   fullName: string, phone: Option<string>, role: Option<string>)
  {
    /** `{ ...user, id }` */
    function WithId(id: int): User {
      User(id, username, password, email, fullName, phone, role)
    }
  }

  datatype Category = Category(id: int, name: string)

  datatype InsertCategory = InsertCategory(name: string) {
    function WithId(id: int): Category {
      Category(id, name)
    }
  }

  /**
   * A menu item. Its `categoryId` is `None` when the value stored is `undefined`, which
   * the store's own seeding produces (see `Storage.MemStorage.InitializeDefaultDataAsWritten`).
   */
  datatype MenuItem = MenuItem(id: int, name: string, description: string, price: int,
                               imageUrl: Option<string>, categoryId: Option<int>, available: bool)

  datatype InsertMenuItem = InsertMenuItem(name: string, description: string, price: int,
                                           imageUrl: Option<string>, categoryId: Option<int>, available: bool)
  {
    function WithId(id: int): MenuItem {
      MenuItem(id, name, description, price, imageUrl, categoryId, available)
    }
  }

  datatype Order = Order(id: int, userId: int, status: string, total: real, createdAt: int,
                         deliveryAddress: Option<string>, deliveryMethod: string, paymentMethod: string,
                         paymentCompleted: Option<bool>, paymentId: Option<string>)

  datatype InsertOrder = InsertOrder(userId: int, status: string, total: real, deliveryAddress: Option<string>,
                                     deliveryMethod: string, paymentMethod: string,
                                     paymentCompleted: Option<bool>, paymentId: Option<string>)
  {
    /** `{ ...order, id, createdAt: new Date() }`, the clock read passed in as `now`. */
    function WithId(id: int, now: int): Order {
      Order(id, userId, status, total, now, deliveryAddress, deliveryMethod, paymentMethod, paymentCompleted, paymentId)
    }
  }

  datatype OrderItem = OrderItem(id: int, orderId: int, menuItemId: int, quantity: int, price: int)

  datatype InsertOrderItem = InsertOrderItem(orderId: int, menuItemId: int, quantity: int, price: int) {
    function WithId(id: int): OrderItem {
      OrderItem(id, orderId, menuItemId, quantity, price)
    }
  }

  datatype Reservation = Reservation(id: int, userId: int, date: int, partySize: int, fullName: string,
                                     email: string, phone: string, specialRequests: Option<string>,
                                     status: Option<string>)

  datatype InsertReservation = InsertReservation(userId: int, date: int, partySize: int, fullName: string,
                                                 email: string, phone: string, specialRequests: Option<string>,
                                                 status: Option<string>)
  {
    function WithId(id: int): Reservation {
      Reservation(id, userId, date, partySize, fullName, email, phone, specialRequests, status)
    }
  }

  datatype Settings = Settings(id: int, name: string, logoUrl: Option<string>, primaryColor: Option<string>,
                               themeSettings: Option<ThemeSettings>)

  datatype Location = Location(id: int, name: string, address: string, phone: string, openingHours: string)

  datatype InsertLocation = InsertLocation(name: string, address: string, phone: string, openingHours: string) {
    function WithId(id: int): Location {
      Location(id, name, address, phone, openingHours)
    }
  }

  /*
   * Partial updates. `{ ...existing, ...patch }` keeps every field the patch lacks and
   * takes every field it has. A field is `None` when the patch lacks it; a nullable
   * field present in the patch is `Some(None)` for an explicit null.
   */

  /** One field of `{ ...existing, ...patch }`. */
  function Overwrite<T>(current: T, patched: Option<T>): T {
    patched.GetOr(current)
  }

  /** `{ ...p, ...q }` for one field: the later patch wins where it has the field. */
  function Later<T>(p: Option<T>, q: Option<T>): Option<T> {
    if q.Some? then q else p
  }

  datatype CategoryPatch = CategoryPatch(name: Option<string>)

  function ApplyCategoryPatch(c: Category, p: CategoryPatch): Category {
    c.(name := Overwrite(c.name, p.name))
  }

  datatype MenuItemPatch = MenuItemPatch(name: Option<string>, description: Option<string>, price: Option<int>,
                                         imageUrl: Option<Option<string>>, categoryId: Option<int>,
                                         available: Option<bool>)

  function ApplyMenuItemPatch(m: MenuItem, p: MenuItemPatch): MenuItem {
    m.(name := Overwrite(m.name, p.name),
       description := Overwrite(m.description, p.description),
       price := Overwrite(m.price, p.price),
       imageUrl := Overwrite(m.imageUrl, p.imageUrl),
       categoryId := if p.categoryId.Some? then Some(p.categoryId.value) else m.categoryId,
       available := Overwrite(m.available, p.available))
  }

  datatype OrderPatch = OrderPatch(userId: Option<int>, status: Option<string>, total: Option<real>,
                                   deliveryAddress: Option<Option<string>>, deliveryMethod: Option<string>,
                                   paymentMethod: Option<string>, paymentCompleted: Option<bool>,
                                   paymentId: Option<Option<string>>)
  {
    /** `{ ...this, ...q }` */
    function Then(q: OrderPatch): OrderPatch {
      OrderPatch(Later(userId, q.userId), Later(status, q.status), Later(total, q.total),
                 Later(deliveryAddress, q.deliveryAddress), Later(deliveryMethod, q.deliveryMethod),
                 Later(paymentMethod, q.paymentMethod), Later(paymentCompleted, q.paymentCompleted),
                 Later(paymentId, q.paymentId))
    }
  }

  /** The body `{ status }` that the admin screens send. */
  function StatusPatch(status: string): OrderPatch {
    OrderPatch(None, Some(status), None, None, None, None, None, None)
  }

  const EmptyOrderPatch: OrderPatch := OrderPatch(None, None, None, None, None, None, None, None)

  function ApplyOrderPatch(o: Order, p: OrderPatch): Order {
    o.(userId := Overwrite(o.userId, p.userId),
       status := Overwrite(o.status, p.status),
       total := Overwrite(o.total, p.total),
       deliveryAddress := Overwrite(o.deliveryAddress, p.deliveryAddress),
       deliveryMethod := Overwrite(o.deliveryMethod, p.deliveryMethod),
       paymentMethod := Overwrite(o.paymentMethod, p.paymentMethod),
       paymentCompleted := if p.paymentCompleted.Some? then Some(p.paymentCompleted.value) else o.paymentCompleted,
       paymentId := Overwrite(o.paymentId, p.paymentId))
  }

  /** A merge never touches the record's identity: `id` and `createdAt` are not insert fields. */
  lemma OrderPatchKeepsIdentity(o: Order, p: OrderPatch)
    ensures ApplyOrderPatch(o, p).id == o.id && ApplyOrderPatch(o, p).createdAt == o.createdAt
  {
  }

  /** An empty body changes nothing; a `{ status }` body changes the status and nothing else. */
  lemma StatusPatchOnlyStatus(o: Order, s: string)
    ensures ApplyOrderPatch(o, EmptyOrderPatch) == o
    ensures ApplyOrderPatch(o, StatusPatch(s)) == o.(status := s)
  {
  }

  /** Merging twice with the same patch is merging once. */
  lemma OrderPatchIdempotent(o: Order, p: OrderPatch)
    ensures ApplyOrderPatch(ApplyOrderPatch(o, p), p) == ApplyOrderPatch(o, p)
  {
  }

  /** Two merges in a row are one merge with the combined patch, the later one winning. */
  lemma OrderPatchCompose(o: Order, p: OrderPatch, q: OrderPatch)
    ensures ApplyOrderPatch(ApplyOrderPatch(o, p), q) == ApplyOrderPatch(o, p.Then(q))
  {
  }

  datatype ReservationPatch = ReservationPatch(userId: Option<int>, date: Option<int>, partySize: Option<int>,
                                               fullName: Option<string>, email: Option<string>,
                                               phone: Option<string>, specialRequests: Option<Option<string>>,
                                               status: Option<string>)

  function ApplyReservationPatch(r: Reservation, p: ReservationPatch): Reservation {
    r.(userId := Overwrite(r.userId, p.userId),
       date := Overwrite(r.date, p.date),
       partySize := Overwrite(r.partySize, p.partySize),
       fullName := Overwrite(r.fullName, p.fullName),
       email := Overwrite(r.email, p.email),
       phone := Overwrite(r.phone, p.phone),
       specialRequests := Overwrite(r.specialRequests, p.specialRequests),
       status := if p.status.Some? then Some(p.status.value) else r.status)
  }

  datatype LocationPatch = LocationPatch(name: Option<string>, address: Option<string>, phone: Option<string>,
                                         openingHours: Option<string>)

  function ApplyLocationPatch(l: Location, p: LocationPatch): Location {
    l.(name := Overwrite(l.name, p.name),
       address := Overwrite(l.address, p.address),
       phone := Overwrite(l.phone, p.phone),
       openingHours := Overwrite(l.openingHours, p.openingHours))
  }

  datatype SettingsPatch = SettingsPatch(name: Option<string>, logoUrl: Option<Option<string>>,
                                         primaryColor: Option<Option<string>>,
                                         themeSettings: Option<Option<ThemeSettings>>)

  function ApplySettingsPatch(s: Settings, p: SettingsPatch): Settings {
    s.(name := Overwrite(s.name, p.name),
       logoUrl := Overwrite(s.logoUrl, p.logoUrl),
       primaryColor := Overwrite(s.primaryColor, p.primaryColor),
       themeSettings := Overwrite(s.themeSettings, p.themeSettings))
  }
}
