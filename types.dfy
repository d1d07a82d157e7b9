/**
 * Record shapes of the storefront's backend tables and the small value types the
 * page handlers share.  Server-assigned timestamps (`created_at`) are not modelled.
 */
module Types {

  import Text

  datatype Option<T> = None | Some(value: T)

  /** JavaScript truthiness of an optional string: `null`, `undefined` and `""` are falsy. */
  predicate Truthy(s: Option<string>)
  {
    s.Some? && s.value != ""
  }

  /** `s || null`: an empty string is sent as null. */
  function OrNull(s: Option<string>): (r: Option<string>)
    ensures r.Some? <==> Truthy(s)
    ensures r.Some? ==> r == s
  {
    if Truthy(s) then s else None
  }

  /** A row of `products`. */
  datatype Product = Product(
    productId: string,
    name: string,
    description: string,
    price: real,
    imageUrl: string,
    tags: seq<string>,
    tag: string,
    category: string,
    isActive: bool)

  /** A row of `profiles`; `id` equals the identity's id. */
  datatype ProfileRow = ProfileRow(
    id: string,
    name: Option<string>,
    age: Option<int>,
    gender: Option<string>,
    email: string,
    phone: Option<string>)

  /** A row of `addresses`. */
  datatype AddressRow = AddressRow(
    id: string,
    userId: string,
    line1: string,
    line2: Option<string>,
    city: string,
    state: string,
    postalCode: string,
    country: string,
    isDefault: bool)

  /** A row of `wishlist`. */
  datatype WishlistRow = WishlistRow(id: string, userId: string, productId: string)

  /** A row of `cart`. */
  datatype CartRow = CartRow(id: string, userId: string, productId: string, quantity: int)

  /** A row of `orders`. */
  datatype OrderRow = OrderRow(
    id: string,
    userId: string,
    totalAmount: real,
    status: string,
    paymentMethod: Option<string>,
    paymentStatus: string)

  /** A row of `order_items`; `price` is the unit price at purchase time. */
  datatype OrderItemRow = OrderItemRow(orderId: string, productId: string, quantity: int, price: real)

  /** The fields a client sends when inserting into `notifications`. */
  datatype NotificationDraft = NotificationDraft(userId: string, title: string, message: string, isRead: bool)

  /** A row of `notifications`. */
  datatype NotificationRow = NotificationRow(id: string, userId: string, title: string, message: string, isRead: bool)

  /** The fields of a notification row other than its server-assigned id. */
  function DraftOf(n: NotificationRow): NotificationDraft
  {
    NotificationDraft(n.userId, n.title, n.message, n.isRead)
  }

  function DraftsOf(ns: seq<NotificationRow>): (r: seq<NotificationDraft>)
    ensures |r| == |ns|
    ensures forall i :: 0 <= i < |ns| ==> r[i] == DraftOf(ns[i])
  {
    if ns == [] then [] else [DraftOf(ns[0])] + DraftsOf(ns[1..])
  }

  lemma DraftsOfAppend(a: seq<NotificationRow>, b: seq<NotificationRow>)
    ensures DraftsOf(a + b) == DraftsOf(a) + DraftsOf(b)
  {
  }

  /** A row of `admins`: its presence grants the admin capability. */
  datatype AdminRow = AdminRow(id: string, userId: string)

  /** An authenticated identity; an absent email is represented by "". */
  datatype Identity = Identity(id: string, email: string, fullName: Option<string>, metaName: Option<string>)

  /** A backend error object as the client receives it. */
  datatype DbError = DbError(code: string, message: string)

  /**
   * How an awaited write whose `{ error }` the handler never reads comes back:
   * applied, refused by the backend (an error object; the table is unchanged but
   * the handler carries on as after a success), or thrown (the handler's `catch`).
   */
  datatype Reply = Written | Rejected | Thrown

  datatype ToastKind = Success | Error | Warning

  /** What a handler shows or where it sends the user. */
  datatype Effect = NoEffect | Toast(text: string, kind: ToastKind) | Redirect(path: string)

  /** The sign-in route every guarded handler redirects to. */
  const SignInRoute := "/auth"

  /** The id the backend assigns to the `n`-th inserted row. */
  function RowId(n: nat): string
  {
    "row-" + Text.NatToString(n)
  }
}
