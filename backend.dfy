/**
 * The hosted backend's tables, held in memory.  Every page handler reads and
 * writes these sequences; the server's id generator is the `nextId` counter.
 */
module Backend {

  import opened Types

  /** Gives consecutive server ids to inserted notification rows. */
  function Stamp(drafts: seq<NotificationDraft>, first: nat): (r: seq<NotificationRow>)
    ensures |r| == |drafts|
    ensures DraftsOf(r) == drafts
    ensures forall i :: 0 <= i < |r| ==> r[i].id == RowId(first + i)
    decreases |drafts|
  {
    if drafts == [] then []
    else
      var d := drafts[0];
      [NotificationRow(RowId(first), d.userId, d.title, d.message, d.isRead)] + Stamp(drafts[1..], first + 1)
  }

  class Store {
    var products: seq<Product>
    var profiles: seq<ProfileRow>
    var addresses: seq<AddressRow>
    var wishlist: seq<WishlistRow>
    var cart: seq<CartRow>
    var orders: seq<OrderRow>
    var orderItems: seq<OrderItemRow>
    var notifications: seq<NotificationRow>
    var admins: seq<AdminRow>
    var nextId: nat

    constructor ()
      ensures products == [] && profiles == [] && addresses == [] && wishlist == [] && cart == []
      ensures orders == [] && orderItems == [] && notifications == [] && admins == []
      ensures nextId == 0
    {
      products, profiles, addresses, wishlist, cart := [], [], [], [], [];
      orders, orderItems, notifications, admins := [], [], [], [];
      nextId := 0;
    }

    /** The server assigns the id of a newly inserted row. */
    method NewId() returns (id: string)
      modifies this`nextId
      ensures id == RowId(old(nextId)) && nextId == old(nextId) + 1
    {
      id := RowId(nextId);
      nextId := nextId + 1;
    }

    /** `from('notifications').insert(batch)`: one new row per draft, in order. */
    method InsertNotifications(batch: seq<NotificationDraft>)
      modifies this`notifications, this`nextId
      ensures notifications == old(notifications) + Stamp(batch, old(nextId))
      ensures DraftsOf(notifications) == old(DraftsOf(notifications)) + batch
      ensures nextId == old(nextId) + |batch|
    {
      DraftsOfAppend(notifications, Stamp(batch, nextId));
      notifications := notifications + Stamp(batch, nextId);
      nextId := nextId + |batch|;
    }
  }
}
