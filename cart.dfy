/**
 * The pending-reservation cart kept in browser storage under the user's email,
 * shared by the checkout and pending-reservations pages.
 */
module Cart {
  import opened Wrappers

  /** One cart entry; None marks a field the stored object does not have. */
  datatype CartEntry = CartEntry(
    userId: string,
    userEmail: string,
    serviceId: string,
    serviceName: string,
    startDate: string,
    endDate: string,
    price: real,
    totalPrice: Option<real>,
    quantity: Option<int>,
    specificServiceId: Option<int>)

  /** Browser storage: one cart per user email. */
  type Storage = map<string, seq<CartEntry>>

  /** The seven fields the pending-reservations page writes back; every other field is dropped. */
  function Project(e: CartEntry): (p: CartEntry)
  {
    CartEntry(e.userId, e.userEmail, e.serviceId, e.serviceName, e.startDate, e.endDate, e.price, None, None, None)
  }

  function ProjectAll(items: seq<CartEntry>): (r: seq<CartEntry>)
    ensures |r| == |items|
    ensures forall i :: 0 <= i < |items| ==> r[i] == Project(items[i])
  {
    seq(|items|, i requires 0 <= i < |items| => Project(items[i]))
  }

  /** Projection keeps the seven fields and is idempotent. */
  lemma ProjectKeepsSevenFields(e: CartEntry)
    ensures var p := Project(e);
      p.userId == e.userId && p.userEmail == e.userEmail && p.serviceId == e.serviceId
      && p.serviceName == e.serviceName && p.startDate == e.startDate && p.endDate == e.endDate
      && p.price == e.price
    ensures var p := Project(e);
      p.totalPrice.None? && p.quantity.None? && p.specificServiceId.None?
    ensures Project(Project(e)) == Project(e)
  {
  }
}
