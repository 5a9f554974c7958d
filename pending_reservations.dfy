/**
 * The pending-reservations page: editing an entry's dates, deleting entries, the
 * seven-field projection written back to storage, and the confirm request.
 */
module PendingReservations {
  import opened Wrappers
  import opened Cart
  import Seqs
  import Checkout

  /** The `reservations.map` of the edit handler: new dates on every entry with the edited service id. */
  function EditDates(items: seq<CartEntry>, serviceId: string, startDate: string, endDate: string): (r: seq<CartEntry>)
    ensures |r| == |items|
  {
    seq(|items|, i requires 0 <= i < |items| =>
      if items[i].serviceId == serviceId then items[i].(startDate := startDate, endDate := endDate) else items[i])
  }

  /** Editing touches only the dates of matching entries; every other entry and field is unchanged. */
  lemma EditChangesOnlyDates(items: seq<CartEntry>, serviceId: string, startDate: string, endDate: string, i: nat)
    requires i < |items|
    ensures var r := EditDates(items, serviceId, startDate, endDate);
      r[i].(startDate := items[i].startDate, endDate := items[i].endDate) == items[i]
      && (items[i].serviceId == serviceId ==> r[i].startDate == startDate && r[i].endDate == endDate)
      && (items[i].serviceId != serviceId ==> r[i] == items[i])
  {
  }

  /** Editing twice with the same dates is editing once. */
  lemma EditIdempotent(items: seq<CartEntry>, serviceId: string, startDate: string, endDate: string)
    ensures EditDates(EditDates(items, serviceId, startDate, endDate), serviceId, startDate, endDate)
         == EditDates(items, serviceId, startDate, endDate)
  {
  }

  predicate OtherService(serviceId: string, r: CartEntry)
  {
    r.serviceId != serviceId
  }

  /** The `reservations.filter` of the delete handler. */
  function WithoutService(items: seq<CartEntry>, serviceId: string): seq<CartEntry>
  {
    Seqs.Filter(items, r => OtherService(serviceId, r))
  }

  /** Deleting removes every entry with that service id and keeps all others, in order. */
  lemma DeleteRemovesExactlyMatches(items: seq<CartEntry>, serviceId: string)
    ensures forall e :: e in WithoutService(items, serviceId) <==> e in items && e.serviceId != serviceId
    ensures Seqs.IsSubsequence(WithoutService(items, serviceId), items)
    ensures forall e :: multiset(WithoutService(items, serviceId))[e] == if e.serviceId != serviceId then multiset(items)[e] else 0
  {
    forall e
      ensures multiset(WithoutService(items, serviceId))[e] == if e.serviceId != serviceId then multiset(items)[e] else 0
    {
      Seqs.FilterCount(items, r => OtherService(serviceId, r), e);
    }
    forall e
      ensures e in WithoutService(items, serviceId) <==> e in items && e.serviceId != serviceId
    {
      Seqs.FilterMembership(items, r => OtherService(serviceId, r), e);
    }
    Seqs.FilterIsSubsequence(items, r => OtherService(serviceId, r));
  }

  /** The `reduce` of the confirm handler: the plain sum of `price`, without the `totalPrice` fall-back. */
  function PendingTotal(items: seq<CartEntry>): real
  {
    if items == [] then 0.0 else PendingTotal(items[..|items| - 1]) + items[|items| - 1].price
  }

  /**
   * Once this page has written the cart back, the checkout total is the plain price
   * sum: the projection drops `totalPrice`, so the checkout falls back to `price`.
   */
  lemma {:induction false} CheckoutTotalAfterProjection(items: seq<CartEntry>)
    ensures Checkout.CartTotal(ProjectAll(items)) == PendingTotal(items)
  {
    if items != [] {
      var init := items[..|items| - 1];
      CheckoutTotalAfterProjection(init);
      assert ProjectAll(items)[..|items| - 1] == ProjectAll(init);
    }
  }

  /** One confirmed item: service id, price and dates, nothing else. */
  datatype ConfirmItem = ConfirmItem(serviceId: string, price: real, startTime: string, endTime: string)

  datatype ConfirmRequest = ConfirmRequest(status: string, userId: int, totalPrice: real, items: seq<ConfirmItem>)

  /** The `items` of the confirm request: each entry's service id, `price` and dates, in cart order. */
  function ConfirmItems(items: seq<CartEntry>): (r: seq<ConfirmItem>)
    ensures |r| == |items|
    ensures forall i :: 0 <= i < |items| ==>
      r[i] == ConfirmItem(items[i].serviceId, items[i].price, items[i].startDate, items[i].endDate)
  {
    seq(|items|, i requires 0 <= i < |items| =>
      ConfirmItem(items[i].serviceId, items[i].price, items[i].startDate, items[i].endDate))
  }

  /** Sum of the posted item prices. */
  function ConfirmItemsTotal(items: seq<ConfirmItem>): real
  {
    if items == [] then 0.0 else ConfirmItemsTotal(items[..|items| - 1]) + items[|items| - 1].price
  }

  /** The confirm request's `totalPrice` is the sum of the prices of the items it posts. */
  lemma {:induction false} ConfirmTotalMatchesItems(items: seq<CartEntry>)
    ensures ConfirmItemsTotal(ConfirmItems(items)) == PendingTotal(items)
  {
    if items != [] {
      var init := items[..|items| - 1];
      ConfirmTotalMatchesItems(init);
      assert ConfirmItems(items)[..|items| - 1] == ConfirmItems(init);
    }
  }

  const EDIT_ERROR: string := "Please provide both start and end dates."
  const SAVING: string := "Saving reservations..."
  const CONFIRMED: string := "Reservations confirmed successfully!"
  const CONFIRM_FAILED: string := "Failed to confirm reservations"

  /** The page state the handlers read and change. */
  class PendingPage {
    var storage: Storage
    const userEmail: string
    var reservations: seq<CartEntry>
    var editing: Option<CartEntry>
    var startDate: string
    var endDate: string
    var error: string
    var confirmationStatus: string
    /** Requests sent to `/api/reservations`, oldest first. */
    var sent: seq<ConfirmRequest>

    constructor (storage: Storage, userEmail: string)
      ensures this.storage == storage && this.userEmail == userEmail
      ensures reservations == (if userEmail in storage then storage[userEmail] else [])
      ensures editing.None? && sent == [] && error == "" && confirmationStatus == ""
      ensures startDate == "" && endDate == ""
    {
      this.storage := storage;
      this.userEmail := userEmail;
      reservations := if userEmail in storage then storage[userEmail] else [];
      editing := None;
      startDate, endDate := "", "";
      error, confirmationStatus := "", "";
      sent := [];
    }

    /**
     * `handleConfirmEditReservation`: with either date empty, only the error is set;
     * otherwise matching entries get the new dates, the projection is stored and the
     * edit form closes. The form that calls it is shown only while an entry is being edited.
     */
    method HandleConfirmEditReservation()
      requires editing.Some?
      modifies this
      ensures startDate == old(startDate) && endDate == old(endDate) && sent == old(sent)
      ensures confirmationStatus == old(confirmationStatus)
      ensures old(startDate) == "" || old(endDate) == "" ==>
        error == EDIT_ERROR && reservations == old(reservations) && storage == old(storage) && editing == old(editing)
      ensures old(startDate) != "" && old(endDate) != "" ==>
        var updated := EditDates(old(reservations), old(editing).value.serviceId, old(startDate), old(endDate));
        reservations == updated && storage == old(storage)[userEmail := ProjectAll(updated)] && editing.None?
        && error == old(error)
    {
      if startDate == "" || endDate == "" {
        error := EDIT_ERROR;
        return;
      }
      var updated := EditDates(reservations, editing.value.serviceId, startDate, endDate);
      storage := storage[userEmail := ProjectAll(updated)];
      reservations := updated;
      editing := None;
    }

    /** `handleDelete`: nothing happens unless the user confirms the prompt. */
    method HandleDelete(target: CartEntry, confirmed: bool)
      modifies this
      ensures !confirmed ==> reservations == old(reservations) && storage == old(storage)
      ensures confirmed ==>
        var updated := WithoutService(old(reservations), target.serviceId);
        reservations == updated && storage == old(storage)[userEmail := ProjectAll(updated)]
      ensures editing == old(editing) && sent == old(sent) && error == old(error)
      ensures startDate == old(startDate) && endDate == old(endDate) && confirmationStatus == old(confirmationStatus)
    {
      if confirmed {
        var updated := WithoutService(reservations, target.serviceId);
        storage := storage[userEmail := ProjectAll(updated)];
        reservations := updated;
      }
    }

    /**
     * `handleConfirmReservations`: posts the stored cart with its plain price sum; the
     * cart is cleared only after an OK response. With no stored cart the handler
     * stops at reading it (a TypeError on `null.reduce`) and nothing is sent.
     */
    method HandleConfirmReservations(userId: int, responseOk: bool)
      modifies this
      ensures editing == old(editing) && startDate == old(startDate) && endDate == old(endDate) && error == old(error)
      ensures userEmail !in old(storage) ==>
        sent == old(sent) && storage == old(storage) && reservations == old(reservations)
        && confirmationStatus == SAVING
      ensures userEmail in old(storage) ==>
        var stored := old(storage)[userEmail];
        sent == old(sent) + [ConfirmRequest("completed", userId, PendingTotal(stored), ConfirmItems(stored))]
      ensures userEmail in old(storage) && responseOk ==>
        storage == old(storage) - {userEmail} && reservations == [] && confirmationStatus == CONFIRMED
      ensures userEmail in old(storage) && !responseOk ==>
        storage == old(storage) && reservations == old(reservations) && confirmationStatus == CONFIRM_FAILED
    {
      confirmationStatus := SAVING;
      if userEmail !in storage {
        return;
      }
      var stored := storage[userEmail];
      var totalPrice := PendingTotal(stored);
      sent := sent + [ConfirmRequest("completed", userId, totalPrice, ConfirmItems(stored))];
      if !responseOk {
        confirmationStatus := CONFIRM_FAILED;
        return;
      }
      confirmationStatus := CONFIRMED;
      storage := storage - {userEmail};
      reservations := [];
    }
  }
}
