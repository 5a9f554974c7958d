/**
 * The checkout page: the cart total, the card check, and the reservation request
 * posted on submit.
 */
module Checkout {
  import opened Wrappers
  import opened Cart

  /** `curr.totalPrice || curr.price`: the line total when truthy (present and non-zero), else the unit price. */
  function ChargedPrice(e: CartEntry): real
  {
    if e.totalPrice.Some? && e.totalPrice.value != 0.0 then e.totalPrice.value else e.price
  }

  /** The `reduce` over the cart, added left to right from 0. */
  function CartTotal(items: seq<CartEntry>): real
  {
    if items == [] then 0.0 else CartTotal(items[..|items| - 1]) + ChargedPrice(items[|items| - 1])
  }

  datatype CardDetails = CardDetails(cardNumber: string, expiryDate: string, cvv: string, cardholderName: string)

  datatype CardCheck = CardOk | CardError(message: string)

  predicate CardAcceptable(card: CardDetails)
  {
    |card.cardNumber| == 16 && |card.cvv| == 3 && card.cardholderName != "" && card.expiryDate != ""
  }

  /** `validateCard`: four checks in order; the first failure is the one reported. */
  function ValidateCard(card: CardDetails): (r: CardCheck)
    ensures r == CardOk <==> CardAcceptable(card)
    ensures |card.cardNumber| != 16 ==> r == CardError("Card number must be 16 digits")
    ensures |card.cardNumber| == 16 && |card.cvv| != 3 ==> r == CardError("CVV must be 3 digits")
    ensures |card.cardNumber| == 16 && |card.cvv| == 3 && card.cardholderName == "" ==>
      r == CardError("Cardholder name is required")
    ensures |card.cardNumber| == 16 && |card.cvv| == 3 && card.cardholderName != "" && card.expiryDate == "" ==>
      r == CardError("Expiry date is required")
  {
    if |card.cardNumber| != 16 then CardError("Card number must be 16 digits")
    else if |card.cvv| != 3 then CardError("CVV must be 3 digits")
    else if card.cardholderName == "" then CardError("Cardholder name is required")
    else if card.expiryDate == "" then CardError("Expiry date is required")
    else CardOk
  }

  /** One posted reservation item. Ids and dates are carried as the cart holds them. */
  datatype ReservationItem = ReservationItem(
    serviceId: string,
    price: real,
    startTime: string,
    endTime: string,
    quantity: int,
    specificServiceId: Option<int>)

  datatype ReservationRequest = ReservationRequest(
    status: string,
    userId: int,
    totalPrice: real,
    cardholderName: string,
    last4: string,
    items: seq<ReservationItem>)

  /** The `reservations.map` in `handleSubmit`. */
  function ToItem(e: CartEntry): ReservationItem
  {
    ReservationItem(
      e.serviceId,
      ChargedPrice(e),
      e.startDate,
      if e.endDate != "" then e.endDate else e.startDate,
      if e.quantity.Some? && e.quantity.value != 0 then e.quantity.value else 1,
      e.specificServiceId)
  }

  function ToItems(items: seq<CartEntry>): (r: seq<ReservationItem>)
    ensures |r| == |items|
    ensures forall i :: 0 <= i < |items| ==> r[i] == ToItem(items[i])
  {
    seq(|items|, i requires 0 <= i < |items| => ToItem(items[i]))
  }

  function ItemsTotal(items: seq<ReservationItem>): real
  {
    if items == [] then 0.0 else ItemsTotal(items[..|items| - 1]) + items[|items| - 1].price
  }

  /** One posted item per cart entry, with the fall-backs for end date, quantity and option. */
  lemma ItemFallbacks(e: CartEntry)
    ensures ToItem(e).price == ChargedPrice(e)
    ensures e.endDate == "" ==> ToItem(e).endTime == e.startDate
    ensures e.quantity.None? || e.quantity == Some(0) ==> ToItem(e).quantity == 1
    ensures e.specificServiceId.None? ==> ToItem(e).specificServiceId.None?
  {
  }

  /** The posted items' prices add up to the cart total: nothing is discounted on the way. */
  lemma {:induction false} PostedItemsMatchTotal(items: seq<CartEntry>)
    ensures ItemsTotal(ToItems(items)) == CartTotal(items)
  {
    if items != [] {
      var init := items[..|items| - 1];
      PostedItemsMatchTotal(init);
      assert ToItems(items)[..|items| - 1] == ToItems(init);
    }
  }

  /** The last four characters of the card number (`slice(-4)`). */
  function Last4(cardNumber: string): string
  {
    if |cardNumber| <= 4 then cardNumber else cardNumber[|cardNumber| - 4..]
  }

  /** The message shown when the request fails or is refused. */
  const PAYMENT_FAILED: string := "Payment processing failed. Please try again."

  /** The page state that `handleSubmit` reads and changes. */
  class CheckoutPage {
    var storage: Storage
    const userEmail: string
    var reservations: seq<CartEntry>
    var totalAmount: real
    var error: string
    var processing: bool
    /** Requests sent to `/api/reservations`, oldest first. */
    var sent: seq<ReservationRequest>

    ghost predicate Valid()
      reads this
    {
      totalAmount == CartTotal(reservations)
    }

    /** The load effect: the stored cart and its total. */
    constructor (storage: Storage, userEmail: string)
      ensures Valid()
      ensures this.storage == storage && this.userEmail == userEmail
      ensures reservations == (if userEmail in storage then storage[userEmail] else [])
      ensures error == "" && !processing && sent == []
    {
      this.storage := storage;
      this.userEmail := userEmail;
      if userEmail in storage {
        reservations := storage[userEmail];
        totalAmount := CartTotal(storage[userEmail]);
      } else {
        reservations := [];
        totalAmount := 0.0;
      }
      error := "";
      processing := false;
      sent := [];
    }

    /** The request `handleSubmit` posts. */
    function Request(card: CardDetails, userId: int): ReservationRequest
      reads this
    {
      ReservationRequest("confirmed", userId, totalAmount, card.cardholderName, Last4(card.cardNumber), ToItems(reservations))
    }

    /**
     * `handleSubmit`: an invalid card sets the error and sends nothing; otherwise the
     * request goes out, and the stored cart is removed only after an OK response.
     */
    method HandleSubmit(card: CardDetails, userId: int, responseOk: bool)
      requires Valid()
      modifies this
      ensures Valid()
      ensures reservations == old(reservations) && totalAmount == old(totalAmount)
      ensures !processing || !CardAcceptable(card)
      ensures !CardAcceptable(card) ==>
        error == ValidateCard(card).message && sent == old(sent) && storage == old(storage)
        && processing == old(processing)
      ensures CardAcceptable(card) ==> sent == old(sent) + [old(Request(card, userId))]
      ensures CardAcceptable(card) && responseOk ==> storage == old(storage) - {userEmail} && error == ""
      ensures CardAcceptable(card) && !responseOk ==> storage == old(storage) && error == PAYMENT_FAILED
    {
      error := "";
      var check := ValidateCard(card);
      if check.CardError? {
        error := check.message;
        return;
      }
      processing := true;
      sent := sent + [Request(card, userId)];
      if !responseOk {
        error := PAYMENT_FAILED;
      } else {
        storage := storage - {userEmail};
      }
      processing := false;
    }
  }

  /** The posted total is the displayed total, and equals the sum of the posted item prices. */
  lemma RequestTotalIsCartTotal(page: CheckoutPage, card: CardDetails, userId: int)
    requires page.Valid()
    ensures page.Request(card, userId).totalPrice == CartTotal(page.reservations)
    ensures page.Request(card, userId).totalPrice == ItemsTotal(page.Request(card, userId).items)
  {
    PostedItemsMatchTotal(page.reservations);
  }
}
