/**
 * `/api/services/seller` and `/api/services/admin`: the fetched services split into
 * those awaiting approval and those approved.
 */
module ServiceApproval {
  import opened Wrappers
  import opened JsText
  import Seqs

  /** The columns of a service row the two routes consult or pass through. */
  datatype Service = Service(id: int, sellerId: int, name: string, isApproved: bool, isRejected: bool)

  predicate Pending(s: Service)
  {
    !s.isApproved
  }

  predicate Approved(s: Service)
  {
    s.isApproved
  }

  /** The response body of both routes. */
  datatype Split = Split(pending: seq<Service>, approved: seq<Service>)

  /** The two `filter` calls over the fetched list. */
  function Partition(services: seq<Service>): Split
  {
    Split(Seqs.Filter(services, Pending), Seqs.Filter(services, Approved))
  }

  /**
   * `pending` holds exactly the unapproved services and `approved` exactly the
   * approved ones; no service is in both, and together they hold every fetched
   * service as many times as it was fetched, each list in fetched order.
   */
  lemma PartitionMeaning(services: seq<Service>, s: Service)
    ensures s in Partition(services).pending <==> s in services && !s.isApproved
    ensures s in Partition(services).approved <==> s in services && s.isApproved
    ensures !(s in Partition(services).pending && s in Partition(services).approved)
    ensures multiset(Partition(services).pending) + multiset(Partition(services).approved) == multiset(services)
    ensures |Partition(services).pending| + |Partition(services).approved| == |services|
    ensures Seqs.IsSubsequence(Partition(services).pending, services)
    ensures Seqs.IsSubsequence(Partition(services).approved, services)
  {
    Seqs.FilterMembership(services, Pending, s);
    Seqs.FilterMembership(services, Approved, s);
    Seqs.FilterPartition(services, Approved, Pending);
    Seqs.FilterIsSubsequence(services, Pending);
    Seqs.FilterIsSubsequence(services, Approved);
  }

  /** A rejected service is listed as pending, since `isRejected` is never consulted. */
  lemma RejectedIsPending(services: seq<Service>, s: Service)
    requires s in services && s.isRejected && !s.isApproved
    ensures s in Partition(services).pending
    ensures s !in Partition(services).approved
  {
    Seqs.FilterMembership(services, Pending, s);
    Seqs.FilterMembership(services, Approved, s);
  }

  datatype Response =
    | SellerIdRequired   // 400
    | FetchError         // 500
    | Listing(split: Split)  // 200

  /** The rows of one seller, as the store's `where` selects them. */
  function OfSeller(all: seq<Service>, sellerId: int): seq<Service>
  {
    Seqs.Filter(all, BySeller(sellerId))
  }

  function BySeller(sellerId: int): Service -> bool
  {
    (s: Service) => s.sellerId == sellerId
  }

  /**
   * `GET /api/services/seller?sellerId=`: 400 when the parameter is missing or
   * empty; otherwise the seller's services split. An id that `parseInt` reads as NaN
   * is refused by the store, which gives 500 like any other store error.
   */
  function SellerServices(sellerId: Option<string>, all: seq<Service>, storeFails: bool): (r: Response)
    ensures r == SellerIdRequired <==> sellerId.None? || sellerId.value == ""
    ensures r.Listing? ==>
      exists n :: ParseInt(sellerId.value) == Some(n) && r.split == Partition(OfSeller(all, n))
    ensures sellerId.Some? && sellerId.value != "" && storeFails ==> r == FetchError
    ensures sellerId.Some? && sellerId.value != "" && ParseInt(sellerId.value).None? ==> r == FetchError
    ensures sellerId.Some? && sellerId.value != "" && !storeFails && ParseInt(sellerId.value).Some? ==>
      r == Listing(Partition(OfSeller(all, ParseInt(sellerId.value).value)))
  {
    if sellerId.None? || sellerId.value == "" then SellerIdRequired
    else
      match ParseInt(sellerId.value)
      case None => FetchError
      case Some(n) => if storeFails then FetchError else Listing(Partition(OfSeller(all, n)))
  }

  /** Every service a seller listing shows belongs to that seller. */
  lemma SellerListingIsTheirs(sellerId: string, all: seq<Service>, n: int, s: Service)
    requires ParseInt(sellerId) == Some(n)
    ensures SellerServices(Some(sellerId), all, false) == Listing(Partition(OfSeller(all, n)))
    ensures var split := SellerServices(Some(sellerId), all, false).split;
      s in split.pending || s in split.approved <==> s in all && s.sellerId == n
  {
    var mine := OfSeller(all, n);
    Seqs.FilterMembership(all, BySeller(n), s);
    PartitionMeaning(mine, s);
  }

  /** `GET /api/services/admin`: every service, unfiltered, split. */
  function AdminServices(all: seq<Service>, storeFails: bool): (r: Response)
    ensures storeFails <==> r == FetchError
    ensures !storeFails ==> r == Listing(Partition(all))
  {
    if storeFails then FetchError else Listing(Partition(all))
  }
}
