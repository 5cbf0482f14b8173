/**
 * The database as one object: each table is a field, keyed by its primary key (a
 * payment and an earning by their unique booking id). `Valid` collects the integrity
 * rules that the services keep.
 */
module Store {
  import opened Wrappers
  import opened Money
  import opened Text
  import opened Lifecycle
  import opened Receipts
  import opened Entities

  /** `TractorService.EQUIPMENT_TYPES`. */
  const EquipmentTypes: set<string> := {"Tractor", "Rotavator", "Harvester", "Seeder", "Sprayer", "Plough"}

  /** `TractorService.AVAILABILITY_STATUSES`. */
  const AvailabilityStatuses: set<string> := {"available", "busy", "offline"}

  /** A listing as `create_tractor` writes it and the availability setters keep it. */
  predicate ListingValid(l: Listing)
  {
    l.isAvailable == (l.availabilityStatus != "offline")
    && l.availabilityStatus in AvailabilityStatuses
    && l.equipmentType in EquipmentTypes
    && |l.pincode| == 6 && IsDigits(l.pincode)
    && l.price.units > 0
  }

  predicate ListingsValid(listings: map<int, Listing>, nextId: nat)
  {
    forall id :: id in listings ==> id < nextId && ListingValid(listings[id])
  }

  /** No listing has a negative price. */
  predicate PricesNonNegative(listings: map<int, Listing>)
  {
    forall id :: id in listings ==> listings[id].price.units >= 0
  }

  lemma ListingPricesPositive(listings: map<int, Listing>, nextId: nat)
    requires ListingsValid(listings, nextId)
    ensures PricesNonNegative(listings)
  {
  }

  /** A booking's window, its money figures and its link to its listing, as `create_booking` writes them. */
  predicate BookingValid(b: Booking, listings: map<int, Listing>)
  {
    b.hours > 0 && b.endTime == SlotEnd(b.startTime, b.hours)
    && b.totalAmount == b.grandTotal && b.grandTotal == b.baseTotal + b.addonTotal
    && 0 <= b.commission <= b.totalAmount && b.payout == b.totalAmount - b.commission
    && b.status != Unknown
    && b.tractorId in listings && listings[b.tractorId].ownerId == b.ownerId
  }

  predicate BookingsValid(bookings: map<int, Booking>, listings: map<int, Listing>, nextId: nat)
  {
    forall id :: id in bookings ==> id < nextId && BookingValid(bookings[id], listings)
  }

  /** No two bookings that hold the same tractor's slot overlap in time. */
  predicate NoOverlap(bookings: map<int, Booking>)
  {
    forall i, j :: i in bookings && j in bookings && i != j
      && bookings[i].tractorId == bookings[j].tractorId
      && bookings[i].status in ActiveStatuses && bookings[j].status in ActiveStatuses
      ==> !Overlaps(bookings[i].startTime, bookings[i].endTime, bookings[j].startTime, bookings[j].endTime)
  }

  /** A payment row agrees with the booking it settles. */
  predicate PaymentMatches(p: Payment, id: nat, b: Booking)
  {
    p.bookingId == id && p.amount == b.totalAmount && p.farmerId == b.farmerId
    && p.ownerId == b.ownerId && p.status == Paid
  }

  /** The receipt numbers held by the payments. */
  function ReceiptsOf(payments: map<int, Payment>): set<string>
  {
    set id | id in payments :: payments[id].receipt
  }

  /** Every payment belongs to a booking and agrees with it. */
  predicate PaymentsMatch(bookings: map<int, Booking>, payments: map<int, Payment>)
  {
    forall id :: id in payments ==> id in bookings && PaymentMatches(payments[id], id, bookings[id])
  }

  /** A booking is paid exactly when it has a payment, except possibly booking `x` (mid-settlement). */
  predicate PaidIffSettledExcept(bookings: map<int, Booking>, payments: map<int, Payment>, x: Option<nat>)
  {
    forall id :: id in bookings && Some(id) != x ==> (bookings[id].status == Paid <==> id in payments)
  }

  /** No two payments share a receipt number. */
  predicate ReceiptsUnique(payments: map<int, Payment>)
  {
    forall i, j :: i in payments && j in payments && i != j ==> payments[i].receipt != payments[j].receipt
  }

  /** The issued receipt numbers are those of the payments, numbered without gaps day by day. */
  ghost predicate ReceiptLedger(payments: map<int, Payment>, receipts: set<string>)
  {
    receipts == ReceiptsOf(payments) && ReceiptsUnique(payments) && Dense(receipts)
  }

  /** Every earning belongs to a booking, and its net is its gross less the platform fee. */
  predicate EarningsValid(bookings: map<int, Booking>, earnings: map<int, Earning>)
  {
    forall id :: id in earnings ==>
      id in bookings && earnings[id].bookingId == id && earnings[id].net == earnings[id].gross - earnings[id].fee
  }

  /** The money ledger: payments, receipts and earnings agree with the bookings. */
  ghost predicate LedgerValid(bookings: map<int, Booking>, payments: map<int, Payment>,
                              earnings: map<int, Earning>, receipts: set<string>)
  {
    PaymentsMatch(bookings, payments) && PaidIffSettledExcept(bookings, payments, None)
    && ReceiptLedger(payments, receipts) && EarningsValid(bookings, earnings)
  }

  /** The tables a booking's moves and its settlement touch satisfy their rules. */
  ghost predicate BookingTablesValid(listings: map<int, Listing>, bookings: map<int, Booking>, nextId: nat,
                                     payments: map<int, Payment>, earnings: map<int, Earning>, receipts: set<string>)
  {
    BookingsValid(bookings, listings, nextId) && NoOverlap(bookings) && LedgerValid(bookings, payments, earnings, receipts)
  }

  /** The number of reviews of a listing. */
  function CountFor(reviews: seq<Review>, tractorId: int): (n: nat)
    ensures n <= |reviews|
  {
    if reviews == [] then 0
    else CountFor(reviews[..|reviews| - 1], tractorId) + (if reviews[|reviews| - 1].tractorId == tractorId then 1 else 0)
  }

  /** A listing no review names has a count of nothing. */
  lemma {:induction false} CountForAbsent(reviews: seq<Review>, tractorId: int)
    requires forall i :: 0 <= i < |reviews| ==> reviews[i].tractorId != tractorId
    ensures CountFor(reviews, tractorId) == 0
  {
    if reviews != [] {
      CountForAbsent(reviews[..|reviews| - 1], tractorId);
    }
  }

  /** Every review rates 1 to 5 and names a stored listing. */
  predicate ReviewRowsValid(reviews: seq<Review>, listings: map<int, Listing>)
  {
    forall i :: 0 <= i < |reviews| ==> 1 <= reviews[i].rating <= 5 && reviews[i].tractorId in listings
  }

  /** No two reviews share a (listing, farmer) pair: the table's unique constraint. */
  predicate PairsUnique(reviews: seq<Review>)
  {
    forall i, j :: 0 <= i < j < |reviews| ==>
      (reviews[i].tractorId, reviews[i].farmerId) != (reviews[j].tractorId, reviews[j].farmerId)
  }

  /** One review per (listing, farmer), each rating 1 to 5, and every listing's count up to date. */
  predicate ReviewsValid(reviews: seq<Review>, listings: map<int, Listing>)
  {
    ReviewRowsValid(reviews, listings) && PairsUnique(reviews)
    && (forall id :: id in listings ==> listings[id].ratingCount == CountFor(reviews, id))
  }

  /** The user is a farmer, whatever the case of the stored role. */
  predicate IsFarmer(u: User)
  {
    Lower(u.role) == "farmer"
  }

  /** E-mail addresses are unique, and so are the phone numbers of farmers. */
  predicate UsersValid(users: map<int, User>, nextId: nat)
  {
    (forall id :: id in users ==> id < nextId)
    && (forall i, j :: i in users && j in users && i != j ==> users[i].email != users[j].email)
    && (forall i, j :: i in users && j in users && i != j && IsFarmer(users[i]) && IsFarmer(users[j])
          ==> users[i].phone != users[j].phone)
  }

  class Db {
    var listings: map<int, Listing>
    var nextListingId: nat
    var bookings: map<int, Booking>
    var nextBookingId: nat
    var addons: seq<BookingAddon>
    var payments: map<int, Payment>
    var earnings: map<int, Earning>
    var receipts: set<string>
    var reviews: seq<Review>
    var users: map<int, User>
    var nextUserId: nat
    var messages: seq<ChatMessage>
    var settings: map<string, string>
    var outbox: seq<Notice>

    ghost predicate Valid()
      reads this
    {
      ListingsValid(listings, nextListingId)
      && BookingTablesValid(listings, bookings, nextBookingId, payments, earnings, receipts)
      && ReviewsValid(reviews, listings)
      && UsersValid(users, nextUserId)
    }

    /** An empty database. */
    constructor()
      ensures Valid()
      ensures listings == map[] && bookings == map[] && payments == map[] && earnings == map[]
      ensures receipts == {} && reviews == [] && users == map[] && messages == [] && settings == map[]
      ensures addons == [] && outbox == []
    {
      listings, nextListingId := map[], 1;
      bookings, nextBookingId := map[], 1;
      addons := [];
      payments, earnings, receipts := map[], map[], {};
      reviews := [];
      users, nextUserId := map[], 1;
      messages := [];
      settings := map[];
      outbox := [];
      DenseEmpty();
    }
  }
}
