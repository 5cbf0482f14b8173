/**
 * The booking engine: creating a priced booking, moving it along its lifecycle, the
 * farmer's confirmation of completed work, and the settlement that writes the payment,
 * the receipt number and the owner's earning.
 */
module BookingService {
  import opened Wrappers
  import opened Money
  import opened Text
  import opened Lifecycle
  import opened Receipts
  import opened Entities
  import opened Pricing
  import opened Store
  import opened PlatformService

  // ---------------------------------------------------------------- reads of the store

  /** `_has_conflict`: a booking of the same tractor that holds its slot overlaps [start, end). */
  predicate HasConflict(bookings: map<int, Booking>, tractorId: nat, start: int, end: int)
  {
    exists id :: id in bookings && bookings[id].tractorId == tractorId
      && bookings[id].status in ActiveStatuses
      && Overlaps(bookings[id].startTime, bookings[id].endTime, start, end)
  }

  /** The bookings in the pipeline statuses whose listing is in `pincode`. */
  function PipelineCount(bookings: map<int, Booking>, listings: map<int, Listing>, pincode: string): nat
  {
    |set id | id in bookings && bookings[id].status in PipelineStatuses
      && bookings[id].tractorId in listings && listings[bookings[id].tractorId].pincode == pincode|
  }

  /** `int(get_decimal("surge_threshold", Decimal("5")))`. */
  function SurgeThreshold(settings: map<string, string>): int
  {
    TruncateToInt(GetDecimal(settings, "surge_threshold", Dec(5, 0)))
  }

  /** `_surge_multiplier_for_pincode`, in hundredths. */
  function SurgeMultiplier(bookings: map<int, Booking>, listings: map<int, Listing>,
                           settings: map<string, string>, pincode: string): int
  {
    SurgeFor(PipelineCount(bookings, listings, pincode), SurgeThreshold(settings))
  }

  /** `get_decimal("commission_pct", Decimal("10"))`. */
  function CommissionPct(settings: map<string, string>): Dec
  {
    GetDecimal(settings, "commission_pct", Dec(10, 0))
  }

  /** With no threshold stored, surge needs more than five pipeline bookings in the pincode. */
  lemma DefaultSurgeThreshold(settings: map<string, string>)
    requires "surge_threshold" !in settings
    ensures SurgeThreshold(settings) == 5
  {
    GetDecimalAbsent(settings, "surge_threshold", Dec(5, 0));
    assert Pow10(0) == 1;
  }

  /** With no commission stored, the platform keeps 10%. */
  lemma DefaultCommission(settings: map<string, string>)
    requires "commission_pct" !in settings
    ensures CommissionPct(settings) == Dec(10, 0) && IsPercentage(CommissionPct(settings))
  {
    GetDecimalAbsent(settings, "commission_pct", Dec(10, 0));
  }

  // ---------------------------------------------------------------- lifecycle writes

  /** `booking.status = target` and the milestone of the target stamped with `now`. */
  function Stamp(b: Booking, t: Status, now: int): Booking
  {
    var moved := b.(status := t);
    match t
    case Accepted => moved.(acceptedAt := Some(now))
    case Cancelled => moved.(cancelledAt := Some(now))
    case EnRoute => moved.(enRouteAt := Some(now))
    case Working => moved.(startedAt := Some(now))
    case Completed => moved.(completedAt := Some(now))
    case _ => moved
  }

  /** The timestamp a booking holds for a milestone. */
  function MilestoneValue(b: Booking, m: Milestone): Option<int>
  {
    match m
    case AcceptedAt => b.acceptedAt
    case CancelledAt => b.cancelledAt
    case EnRouteAt => b.enRouteAt
    case StartedAt => b.startedAt
    case CompletedAt => b.completedAt
    case SettledBySettlement => b.paidAt
    case NoMilestone => None
  }

  /** The booking's terms: everything but its status and its milestones. */
  predicate SameTerms(a: Booking, b: Booking)
  {
    a.tractorId == b.tractorId && a.farmerId == b.farmerId && a.ownerId == b.ownerId
    && a.startTime == b.startTime && a.endTime == b.endTime && a.hours == b.hours
    && a.quotedRate == b.quotedRate && a.totalAmount == b.totalAmount && a.baseTotal == b.baseTotal
    && a.addonTotal == b.addonTotal && a.grandTotal == b.grandTotal && a.surge == b.surge
    && a.commissionPct == b.commissionPct && a.commission == b.commission && a.payout == b.payout
    && a.farmerConfirmedAt == b.farmerConfirmedAt && a.confirmedHours == b.confirmedHours
    && a.farmerNote == b.farmerNote
  }

  /**
   * A move writes the target's name into `status`, stamps the target's own milestone
   * and no other (a move to `paid` stamps none: settlement writes `paid_at`), and
   * leaves the booking's terms alone.
   */
  lemma StampTouchesOnlyItsMilestone(b: Booking, t: Status, now: int, m: Milestone)
    ensures Stamp(b, t, now).status == t
    ensures SameTerms(Stamp(b, t, now), b)
    ensures MilestoneValue(Stamp(b, t, now), m) ==
      if m == MilestoneOf(t) && m != SettledBySettlement && m != NoMilestone then Some(now) else MilestoneValue(b, m)
  {
  }

  /** The title of the notice the farmer receives for a move. */
  function FarmerNoticeTitle(t: Status): string
  {
    match t
    case Accepted => "Booking accepted"
    case Cancelled => "Booking cancelled"
    case EnRoute => "Tractor en route"
    case Working => "Work started"
    case Completed => "Work completed by owner"
    case Paid => "Payment successful"
    case _ => ""
  }

  // ---------------------------------------------------------------- invariant helpers

  /** Changing one booking's status (and stamps) keeps active bookings apart, unless it newly occupies a slot. */
  lemma StatusChangeKeepsNoOverlap(bookings: map<int, Booking>, id: nat, nb: Booking)
    requires NoOverlap(bookings) && id in bookings
    requires nb.tractorId == bookings[id].tractorId
    requires nb.startTime == bookings[id].startTime && nb.endTime == bookings[id].endTime
    requires nb.status in ActiveStatuses ==> bookings[id].status in ActiveStatuses
    ensures NoOverlap(bookings[id := nb])
  {
  }

  /** A new booking that passed the conflict check keeps active bookings apart. */
  lemma InsertKeepsNoOverlap(bookings: map<int, Booking>, id: nat, nb: Booking)
    requires NoOverlap(bookings) && id !in bookings
    requires !HasConflict(bookings, nb.tractorId, nb.startTime, nb.endTime)
    ensures NoOverlap(bookings[id := nb])
  {
    var after := bookings[id := nb];
    forall i, j | i in after && j in after && i != j
      && after[i].tractorId == after[j].tractorId
      && after[i].status in ActiveStatuses && after[j].status in ActiveStatuses
      ensures !Overlaps(after[i].startTime, after[i].endTime, after[j].startTime, after[j].endTime)
    {
      if i == id {
        OverlapFacts(nb.startTime, nb.endTime, after[j].startTime, after[j].endTime);
      }
    }
  }

  /** A valid booking stored under the next id keeps the rows of the bookings valid, with the counter moved on. */
  lemma InsertKeepsBookings(listings: map<int, Listing>, bookings: map<int, Booking>, nextId: nat, nb: Booking)
    requires BookingsValid(bookings, listings, nextId) && BookingValid(nb, listings)
    ensures BookingsValid(bookings[nextId := nb], listings, nextId + 1)
  {
  }

  /** A new unpaid booking under an unused id leaves the ledger's rules in force. */
  lemma InsertKeepsLedger(bookings: map<int, Booking>, payments: map<int, Payment>, earnings: map<int, Earning>,
                          receipts: set<string>, id: nat, nb: Booking)
    requires LedgerValid(bookings, payments, earnings, receipts) && id !in bookings && nb.status != Paid
    ensures LedgerValid(bookings[id := nb], payments, earnings, receipts)
  {
    assert id !in payments;
  }

  /** Adding a payment whose receipt is fresh keeps receipt numbers those of the payments, and unique. */
  lemma AddPaymentKeepsReceipts(payments: map<int, Payment>, receipts: set<string>, id: nat, p: Payment)
    requires receipts == ReceiptsOf(payments) && ReceiptsUnique(payments)
    requires id !in payments && p.receipt !in receipts
    ensures receipts + {p.receipt} == ReceiptsOf(payments[id := p])
    ensures ReceiptsUnique(payments[id := p])
  {
    var after := payments[id := p];
    forall r | r in ReceiptsOf(after) ensures r in receipts + {p.receipt} {
      var k :| k in after && after[k].receipt == r;
      if k != id {
        assert payments[k].receipt in ReceiptsOf(payments);
      }
    }
    forall r | r in receipts + {p.receipt} ensures r in ReceiptsOf(after) {
      if r == p.receipt {
        assert after[id].receipt == r;
      } else {
        var k :| k in payments && payments[k].receipt == r;
        assert after[k].receipt == r;
      }
    }
    forall i, j | i in after && j in after && i != j ensures after[i].receipt != after[j].receipt {
      if i == id {
        assert after[j].receipt in ReceiptsOf(payments);
      } else if j == id {
        assert after[i].receipt in ReceiptsOf(payments);
      }
    }
  }

  // ---------------------------------------------------------------- settlement

  /** Replacing one booking by a valid one keeps the rows of the bookings valid. */
  lemma ReplaceKeepsBookings(listings: map<int, Listing>, bookings: map<int, Booking>, nextId: nat, id: nat, nb: Booking)
    requires BookingsValid(bookings, listings, nextId) && id in bookings && BookingValid(nb, listings)
    ensures BookingsValid(bookings[id := nb], listings, nextId)
  {
  }

  /** The payment a fresh settlement writes: the next receipt of the day, the booking's total, farmer and tractor owner. */
  function NewPayment(listings: map<int, Listing>, bookings: map<int, Booking>, receipts: set<string>, id: nat, today: Date): Payment
    requires ValidDate(today) && id in bookings && bookings[id].tractorId in listings
  {
    var b := bookings[id];
    Payment(id, NextReceipt(receipts, today), b.totalAmount, b.farmerId, listings[b.tractorId].ownerId, Paid)
  }

  /** The earnings after a fresh settlement: one for the booking is added only if it has none. */
  function EarningsAfter(listings: map<int, Listing>, bookings: map<int, Booking>, earnings: map<int, Earning>, id: nat): map<int, Earning>
    requires id in bookings && bookings[id].tractorId in listings
  {
    var b := bookings[id];
    if id in earnings then earnings
    else earnings[id := Earning(listings[b.tractorId].ownerId, id, b.totalAmount, b.commission, b.totalAmount - b.commission)]
  }

  /** The preconditions of settling booking `id`, over the tables it reads and writes. */
  ghost predicate ReadyToSettle(listings: map<int, Listing>, bookings: map<int, Booking>, nextId: nat,
                                payments: map<int, Payment>, earnings: map<int, Earning>, receipts: set<string>, id: nat)
  {
    id in bookings && bookings[id].status in ActiveStatuses
    && BookingsValid(bookings, listings, nextId) && NoOverlap(bookings)
    && PaymentsMatch(bookings, payments) && PaidIffSettledExcept(bookings, payments, Some(id))
    && (id in payments ==> bookings[id].status == Paid)
    && ReceiptLedger(payments, receipts) && EarningsValid(bookings, earnings)
  }

  /** Recording a matching payment for a booking keeps every payment in agreement with its booking. */
  lemma PayKeepsPaymentsMatch(bookings: map<int, Booking>, payments: map<int, Payment>, id: nat, nb: Booking, p: Payment)
    requires PaymentsMatch(bookings, payments) && PaymentMatches(p, id, nb)
    ensures PaymentsMatch(bookings[id := nb], payments[id := p])
  {
  }

  /** Marking booking `id` paid together with its payment closes the one exception to "paid iff settled". */
  lemma PayClosesPaidIff(bookings: map<int, Booking>, payments: map<int, Payment>, id: nat, nb: Booking, p: Payment)
    requires PaidIffSettledExcept(bookings, payments, Some(id)) && nb.status == Paid
    ensures PaidIffSettledExcept(bookings[id := nb], payments[id := p], None)
  {
  }

  /** The earning a settlement may add belongs to its booking and nets the fee out of the gross. */
  lemma EarningsAfterValid(listings: map<int, Listing>, bookings: map<int, Booking>, earnings: map<int, Earning>,
                           id: nat, nb: Booking)
    requires EarningsValid(bookings, earnings) && id in bookings && bookings[id].tractorId in listings
    ensures EarningsValid(bookings[id := nb], EarningsAfter(listings, bookings, earnings, id))
  {
  }

  /** Settlement reads only the booking's farmer, tractor, total and commission: a status or stamp change does not alter it. */
  lemma SettleReadsTerms(listings: map<int, Listing>, bookings: map<int, Booking>, receipts: set<string>,
                         earnings: map<int, Earning>, id: nat, nb: Booking, today: Date)
    requires ValidDate(today) && id in bookings && bookings[id].tractorId in listings
    requires nb.tractorId == bookings[id].tractorId && nb.farmerId == bookings[id].farmerId
    requires nb.totalAmount == bookings[id].totalAmount && nb.commission == bookings[id].commission
    ensures NewPayment(listings, bookings[id := nb], receipts, id, today) == NewPayment(listings, bookings, receipts, id, today)
    ensures EarningsAfter(listings, bookings[id := nb], earnings, id) == EarningsAfter(listings, bookings, earnings, id)
  {
  }

  /** Two writes to the same booking leave only the second. */
  lemma OverwriteBooking(bookings: map<int, Booking>, id: nat, first: Booking, second: Booking)
    ensures bookings[id := first][id := second] == bookings[id := second]
  {
  }

  /**
   * A fresh settlement restores every rule of the ledger: the booking is paid and has its
   * payment, the new receipt number is unused and the day's numbering stays gapless, and
   * the earning (if added) nets the commission out of the total.
   */
  lemma FreshSettlementValid(listings: map<int, Listing>, bookings: map<int, Booking>, nextId: nat,
                             payments: map<int, Payment>, earnings: map<int, Earning>, receipts: set<string>,
                             id: nat, now: int, today: Date)
    requires ValidDate(today) && ReadyToSettle(listings, bookings, nextId, payments, earnings, receipts, id)
    requires id !in payments
    ensures var p := NewPayment(listings, bookings, receipts, id, today);
      var after := bookings[id := bookings[id].(status := Paid, paidAt := Some(now))];
      && p.receipt !in receipts
      && BookingsValid(after, listings, nextId) && NoOverlap(after)
      && LedgerValid(after, payments[id := p], EarningsAfter(listings, bookings, earnings, id), receipts + {p.receipt})
  {
    var b := bookings[id];
    var p := NewPayment(listings, bookings, receipts, id, today);
    var paid := b.(status := Paid, paidAt := Some(now));
    IssueFresh(receipts, today);
    StatusChangeKeepsNoOverlap(bookings, id, paid);
    AddPaymentKeepsReceipts(payments, receipts, id, p);
    assert BookingValid(paid, listings);
    ReplaceKeepsBookings(listings, bookings, nextId, id, paid);
    PayKeepsPaymentsMatch(bookings, payments, id, paid, p);
    PayClosesPaidIff(bookings, payments, id, paid, p);
    EarningsAfterValid(listings, bookings, earnings, id, paid);
  }

  /**
   * `_create_payment_for_booking`. An existing payment is returned and nothing changes.
   * Otherwise the booking is marked paid at `now`, a payment for its total is written
   * under the next receipt number of `today`, and an earning of the total less the
   * commission is added unless the booking already has one. FreshSettlementValid shows
   * that the fresh case restores the ledger's rules.
   */
  method Settle(db: Db, id: nat, now: int, today: Date) returns (p: Payment)
    requires ValidDate(today) && id in db.bookings && db.bookings[id].tractorId in db.listings
    modifies db`bookings, db`payments, db`earnings, db`receipts
    ensures old(id in db.payments) ==>
      p == old(db.payments[id]) && unchanged(db`bookings, db`payments, db`earnings, db`receipts)
    ensures !old(id in db.payments) ==>
      && p == NewPayment(old(db.listings), old(db.bookings), old(db.receipts), id, today)
      && db.bookings == old(db.bookings)[id := old(db.bookings[id]).(status := Paid, paidAt := Some(now))]
      && db.payments == old(db.payments)[id := p]
      && db.receipts == old(db.receipts) + {p.receipt}
      && db.earnings == EarningsAfter(old(db.listings), old(db.bookings), old(db.earnings), id)
  {
    if id in db.payments {
      p := db.payments[id];
      return;
    }
    var b := db.bookings[id];
    var receipt := NextReceipt(db.receipts, today);
    var owner := db.listings[b.tractorId].ownerId;
    p := Payment(id, receipt, b.totalAmount, b.farmerId, owner, Paid);
    db.bookings := db.bookings[id := b.(status := Paid, paidAt := Some(now))];
    var fee := b.commission;
    var net := b.totalAmount - fee;
    if id !in db.earnings {
      db.earnings := db.earnings[id := Earning(owner, id, b.totalAmount, fee, net)];
    }
    db.payments := db.payments[id := p];
    db.receipts := db.receipts + {receipt};
  }

  // ---------------------------------------------------------------- creating a booking

  /** The listing `create_booking` accepts: not offline, and a tractor (an empty type counts as one). */
  predicate Bookable(l: Listing)
  {
    l.availabilityStatus != "offline" && (if l.equipmentType == "" then "Tractor" else l.equipmentType) == "Tractor"
  }

  /** `start_time or now`. */
  function StartOf(startTime: Option<int>, now: int): int
  {
    match startTime
    case Some(t) => t
    case None => now
  }

  /**
   * The add-on loop of `create_booking`: visit the picks in order, keep the lines
   * PickRow accepts, and add up their totals.
   */
  method CollectAddons(listings: map<int, Listing>, ownerId: nat, hours: int, picks: seq<AddonPick>)
    returns (rows: seq<AddonRow>, total: int)
    ensures rows == AddonRows(listings, ownerId, hours, picks)
    ensures total == SumTotals(rows)
  {
    rows, total := [], 0;
    var i := 0;
    while i < |picks|
      invariant 0 <= i <= |picks|
      invariant rows == AddonRows(listings, ownerId, hours, picks[..i])
      invariant total == SumTotals(rows)
    {
      assert picks[..i + 1][..i] == picks[..i];
      match PickRow(listings, ownerId, hours, picks[i]) {
        case None =>
        case Some(row) =>
          assert (rows + [row])[..|rows|] == rows;
          rows := rows + [row];
          total := total + row.total;
      }
      i := i + 1;
    }
    assert picks[..i] == picks;
  }

  /** The new booking row for listing `l`: status `pending`, no milestone yet, the figures of quote `q` and the farmer's note as stored. */
  function Priced(l: Listing, farmerId: nat, tractorId: nat, hours: int, start: int, farmerNote: Option<string>, q: Quote): Booking
  {
    Booking(tractorId, farmerId, l.ownerId, Pending, start, SlotEnd(start, hours), hours,
            q.rate, q.total, q.base, q.addonTotal, q.total, q.surge, q.pct, q.commission, q.payout,
            None, None, None, None, None, None, None, None, farmerNote)
  }

  /** The `booking_addons` rows of booking `id`, one per add-on line, in order. */
  function AddonRecords(id: nat, rows: seq<AddonRow>): (records: seq<BookingAddon>)
    ensures |records| == |rows|
    ensures forall k :: 0 <= k < |rows| ==>
      records[k] == BookingAddon(id, rows[k].addonId, rows[k].quantity, rows[k].total)
  {
    if rows == [] then []
    else AddonRecords(id, rows[..|rows| - 1]) + [BookingAddon(id, rows[|rows| - 1].addonId, rows[|rows| - 1].quantity, rows[|rows| - 1].total)]
  }

  /** The notices of a new booking: the owner's request, and the farmer's surge alert when surge applied. */
  function CreationNotices(ownerId: nat, farmerId: nat, surge: int): seq<Notice>
  {
    [Notice(ownerId, "New booking request")] + (if surge > SurgeNormal then [Notice(farmerId, "Surge pricing alert")] else [])
  }

  /**
   * What `create_booking` answers: 409 for a missing, offline or non-tractor listing; 400
   * unless the hours are a positive integer (`int()` of the input, None when that raises);
   * 409 when an active booking of the tractor overlaps [start, start + hours). Otherwise
   * the pending booking priced by MakeQuote with the surge of the listing's pincode.
   */
  function CreateOutcome(listings: map<int, Listing>, bookings: map<int, Booking>, settings: map<string, string>,
                         farmerId: nat, tractorId: nat, hours: Option<int>, startTime: Option<int>,
                         note: Option<string>, picks: seq<AddonPick>, now: int): Result<Booking>
  {
    if tractorId !in listings || !Bookable(listings[tractorId]) then Failure(Conflict)
    else if hours.None? || hours.value <= 0 then Failure(BadRequest)
    else
      var start := StartOf(startTime, now);
      if HasConflict(bookings, tractorId, start, SlotEnd(start, hours.value)) then Failure(Conflict)
      else
        var l := listings[tractorId];
        var surge := SurgeMultiplier(bookings, listings, settings, l.pincode);
        var total := SumTotals(AddonRows(listings, l.ownerId, hours.value, picks));
        Success(Priced(l, farmerId, tractorId, hours.value, start, StripOrNone(note), MakeQuote(l.price, surge, hours.value, total, CommissionPct(settings))))
  }

  /**
   * `create_booking`: answers CreateOutcome. On success the booking is stored under the
   * next id with its add-on lines, and the owner (and, under surge, the farmer) is
   * notified; on failure nothing is written. CreatedKeepsValid shows that a valid store
   * stays valid.
   */
  method CreateBooking(db: Db, farmerId: nat, tractorId: nat, hours: Option<int>, startTime: Option<int>,
                       note: Option<string>, picks: seq<AddonPick>, now: int) returns (r: Result<Booking>)
    modifies db`bookings, db`nextBookingId, db`addons, db`outbox
    ensures r == CreateOutcome(old(db.listings), old(db.bookings), old(db.settings), farmerId, tractorId, hours, startTime, note, picks, now)
    ensures r.Failure? ==> unchanged(db`bookings, db`nextBookingId, db`addons, db`outbox)
    ensures r.Success? ==>
      && db.bookings == old(db.bookings)[old(db.nextBookingId) := r.value]
      && db.nextBookingId == old(db.nextBookingId) + 1
      && db.addons == old(db.addons) + AddonRecords(old(db.nextBookingId), AddonRows(old(db.listings), r.value.ownerId, r.value.hours, picks))
      && db.outbox == old(db.outbox) + CreationNotices(r.value.ownerId, farmerId, r.value.surge)
  {
    if tractorId !in db.listings || !Bookable(db.listings[tractorId]) {
      return Failure(Conflict);
    }
    var l := db.listings[tractorId];
    if hours.None? || hours.value <= 0 {
      return Failure(BadRequest);
    }
    var h := hours.value;
    var start := StartOf(startTime, now);
    var end := SlotEnd(start, h);
    if HasConflict(db.bookings, tractorId, start, end) {
      return Failure(Conflict);
    }
    var surge := SurgeMultiplier(db.bookings, db.listings, db.settings, l.pincode);
    var rows, addonTotal := CollectAddons(db.listings, l.ownerId, h, picks);
    var pct := CommissionPct(db.settings);
    var b := Priced(l, farmerId, tractorId, h, start, StripOrNone(note), MakeQuote(l.price, surge, h, addonTotal, pct));
    assert Success(b) == CreateOutcome(db.listings, db.bookings, db.settings, farmerId, tractorId, hours, startTime, note, picks, now);
    StoreBooking(db, b, rows, farmerId);
    r := Success(b);
  }

  /** The writes of a successful `create_booking`: the row under the next id, its add-on lines, and the notices. */
  method StoreBooking(db: Db, b: Booking, rows: seq<AddonRow>, farmerId: nat)
    modifies db`bookings, db`nextBookingId, db`addons, db`outbox
    ensures db.bookings == old(db.bookings)[old(db.nextBookingId) := b]
    ensures db.nextBookingId == old(db.nextBookingId) + 1
    ensures db.addons == old(db.addons) + AddonRecords(old(db.nextBookingId), rows)
    ensures db.outbox == old(db.outbox) + CreationNotices(b.ownerId, farmerId, b.surge)
  {
    var id := db.nextBookingId;
    db.bookings := db.bookings[id := b];
    db.nextBookingId := id + 1;
    db.addons := db.addons + AddonRecords(id, rows);
    db.outbox := db.outbox + CreationNotices(b.ownerId, farmerId, b.surge);
  }

  /** The row priced by a sound quote is pending, over the slot asked for, and its figures balance without going negative. */
  lemma PricedFigures(l: Listing, farmerId: nat, tractorId: nat, hours: int, start: int, note: Option<string>, q: Quote)
    requires Sound(q)
    ensures var b := Priced(l, farmerId, tractorId, hours, start, note, q);
      && b.tractorId == tractorId && b.ownerId == l.ownerId && b.status == Pending
      && b.hours == hours && b.startTime == start && b.endTime == SlotEnd(start, hours)
      && b.totalAmount == b.grandTotal == b.baseTotal + b.addonTotal && b.addonTotal == q.addonTotal
      && 0 <= b.commission <= b.totalAmount && b.payout == b.totalAmount - b.commission && b.payout >= 0
  {
  }

  /** The row priced by a sound quote for a stored listing is a valid booking of it. */
  lemma PricedValid(listings: map<int, Listing>, farmerId: nat, tractorId: nat, hours: int, start: int,
                    note: Option<string>, q: Quote)
    requires tractorId in listings && hours > 0 && Sound(q)
    ensures BookingValid(Priced(listings[tractorId], farmerId, tractorId, hours, start, note, q), listings)
  {
    PricedFigures(listings[tractorId], farmerId, tractorId, hours, start, note, q);
  }

  /** Storing a row priced by a sound quote that passed the conflict check under the next id keeps every rule of the booking tables. */
  lemma CreateKeepsValid(listings: map<int, Listing>, bookings: map<int, Booking>, nextId: nat,
                         payments: map<int, Payment>, earnings: map<int, Earning>, receipts: set<string>,
                         farmerId: nat, tractorId: nat, hours: int, start: int, note: Option<string>, q: Quote)
    requires BookingTablesValid(listings, bookings, nextId, payments, earnings, receipts)
    requires tractorId in listings && hours > 0 && Sound(q)
    requires !HasConflict(bookings, tractorId, start, SlotEnd(start, hours))
    ensures var b := Priced(listings[tractorId], farmerId, tractorId, hours, start, note, q);
      BookingTablesValid(listings, bookings[nextId := b], nextId + 1, payments, earnings, receipts)
  {
    PricedValid(listings, farmerId, tractorId, hours, start, note, q);
    InsertKeepsTables(listings, bookings, nextId, payments, earnings, receipts,
                      Priced(listings[tractorId], farmerId, tractorId, hours, start, note, q));
  }

  /**
   * Whatever `create_booking` accepts keeps a valid store valid: the booking it answers,
   * stored under the next id, leaves every rule of the booking tables in force (given a
   * commission setting between 0% and 100%).
   */
  lemma CreatedKeepsValid(listings: map<int, Listing>, nextListingId: nat, bookings: map<int, Booking>, nextId: nat,
                          payments: map<int, Payment>, earnings: map<int, Earning>, receipts: set<string>,
                          settings: map<string, string>, farmerId: nat, tractorId: nat, hours: Option<int>,
                          startTime: Option<int>, note: Option<string>, picks: seq<AddonPick>, now: int)
    requires ListingsValid(listings, nextListingId) && BookingTablesValid(listings, bookings, nextId, payments, earnings, receipts)
    requires IsPercentage(CommissionPct(settings))
    requires CreateOutcome(listings, bookings, settings, farmerId, tractorId, hours, startTime, note, picks, now).Success?
    ensures var b := CreateOutcome(listings, bookings, settings, farmerId, tractorId, hours, startTime, note, picks, now).value;
      BookingTablesValid(listings, bookings[nextId := b], nextId + 1, payments, earnings, receipts)
  {
    var l := listings[tractorId];
    var h := hours.value;
    var start := StartOf(startTime, now);
    var surge := SurgeMultiplier(bookings, listings, settings, l.pincode);
    var total := SumTotals(AddonRows(listings, l.ownerId, h, picks));
    ListingPricesPositive(listings, nextListingId);
    AddonTotalNonNegative(listings, l.ownerId, h, picks);
    MakeQuoteSound(l.price, surge, h, total, CommissionPct(settings));
    CreateKeepsValid(listings, bookings, nextId, payments, earnings, receipts, farmerId, tractorId, h, start, StripOrNone(note),
                     MakeQuote(l.price, surge, h, total, CommissionPct(settings)));
  }

  /** A valid, unpaid booking that passed the conflict check, stored under the next id, keeps the booking tables valid. */
  lemma InsertKeepsTables(listings: map<int, Listing>, bookings: map<int, Booking>, nextId: nat,
                          payments: map<int, Payment>, earnings: map<int, Earning>, receipts: set<string>, b: Booking)
    requires BookingTablesValid(listings, bookings, nextId, payments, earnings, receipts)
    requires BookingValid(b, listings) && b.status != Paid
    requires !HasConflict(bookings, b.tractorId, b.startTime, b.endTime)
    ensures BookingTablesValid(listings, bookings[nextId := b], nextId + 1, payments, earnings, receipts)
  {
    assert nextId !in bookings;
    InsertKeepsNoOverlap(bookings, nextId, b);
    InsertKeepsLedger(bookings, payments, earnings, receipts, nextId, b);
    InsertKeepsBookings(listings, bookings, nextId, b);
  }

  // ---------------------------------------------------------------- transitions

  /** An unpaid booking without a payment can change freely without breaking the ledger. */
  lemma ReplaceKeepsLedger(bookings: map<int, Booking>, payments: map<int, Payment>, earnings: map<int, Earning>,
                           receipts: set<string>, id: nat, nb: Booking)
    requires LedgerValid(bookings, payments, earnings, receipts) && id in bookings
    requires id !in payments && nb.status != Paid
    ensures LedgerValid(bookings[id := nb], payments, earnings, receipts)
  {
    var after := bookings[id := nb];
    assert PaymentsMatch(after, payments);
    assert PaidIffSettledExcept(after, payments, None);
    assert EarningsValid(after, earnings);
  }

  /** While booking `id` has no payment, it can change freely: the ledger holds except for its paid status. */
  lemma ReplaceKeepsLedgerExcept(bookings: map<int, Booking>, payments: map<int, Payment>, earnings: map<int, Earning>,
                                 receipts: set<string>, id: nat, nb: Booking)
    requires LedgerValid(bookings, payments, earnings, receipts) && id in bookings && id !in payments
    ensures PaymentsMatch(bookings[id := nb], payments)
    ensures PaidIffSettledExcept(bookings[id := nb], payments, Some(id))
    ensures EarningsValid(bookings[id := nb], earnings)
  {
  }

  /** Replacing an unpaid booking by a valid, unpaid one on the same slot keeps the booking tables valid. */
  lemma ReplaceKeepsTables(listings: map<int, Listing>, bookings: map<int, Booking>, nextId: nat,
                           payments: map<int, Payment>, earnings: map<int, Earning>, receipts: set<string>,
                           id: nat, nb: Booking)
    requires BookingTablesValid(listings, bookings, nextId, payments, earnings, receipts)
    requires id in bookings && id !in payments && BookingValid(nb, listings) && nb.status != Paid
    requires nb.tractorId == bookings[id].tractorId
    requires nb.startTime == bookings[id].startTime && nb.endTime == bookings[id].endTime
    requires nb.status in ActiveStatuses ==> bookings[id].status in ActiveStatuses
    ensures BookingTablesValid(listings, bookings[id := nb], nextId, payments, earnings, receipts)
  {
    ReplaceKeepsBookings(listings, bookings, nextId, id, nb);
    StatusChangeKeepsNoOverlap(bookings, id, nb);
    ReplaceKeepsLedger(bookings, payments, earnings, receipts, id, nb);
  }

  /** The stamped booking of a legal move keeps the booking's terms, slot and validity. */
  lemma StampedValid(listings: map<int, Listing>, b: Booking, target: string, now: int)
    requires BookingValid(b, listings) && CanMoveFrom(b.status, target)
    ensures var nb := Stamp(b, NormalizeTarget(target), now);
      && BookingValid(nb, listings) && b.status in ActiveStatuses && b.status != Paid
      && nb.tractorId == b.tractorId && nb.startTime == b.startTime && nb.endTime == b.endTime
      && (nb.status == Paid <==> NormalizeTarget(target) == Paid)
  {
    var t := NormalizeTarget(target);
    MovableStatus(b.status, t);
    StampTouchesOnlyItsMilestone(b, t, now, NoMilestone);
  }

  /** A move to a status other than `paid` keeps every rule of the booking tables. */
  lemma MoveKeepsValid(listings: map<int, Listing>, bookings: map<int, Booking>, nextId: nat,
                       payments: map<int, Payment>, earnings: map<int, Earning>, receipts: set<string>,
                       id: nat, target: string, now: int)
    requires BookingTablesValid(listings, bookings, nextId, payments, earnings, receipts)
    requires id in bookings && CanMoveFrom(bookings[id].status, target) && NormalizeTarget(target) != Paid
    ensures BookingTablesValid(listings, bookings[id := Stamp(bookings[id], NormalizeTarget(target), now)], nextId,
                               payments, earnings, receipts)
  {
    StampedValid(listings, bookings[id], target, now);
    ReplaceKeepsTables(listings, bookings, nextId, payments, earnings, receipts, id,
                       Stamp(bookings[id], NormalizeTarget(target), now));
  }

  /**
   * A legal move to `paid` from a valid state always settles afresh (a `completed`
   * booking has no payment yet) and leaves every rule of the booking tables in force.
   */
  lemma PayMoveKeepsValid(listings: map<int, Listing>, bookings: map<int, Booking>, nextId: nat,
                          payments: map<int, Payment>, earnings: map<int, Earning>, receipts: set<string>,
                          id: nat, target: string, now: int, today: Date)
    requires BookingTablesValid(listings, bookings, nextId, payments, earnings, receipts) && ValidDate(today)
    requires id in bookings && CanMoveFrom(bookings[id].status, target) && NormalizeTarget(target) == Paid
    ensures id !in payments && bookings[id].tractorId in listings
    ensures var p := NewPayment(listings, bookings, receipts, id, today);
      BookingTablesValid(listings, bookings[id := Stamp(bookings[id], Paid, now).(paidAt := Some(now))], nextId,
                         payments[id := p], EarningsAfter(listings, bookings, earnings, id), receipts + {p.receipt})
  {
    var b := bookings[id];
    MovableStatus(b.status, NormalizeTarget(target));
    CompletedReady(listings, bookings, nextId, payments, earnings, receipts, id);
    FreshSettlementValid(listings, bookings, nextId, payments, earnings, receipts, id, now, today);
    PaidStamp(b, now);
  }

  /** A completed booking of a valid state has no payment yet and is ready for a fresh settlement. */
  lemma CompletedReady(listings: map<int, Listing>, bookings: map<int, Booking>, nextId: nat,
                       payments: map<int, Payment>, earnings: map<int, Earning>, receipts: set<string>, id: nat)
    requires BookingTablesValid(listings, bookings, nextId, payments, earnings, receipts)
    requires id in bookings && bookings[id].status == Completed
    ensures id !in payments && bookings[id].tractorId in listings
    ensures ReadyToSettle(listings, bookings, nextId, payments, earnings, receipts, id)
  {
  }

  /** Stamping `paid` sets only the status; settlement then adds the paid time. */
  lemma PaidStamp(b: Booking, now: int)
    ensures Stamp(b, Paid, now).(paidAt := Some(now)) == b.(status := Paid, paidAt := Some(now))
  {
  }

  /**
   * `transition_booking`. A move outside the table fails with 400 and writes nothing.
   * Otherwise the status becomes the target and its milestone is stamped, and the farmer
   * is notified. A move to `paid` settles the booking (Settle) and also notifies the
   * tractor's owner. MoveKeepsValid and PayMoveKeepsValid show that a valid store stays valid.
   */
  method Transition(db: Db, id: nat, target: string, now: int, today: Date) returns (r: Result<Booking>)
    requires id in db.bookings && db.bookings[id].tractorId in db.listings && ValidDate(today)
    modifies db`bookings, db`payments, db`earnings, db`receipts, db`outbox
    ensures !CanMoveFrom(old(db.bookings[id].status), target) ==>
      r == Failure(BadRequest)
      && unchanged(db`bookings, db`payments, db`earnings, db`receipts, db`outbox)
    ensures CanMoveFrom(old(db.bookings[id].status), target) && NormalizeTarget(target) != Paid ==>
      var b := old(db.bookings[id]);
      var t := NormalizeTarget(target);
      && r == Success(Stamp(b, t, now))
      && db.bookings == old(db.bookings)[id := Stamp(b, t, now)]
      && unchanged(db`payments, db`earnings, db`receipts)
      && db.outbox == old(db.outbox) + [Notice(b.farmerId, FarmerNoticeTitle(t))]
    ensures CanMoveFrom(old(db.bookings[id].status), target) && NormalizeTarget(target) == Paid ==>
      var b := old(db.bookings[id]);
      db.outbox == old(db.outbox) + [Notice(b.farmerId, "Payment successful"), Notice(old(db.listings[b.tractorId].ownerId), "Payment received")]
    ensures CanMoveFrom(old(db.bookings[id].status), target) && NormalizeTarget(target) == Paid && old(id in db.payments) ==>
      var stamped := Stamp(old(db.bookings[id]), Paid, now);
      && r == Success(stamped)
      && db.bookings == old(db.bookings)[id := stamped]
      && unchanged(db`payments, db`earnings, db`receipts)
    ensures CanMoveFrom(old(db.bookings[id].status), target) && NormalizeTarget(target) == Paid && !old(id in db.payments) ==>
      var paid := Stamp(old(db.bookings[id]), Paid, now).(paidAt := Some(now));
      var p := NewPayment(old(db.listings), old(db.bookings), old(db.receipts), id, today);
      && r == Success(paid)
      && db.bookings == old(db.bookings)[id := paid]
      && db.payments == old(db.payments)[id := p]
      && db.receipts == old(db.receipts) + {p.receipt}
      && db.earnings == EarningsAfter(old(db.listings), old(db.bookings), old(db.earnings), id)
  {
    var b := db.bookings[id];
    if !CanMoveFrom(b.status, target) {
      return Failure(BadRequest);
    }
    var t := NormalizeTarget(target);
    var nb;
    if t == Paid {
      nb := MoveToPaid(db, id, now, today);
    } else {
      nb := MoveTo(db, id, t, now);
    }
    r := Success(nb);
  }

  /** The writes of a move to a status other than `paid`: the stamped booking, and the farmer's notice. */
  method MoveTo(db: Db, id: nat, t: Status, now: int) returns (nb: Booking)
    requires id in db.bookings
    modifies db`bookings, db`outbox
    ensures nb == Stamp(old(db.bookings[id]), t, now)
    ensures db.bookings == old(db.bookings)[id := nb]
    ensures db.outbox == old(db.outbox) + [Notice(old(db.bookings[id]).farmerId, FarmerNoticeTitle(t))]
  {
    var b := db.bookings[id];
    nb := Stamp(b, t, now);
    db.bookings := db.bookings[id := nb];
    db.outbox := db.outbox + [Notice(b.farmerId, FarmerNoticeTitle(t))];
  }

  /** The writes of a move to `paid`: the stamp, the settlement, and the farmer's and the owner's notices. */
  method MoveToPaid(db: Db, id: nat, now: int, today: Date) returns (nb: Booking)
    requires id in db.bookings && db.bookings[id].tractorId in db.listings && ValidDate(today)
    modifies db`bookings, db`payments, db`earnings, db`receipts, db`outbox
    ensures var b := old(db.bookings[id]);
      db.outbox == old(db.outbox) + [Notice(b.farmerId, "Payment successful"), Notice(old(db.listings[b.tractorId].ownerId), "Payment received")]
    ensures old(id in db.payments) ==>
      && nb == Stamp(old(db.bookings[id]), Paid, now)
      && db.bookings == old(db.bookings)[id := nb]
      && unchanged(db`payments, db`earnings, db`receipts)
    ensures !old(id in db.payments) ==>
      var p := NewPayment(old(db.listings), old(db.bookings), old(db.receipts), id, today);
      && nb == Stamp(old(db.bookings[id]), Paid, now).(paidAt := Some(now))
      && db.bookings == old(db.bookings)[id := nb]
      && db.payments == old(db.payments)[id := p]
      && db.receipts == old(db.receipts) + {p.receipt}
      && db.earnings == EarningsAfter(old(db.listings), old(db.bookings), old(db.earnings), id)
  {
    var b := db.bookings[id];
    db.bookings := db.bookings[id := Stamp(b, Paid, now)];
    ghost var mid := db.bookings;
    var payment := Settle(db, id, now, today);
    assert NewPayment(db.listings, mid, old(db.receipts), id, today) == NewPayment(db.listings, old(db.bookings), old(db.receipts), id, today);
    assert EarningsAfter(db.listings, mid, old(db.earnings), id) == EarningsAfter(db.listings, old(db.bookings), old(db.earnings), id);
    var owner := db.listings[b.tractorId].ownerId;
    Notify(db, [Notice(b.farmerId, "Payment successful"), Notice(owner, "Payment received")]);
    nb := db.bookings[id];
  }

  /** Queue notices, in order, after the ones already queued. */
  method Notify(db: Db, notices: seq<Notice>)
    modifies db`outbox
    ensures db.outbox == old(db.outbox) + notices
  {
    db.outbox := db.outbox + notices;
  }

  /** Recording the farmer's confirmation on a completed booking leaves it ready for a fresh settlement. */
  lemma ConfirmReady(listings: map<int, Listing>, bookings: map<int, Booking>, nextId: nat,
                     payments: map<int, Payment>, earnings: map<int, Earning>, receipts: set<string>,
                     id: nat, hours: Option<int>, now: int)
    requires BookingTablesValid(listings, bookings, nextId, payments, earnings, receipts)
    requires id in bookings && bookings[id].status == Completed
    ensures id !in payments
    ensures ReadyToSettle(listings, bookings[id := bookings[id].(confirmedHours := hours, farmerConfirmedAt := Some(now))],
                          nextId, payments, earnings, receipts, id)
  {
    var nb := bookings[id].(confirmedHours := hours, farmerConfirmedAt := Some(now));
    assert id !in payments;
    assert BookingValid(nb, listings);
    ReplaceKeepsBookings(listings, bookings, nextId, id, nb);
    StatusChangeKeepsNoOverlap(bookings, id, nb);
    ReplaceKeepsLedgerExcept(bookings, payments, earnings, receipts, id, nb);
  }

  /** The booking as the farmer's confirmation and the settlement leave it. */
  function Confirmed(b: Booking, hours: Option<int>, now: int): Booking
  {
    b.(confirmedHours := hours, farmerConfirmedAt := Some(now), status := Paid, paidAt := Some(now))
  }

  /**
   * Confirming a completed booking of a valid state always settles afresh and leaves
   * every rule of the booking tables in force.
   */
  lemma ConfirmKeepsValid(listings: map<int, Listing>, bookings: map<int, Booking>, nextId: nat,
                          payments: map<int, Payment>, earnings: map<int, Earning>, receipts: set<string>,
                          id: nat, hours: Option<int>, now: int, today: Date)
    requires BookingTablesValid(listings, bookings, nextId, payments, earnings, receipts) && ValidDate(today)
    requires id in bookings && bookings[id].status == Completed
    ensures id !in payments && bookings[id].tractorId in listings
    ensures var p := NewPayment(listings, bookings, receipts, id, today);
      BookingTablesValid(listings, bookings[id := Confirmed(bookings[id], hours, now)], nextId,
                         payments[id := p], EarningsAfter(listings, bookings, earnings, id), receipts + {p.receipt})
  {
    ConfirmReady(listings, bookings, nextId, payments, earnings, receipts, id, hours, now);
    var mid := bookings[id := bookings[id].(confirmedHours := hours, farmerConfirmedAt := Some(now))];
    FreshSettlementValid(listings, mid, nextId, payments, earnings, receipts, id, now, today);
    var confirmed := bookings[id].(confirmedHours := hours, farmerConfirmedAt := Some(now));
    SettleReadsTerms(listings, bookings, receipts, earnings, id, confirmed, today);
    OverwriteBooking(bookings, id, confirmed, Confirmed(bookings[id], hours, now));
  }

  /**
   * `farmer_confirm_completion`: 403 for another farmer, then 400 unless the stored status
   * is exactly `completed`, then 400 unless the hours are a positive integer (`int()` of
   * the input, None when that raises). On success the confirmed hours and time are
   * recorded, the booking is settled (Settle) and its owner notified. ConfirmKeepsValid
   * shows that a valid store stays valid.
   */
  method ConfirmCompletion(db: Db, id: nat, farmerId: nat, confirmedHours: Option<int>, now: int, today: Date)
    returns (r: Result<Payment>)
    requires id in db.bookings && db.bookings[id].tractorId in db.listings && ValidDate(today)
    modifies db`bookings, db`payments, db`earnings, db`receipts, db`outbox
    ensures r.Failure? ==> unchanged(db`bookings, db`payments, db`earnings, db`receipts, db`outbox)
    ensures var b := old(db.bookings[id]);
      if b.farmerId != farmerId then r == Failure(Forbidden)
      else if b.status != Completed then r == Failure(BadRequest)
      else if confirmedHours.None? || confirmedHours.value <= 0 then r == Failure(BadRequest)
      else r.Success? && db.outbox == old(db.outbox) + [Notice(b.ownerId, "Farmer confirmed completion")]
    ensures r.Success? && old(id in db.payments) ==>
      && r.value == old(db.payments[id])
      && db.bookings == old(db.bookings)[id := old(db.bookings[id]).(confirmedHours := confirmedHours, farmerConfirmedAt := Some(now))]
      && unchanged(db`payments, db`earnings, db`receipts)
    ensures r.Success? && !old(id in db.payments) ==>
      var p := NewPayment(old(db.listings), old(db.bookings), old(db.receipts), id, today);
      && r.value == p
      && db.bookings == old(db.bookings)[id := Confirmed(old(db.bookings[id]), confirmedHours, now)]
      && db.payments == old(db.payments)[id := p]
      && db.receipts == old(db.receipts) + {p.receipt}
      && db.earnings == EarningsAfter(old(db.listings), old(db.bookings), old(db.earnings), id)
  {
    var b := db.bookings[id];
    if b.farmerId != farmerId {
      return Failure(Forbidden);
    }
    if b.status != Completed {
      return Failure(BadRequest);
    }
    if confirmedHours.None? || confirmedHours.value <= 0 {
      return Failure(BadRequest);
    }
    db.bookings := db.bookings[id := b.(confirmedHours := confirmedHours, farmerConfirmedAt := Some(now))];
    ghost var mid := db.bookings;
    var p := Settle(db, id, now, today);
    assert NewPayment(db.listings, mid, old(db.receipts), id, today) == NewPayment(db.listings, old(db.bookings), old(db.receipts), id, today);
    assert EarningsAfter(db.listings, mid, old(db.earnings), id) == EarningsAfter(db.listings, old(db.bookings), old(db.earnings), id);
    db.outbox := db.outbox + [Notice(b.ownerId, "Farmer confirmed completion")];
    r := Success(p);
  }
}
