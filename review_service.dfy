/**
 * Reviews: a farmer rates a listing once they have confirmed a finished booking on it;
 * a second review by the same farmer replaces the first, and the listing's review count
 * is recomputed from the table.
 */
module ReviewService {
  import opened Wrappers
  import opened Text
  import opened Lifecycle
  import opened Entities
  import opened Store
  import BookingService

  /** The review gate: a booking of this farmer on this listing, finished (completed or paid) and confirmed by the farmer. */
  predicate Eligible(bookings: map<int, Booking>, tractorId: nat, farmerId: nat)
  {
    exists id :: id in bookings && Unlocks(bookings[id], tractorId, farmerId)
  }

  /** One booking that opens the gate. */
  predicate Unlocks(b: Booking, tractorId: nat, farmerId: nat)
  {
    b.tractorId == tractorId && b.farmerId == farmerId
    && (b.status == Completed || b.status == Paid) && b.farmerConfirmedAt.Some?
  }

  /** The review is the given farmer's review of the given listing. */
  predicate SamePair(r: Review, tractorId: nat, farmerId: nat)
  {
    r.tractorId == tractorId && r.farmerId == farmerId
  }

  /** The first review of the (listing, farmer) pair, by position; None when there is none. */
  function FindReview(reviews: seq<Review>, tractorId: nat, farmerId: nat): (found: Option<nat>)
    ensures found.Some? ==>
      found.value < |reviews| && reviews[found.value].tractorId == tractorId && reviews[found.value].farmerId == farmerId
    ensures found.Some? ==> forall j :: 0 <= j < found.value ==> !SamePair(reviews[j], tractorId, farmerId)
    ensures found.None? <==> forall i :: 0 <= i < |reviews| ==> !SamePair(reviews[i], tractorId, farmerId)
  {
    if reviews == [] then None
    else
      var last := |reviews| - 1;
      match FindReview(reviews[..last], tractorId, farmerId)
      case Some(i) => Some(i)
      case None =>
        if reviews[last].tractorId == tractorId && reviews[last].farmerId == farmerId then Some(last) else None
  }

  /** The review table after `upsert_review` writes `written`: the pair's review rewritten in place, or a new one appended. */
  function Upserted(reviews: seq<Review>, written: Review): seq<Review>
  {
    match FindReview(reviews, written.tractorId, written.farmerId)
    case Some(i) => reviews[i := written]
    case None => reviews + [written]
  }

  /** Rewriting a review in place, on the same listing, leaves every listing's count as it was. */
  lemma {:induction false} CountForReplace(reviews: seq<Review>, i: nat, r: Review, tractorId: int)
    requires i < |reviews| && reviews[i].tractorId == r.tractorId
    ensures CountFor(reviews[i := r], tractorId) == CountFor(reviews, tractorId)
    decreases |reviews|
  {
    var last := |reviews| - 1;
    var after := reviews[i := r];
    if i < last {
      assert after[..last] == reviews[..last][i := r];
      CountForReplace(reviews[..last], i, r, tractorId);
    } else {
      assert after[..last] == reviews[..last];
    }
  }

  /** Appending a review adds one to its listing's count and nothing to any other. */
  lemma CountForAppend(reviews: seq<Review>, r: Review, tractorId: int)
    ensures CountFor(reviews + [r], tractorId) == CountFor(reviews, tractorId) + (if r.tractorId == tractorId then 1 else 0)
  {
    assert (reviews + [r])[..|reviews|] == reviews;
  }

  /**
   * The upsert leaves `written` as the pair's review, and adds a row only when the pair
   * had none.
   */
  lemma UpsertStores(reviews: seq<Review>, written: Review)
    ensures var after := Upserted(reviews, written);
      && FindReview(after, written.tractorId, written.farmerId).Some?
      && after[FindReview(after, written.tractorId, written.farmerId).value] == written
      && |after| == |reviews| + (if FindReview(reviews, written.tractorId, written.farmerId).None? then 1 else 0)
  {
    match FindReview(reviews, written.tractorId, written.farmerId)
    case Some(i) => RewriteFound(reviews, i, written);
    case None => AppendFound(reviews, written);
  }

  /** Rewriting the pair's first review in place leaves it the first one FindReview sees. */
  lemma RewriteFound(reviews: seq<Review>, i: nat, written: Review)
    requires FindReview(reviews, written.tractorId, written.farmerId) == Some(i)
    ensures FindReview(reviews[i := written], written.tractorId, written.farmerId) == Some(i)
  {
    var after := reviews[i := written];
    assert after[..i] == reviews[..i];
    FindFirstAt(after, written.tractorId, written.farmerId, i);
  }

  /** An appended review of a pair that had none is the one FindReview sees. */
  lemma AppendFound(reviews: seq<Review>, written: Review)
    requires FindReview(reviews, written.tractorId, written.farmerId).None?
    ensures FindReview(reviews + [written], written.tractorId, written.farmerId) == Some(|reviews|)
  {
    assert (reviews + [written])[..|reviews|] == reviews;
  }

  /** The upsert leaves every review of another (listing, farmer) pair where it was. */
  lemma UpsertKeepsOthers(reviews: seq<Review>, written: Review)
    ensures var after := Upserted(reviews, written);
      forall i :: 0 <= i < |reviews| && !SamePair(reviews[i], written.tractorId, written.farmerId) ==> after[i] == reviews[i]
  {
    var after := Upserted(reviews, written);
    match FindReview(reviews, written.tractorId, written.farmerId)
    case Some(i) =>
      assert after == reviews[i := written];
    case None =>
      assert after == reviews + [written];
      forall j | 0 <= j < |reviews|
        ensures after[j] == reviews[j]
      {
      }
  }

  /** The listing's count goes up by one exactly when the pair had no review; no other listing's count moves. */
  lemma UpsertCounts(reviews: seq<Review>, written: Review, other: int)
    ensures var after := Upserted(reviews, written);
      && CountFor(after, written.tractorId) == CountFor(reviews, written.tractorId)
           + (if FindReview(reviews, written.tractorId, written.farmerId).None? then 1 else 0)
      && (other != written.tractorId ==> CountFor(after, other) == CountFor(reviews, other))
  {
    match FindReview(reviews, written.tractorId, written.farmerId)
    case Some(i) =>
      CountForReplace(reviews, i, written, written.tractorId);
      CountForReplace(reviews, i, written, other);
    case None =>
      CountForAppend(reviews, written, written.tractorId);
      CountForAppend(reviews, written, other);
  }

  /** When no review before position `i` belongs to the pair and the one at `i` does, FindReview gives `i`. */
  lemma {:induction false} FindFirstAt(reviews: seq<Review>, tractorId: nat, farmerId: nat, i: nat)
    requires i < |reviews| && reviews[i].tractorId == tractorId && reviews[i].farmerId == farmerId
    requires FindReview(reviews[..i], tractorId, farmerId).None?
    ensures FindReview(reviews, tractorId, farmerId) == Some(i)
    decreases |reviews|
  {
    var last := |reviews| - 1;
    if i < last {
      assert reviews[..last][..i] == reviews[..i];
      FindFirstAt(reviews[..last], tractorId, farmerId, i);
    } else {
      assert reviews[..last] == reviews[..i];
    }
  }

  /** The listings after the upsert: the reviewed listing's count is recomputed from the review table. */
  function Recounted(listings: map<int, Listing>, reviews: seq<Review>, tractorId: nat): (after: map<int, Listing>)
    requires tractorId in listings
    ensures after.Keys == listings.Keys && after[tractorId].ratingCount == CountFor(reviews, tractorId)
    ensures forall id :: id in listings && id != tractorId ==> after[id] == listings[id]
    ensures after[tractorId] == listings[tractorId].(ratingCount := after[tractorId].ratingCount)
  {
    listings[tractorId := listings[tractorId].(ratingCount := CountFor(reviews, tractorId))]
  }

  /**
   * `upsert_review`: 400 unless the rating is a whole number from 1 to 5, then 404 for an
   * unknown listing, then 403 unless the farmer has a confirmed finished booking on it;
   * otherwise the pair's review is written, with the comment trimmed (an empty one stored
   * as none), and the listing's count recomputed.
   */
  method UpsertReview(db: Db, tractorId: nat, farmerId: nat, rating: Option<int>, comment: Option<string>)
    returns (r: Result<Review>)
    modifies db`reviews, db`listings
    ensures r.Failure? ==> unchanged(db`reviews, db`listings)
    ensures rating.None? || rating.value < 1 || rating.value > 5 ==> r == Failure(BadRequest)
    ensures rating.Some? && 1 <= rating.value <= 5 ==>
      if tractorId !in old(db.listings) then r == Failure(NotFound)
      else if !Eligible(old(db.bookings), tractorId, farmerId) then r == Failure(Forbidden)
      else
        && r == Success(Review(tractorId, farmerId, rating.value, StripOrNone(comment)))
        && db.reviews == Upserted(old(db.reviews), r.value)
        && db.listings == Recounted(old(db.listings), db.reviews, tractorId)
  {
    if rating.None? || rating.value < 1 || rating.value > 5 {
      return Failure(BadRequest);
    }
    if tractorId !in db.listings {
      return Failure(NotFound);
    }
    if !Eligible(db.bookings, tractorId, farmerId) {
      return Failure(Forbidden);
    }
    var written := Review(tractorId, farmerId, rating.value, StripOrNone(comment));
    StoreReview(db, written);
    r := Success(written);
  }

  /** The writes of a review: the upsert into the table, then the listing's recount. */
  method StoreReview(db: Db, written: Review)
    requires written.tractorId in db.listings
    modifies db`reviews, db`listings
    ensures db.reviews == Upserted(old(db.reviews), written)
    ensures db.listings == Recounted(old(db.listings), db.reviews, written.tractorId)
  {
    db.reviews := Upserted(db.reviews, written);
    db.listings := Recounted(db.listings, db.reviews, written.tractorId);
  }

  /** Rewriting a row with an in-range review keeps every row in range. */
  lemma ReplaceKeepsRows(reviews: seq<Review>, listings: map<int, Listing>, i: nat, written: Review)
    requires ReviewRowsValid(reviews, listings) && i < |reviews|
    requires 1 <= written.rating <= 5 && written.tractorId in listings
    ensures ReviewRowsValid(reviews[i := written], listings)
  {
  }

  /** Appending an in-range review keeps every row in range. */
  lemma AppendKeepsRows(reviews: seq<Review>, listings: map<int, Listing>, written: Review)
    requires ReviewRowsValid(reviews, listings)
    requires 1 <= written.rating <= 5 && written.tractorId in listings
    ensures ReviewRowsValid(reviews + [written], listings)
  {
  }

  /** Rewriting a row with a review of the same pair keeps the pairs unique. */
  lemma ReplaceKeepsPairs(reviews: seq<Review>, i: nat, written: Review)
    requires PairsUnique(reviews) && i < |reviews|
    requires written.tractorId == reviews[i].tractorId && written.farmerId == reviews[i].farmerId
    ensures PairsUnique(reviews[i := written])
  {
    var after := reviews[i := written];
    forall j, k | 0 <= j < k < |after|
      ensures (after[j].tractorId, after[j].farmerId) != (after[k].tractorId, after[k].farmerId)
    {
      assert (after[j].tractorId, after[j].farmerId) == (reviews[j].tractorId, reviews[j].farmerId);
      assert (after[k].tractorId, after[k].farmerId) == (reviews[k].tractorId, reviews[k].farmerId);
    }
  }

  /** Appending a review of a pair the table does not hold keeps the pairs unique. */
  lemma AppendKeepsPairs(reviews: seq<Review>, written: Review)
    requires PairsUnique(reviews)
    requires forall i :: 0 <= i < |reviews| ==> !SamePair(reviews[i], written.tractorId, written.farmerId)
    ensures PairsUnique(reviews + [written])
  {
    var after := reviews + [written];
    forall j, k | 0 <= j < k < |after|
      ensures (after[j].tractorId, after[j].farmerId) != (after[k].tractorId, after[k].farmerId)
    {
      if k == |reviews| {
        assert !SamePair(reviews[j], written.tractorId, written.farmerId);
      }
    }
  }

  /** The upsert writes a rating of 1 to 5 on a stored listing, so every row stays in range. */
  lemma UpsertKeepsRows(reviews: seq<Review>, listings: map<int, Listing>, written: Review)
    requires ReviewRowsValid(reviews, listings) && written.tractorId in listings && 1 <= written.rating <= 5
    ensures ReviewRowsValid(Upserted(reviews, written), listings)
  {
    var found := FindReview(reviews, written.tractorId, written.farmerId);
    if found.Some? {
      ReplaceKeepsRows(reviews, listings, found.value, written);
    } else {
      AppendKeepsRows(reviews, listings, written);
    }
  }

  /** The upsert never makes a second review of a pair: it rewrites the pair's review, or appends one when there is none. */
  lemma UpsertKeepsPairsUnique(reviews: seq<Review>, written: Review)
    requires PairsUnique(reviews)
    ensures PairsUnique(Upserted(reviews, written))
  {
    var found := FindReview(reviews, written.tractorId, written.farmerId);
    if found.Some? {
      ReplaceKeepsPairs(reviews, found.value, written);
    } else {
      AppendKeepsPairs(reviews, written);
    }
  }

  /** A review the upsert writes keeps the reviews valid: one per pair, ratings 1 to 5, every count up to date. */
  lemma UpsertKeepsReviewsValid(reviews: seq<Review>, listings: map<int, Listing>, written: Review)
    requires ReviewsValid(reviews, listings) && written.tractorId in listings && 1 <= written.rating <= 5
    ensures var after := Upserted(reviews, written);
      ReviewsValid(after, Recounted(listings, after, written.tractorId))
  {
    var after := Upserted(reviews, written);
    var recounted := Recounted(listings, after, written.tractorId);
    UpsertKeepsRows(reviews, listings, written);
    UpsertKeepsPairsUnique(reviews, written);
    assert ReviewRowsValid(after, recounted) by {
      assert recounted.Keys == listings.Keys;
    }
    forall id | id in recounted
      ensures recounted[id].ratingCount == CountFor(after, id)
    {
      UpsertCounts(reviews, written, id);
    }
  }

  /** Recounting reviews changes no listing's owner or validity, so the listings and the bookings stay valid. */
  lemma RecountKeepsValid(listings: map<int, Listing>, nextId: nat, bookings: map<int, Booking>, nextBookingId: nat,
                          reviews: seq<Review>, tractorId: nat)
    requires ListingsValid(listings, nextId) && BookingsValid(bookings, listings, nextBookingId) && tractorId in listings
    ensures ListingsValid(Recounted(listings, reviews, tractorId), nextId)
    ensures BookingsValid(bookings, Recounted(listings, reviews, tractorId), nextBookingId)
  {
  }

  /** Confirming completion, with or without a payment already on file, opens the review gate for that farmer and listing. */
  lemma ConfirmUnlocksReview(bookings: map<int, Booking>, id: nat, hours: Option<int>, now: int)
    requires id in bookings && bookings[id].status == Completed
    ensures var b := bookings[id];
      && Eligible(bookings[id := BookingService.Confirmed(b, hours, now)], b.tractorId, b.farmerId)
      && Eligible(bookings[id := b.(confirmedHours := hours, farmerConfirmedAt := Some(now))], b.tractorId, b.farmerId)
  {
    var b := bookings[id];
    var paid := bookings[id := BookingService.Confirmed(b, hours, now)];
    var kept := bookings[id := b.(confirmedHours := hours, farmerConfirmedAt := Some(now))];
    assert Unlocks(paid[id], b.tractorId, b.farmerId);
    assert Unlocks(kept[id], b.tractorId, b.farmerId);
  }

  /** Before the farmer confirms, none of their bookings unlocks a review. */
  lemma UnconfirmedLocked(bookings: map<int, Booking>, tractorId: nat, farmerId: nat)
    requires forall id :: id in bookings && bookings[id].farmerId == farmerId ==> bookings[id].farmerConfirmedAt.None?
    ensures !Eligible(bookings, tractorId, farmerId)
  {
  }
}
