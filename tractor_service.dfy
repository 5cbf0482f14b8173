/**
 * Listings: validating and creating one, and the two ways an owner changes its
 * availability. Every listing keeps `is_available` equal to "its status is not offline".
 */
module TractorService {
  import opened Wrappers
  import opened Money
  import opened Text
  import opened Decimals
  import opened Entities
  import opened Store

  /** The submitted form of `create_tractor`; None for a field the payload does not carry. */
  datatype ListingForm = ListingForm(
    title: Option<string>,
    pricePerHour: Option<string>,
    pincode: Option<string>,
    village: Option<string>,
    district: Option<string>,
    equipmentType: Option<string>,
    availabilityStatus: Option<string>,
    description: Option<string>,
    imagePath: Option<string>,
    latitude: Option<string>,
    longitude: Option<string>,
    locationLabel: Option<string>)

  /** `_parse_coordinate`: a blank value is no coordinate, anything else must parse as a Decimal (400 otherwise). */
  function ParseCoordinate(value: Option<string>): (r: Result<Option<Dec>>)
    ensures Strip(OrElse(value, "")) == [] ==> r == Success(None)
    ensures r.Failure? ==> r.error == BadRequest
  {
    var raw := Strip(OrElse(value, ""));
    if raw == "" then Success(None)
    else
      match ParseDecimal(raw)
      case Some(d) => Success(Some(d))
      case None => Failure(BadRequest)
  }

  /** A coordinate written as `str(d)` is read back as `d`. */
  lemma ParseCoordinateFormat(d: Dec)
    ensures ParseCoordinate(Some(FormatDec(d))) == Success(Some(d))
  {
    var s := FormatDec(d);
    assert s[0] == '-' || IsDigit(s[0]);
    assert IsDigit(s[|s| - 1]);
    StripNoop(s);
    ParseFormatRoundTrip(d);
  }

  /** The six ASCII digits the pincode pattern `\d{6}` accepts. */
  predicate IsPincode(s: string)
  {
    |s| == 6 && IsDigits(s)
  }

  /** The equipment type as stored: stripped and title-cased, "Tractor" when absent or empty. */
  function EquipmentTypeOf(raw: Option<string>): string
  {
    Title(Strip(OrElse(raw, "Tractor")))
  }

  /** The availability status as stored: stripped and lower-cased, "available" when absent or empty. */
  function AvailabilityOf(raw: Option<string>): string
  {
    Lower(Strip(OrElse(raw, "available")))
  }

  /**
   * The validation and the row of `create_tractor`: 400 for an empty title or a missing
   * price, then for a pincode that is not six digits, an unknown equipment type, an
   * unknown availability status, a price that is not a positive Decimal, and a coordinate
   * that does not parse.
   */
  function BuildListing(ownerId: nat, form: ListingForm): (r: Result<Listing>)
    ensures r.Failure? ==> r.error == BadRequest
    ensures r.Success? ==>
      && ListingValid(r.value) && r.value.ownerId == ownerId && r.value.ratingCount == 0
      && r.value.title == Strip(OrElse(form.title, "")) && r.value.title != []
      && r.value.pincode == Strip(OrElse(form.pincode, ""))
      && r.value.equipmentType == EquipmentTypeOf(form.equipmentType)
      && r.value.availabilityStatus == AvailabilityOf(form.availabilityStatus)
      && form.pricePerHour.Some? && ParseDecimal(form.pricePerHour.value) == Some(r.value.price)
  {
    var title := Strip(OrElse(form.title, ""));
    var pincode := Strip(OrElse(form.pincode, ""));
    var equipmentType := EquipmentTypeOf(form.equipmentType);
    var status := AvailabilityOf(form.availabilityStatus);
    if title == "" || form.pricePerHour.None? then Failure(BadRequest)
    else if !IsPincode(pincode) then Failure(BadRequest)
    else if equipmentType !in EquipmentTypes then Failure(BadRequest)
    else if status !in AvailabilityStatuses then Failure(BadRequest)
    else
      match ParseDecimal(form.pricePerHour.value)
      case None => Failure(BadRequest)
      case Some(price) =>
        if price.units <= 0 then Failure(BadRequest)
        else
          match ParseCoordinate(form.latitude)
          case Failure(e) => Failure(e)
          case Success(latitude) =>
            match ParseCoordinate(form.longitude)
            case Failure(e) => Failure(e)
            case Success(longitude) =>
              Success(Listing(ownerId, title, StripOrNone(form.description), price, form.imagePath,
                              latitude, longitude, StripOrNone(form.locationLabel), pincode,
                              StripOrNone(form.village), StripOrNone(form.district),
                              equipmentType, status, status != "offline", 0))
  }

  /** Each of the form errors of `create_tractor` is a 400. */
  lemma BuildListingRejects(ownerId: nat, form: ListingForm)
    ensures Strip(OrElse(form.title, "")) == [] || form.pricePerHour.None? ==> BuildListing(ownerId, form) == Failure(BadRequest)
    ensures !IsPincode(Strip(OrElse(form.pincode, ""))) ==> BuildListing(ownerId, form) == Failure(BadRequest)
    ensures EquipmentTypeOf(form.equipmentType) !in EquipmentTypes ==> BuildListing(ownerId, form) == Failure(BadRequest)
    ensures AvailabilityOf(form.availabilityStatus) !in AvailabilityStatuses ==> BuildListing(ownerId, form) == Failure(BadRequest)
    ensures (form.pricePerHour.Some? && ParseDecimal(form.pricePerHour.value).Some?
             && ParseDecimal(form.pricePerHour.value).value.units <= 0) ==> BuildListing(ownerId, form).Failure?
  {
  }

  /** A form passing every check of `create_tractor` is accepted, and only such a form. */
  lemma BuildListingAccepts(ownerId: nat, form: ListingForm)
    ensures BuildListing(ownerId, form).Success? <==>
      && Strip(OrElse(form.title, "")) != [] && form.pricePerHour.Some?
      && IsPincode(Strip(OrElse(form.pincode, "")))
      && EquipmentTypeOf(form.equipmentType) in EquipmentTypes
      && AvailabilityOf(form.availabilityStatus) in AvailabilityStatuses
      && ParseDecimal(form.pricePerHour.value).Some? && ParseDecimal(form.pricePerHour.value).value.units > 0
      && ParseCoordinate(form.latitude).Success? && ParseCoordinate(form.longitude).Success?
  {
  }

  /** A form without an equipment type or a status lists an available tractor. */
  lemma DefaultsListTractor()
    ensures EquipmentTypeOf(None) == "Tractor" && AvailabilityOf(None) == "available"
  {
    WordKept("Tractor");
    LowerWordKept("available");
  }

  /** A capitalised word without surrounding space survives the type normalisation. */
  lemma WordKept(w: string)
    requires w != [] && IsUpper(w[0]) && forall i :: 1 <= i < |w| ==> IsLower(w[i])
    ensures Title(Strip(w)) == w
  {
    StripNoop(w);
    TitleWord(w);
  }

  /** A lower-case word survives the status normalisation. */
  lemma LowerWordKept(w: string)
    requires w != [] && forall i :: 0 <= i < |w| ==> IsLower(w[i])
    ensures Lower(Strip(w)) == w
  {
    StripNoop(w);
    LowerNoop(w);
  }

  /** `create_tractor`: the validated listing is stored under the next id; on an error nothing is written. */
  method CreateTractor(db: Db, ownerId: nat, form: ListingForm) returns (r: Result<Listing>)
    modifies db`listings, db`nextListingId
    ensures r == BuildListing(ownerId, form)
    ensures r.Failure? ==> unchanged(db`listings, db`nextListingId)
    ensures r.Success? ==>
      && db.listings == old(db.listings)[old(db.nextListingId) := r.value]
      && db.nextListingId == old(db.nextListingId) + 1
  {
    r := BuildListing(ownerId, form);
    if r.Success? {
      StoreListing(db, r.value);
    }
  }

  /** The write of a new listing: stored under the next id, and the counter moved on. */
  method StoreListing(db: Db, l: Listing)
    modifies db`listings, db`nextListingId
    ensures db.listings == old(db.listings)[old(db.nextListingId) := l]
    ensures db.nextListingId == old(db.nextListingId) + 1
  {
    db.listings := db.listings[db.nextListingId := l];
    db.nextListingId := db.nextListingId + 1;
  }

  /** Overwrite one listing row. */
  method ReplaceListing(db: Db, id: nat, l: Listing)
    modifies db`listings
    ensures db.listings == old(db.listings)[id := l]
  {
    db.listings := db.listings[id := l];
  }

  /** `toggle_availability`: the flag as given, and the status that matches it. */
  function Toggled(l: Listing, on: bool): (t: Listing)
    ensures ListingValid(l) ==> ListingValid(t)
    ensures t.isAvailable == on && t.availabilityStatus == (if on then "available" else "offline")
    ensures t == l.(isAvailable := t.isAvailable, availabilityStatus := t.availabilityStatus)
  {
    l.(isAvailable := on, availabilityStatus := if on then "available" else "offline")
  }

  /** A listing the given owner holds. */
  predicate Owns(listings: map<int, Listing>, tractorId: nat, ownerId: nat)
  {
    tractorId in listings && listings[tractorId].ownerId == ownerId
  }

  /** `toggle_availability`: 404 unless the owner holds the listing; otherwise the flag and its status are set. */
  method ToggleAvailability(db: Db, tractorId: nat, ownerId: nat, on: bool) returns (r: Result<Listing>)
    modifies db`listings
    ensures !Owns(old(db.listings), tractorId, ownerId) ==> r == Failure(NotFound) && unchanged(db`listings)
    ensures Owns(old(db.listings), tractorId, ownerId) ==>
      && r == Success(Toggled(old(db.listings[tractorId]), on))
      && db.listings == old(db.listings)[tractorId := r.value]
  {
    if !Owns(db.listings, tractorId, ownerId) {
      return Failure(NotFound);
    }
    var l := Toggled(db.listings[tractorId], on);
    ReplaceListing(db, tractorId, l);
    r := Success(l);
  }

  /** A new availability status, and the flag that matches it. */
  function WithStatus(l: Listing, status: string): (t: Listing)
    requires status in AvailabilityStatuses
    ensures ListingValid(l) ==> ListingValid(t)
    ensures t.availabilityStatus == status && t.isAvailable == (status != "offline")
    ensures t == l.(isAvailable := t.isAvailable, availabilityStatus := t.availabilityStatus)
  {
    l.(availabilityStatus := status, isAvailable := status != "offline")
  }

  /**
   * `update_availability_status`: 404 unless the owner holds the listing, then 400 for a
   * status (stripped, lower-cased) outside available/busy/offline; otherwise it is set.
   */
  method UpdateAvailabilityStatus(db: Db, tractorId: nat, ownerId: nat, raw: Option<string>) returns (r: Result<Listing>)
    modifies db`listings
    ensures r.Failure? ==> unchanged(db`listings)
    ensures !Owns(old(db.listings), tractorId, ownerId) ==> r == Failure(NotFound)
    ensures Owns(old(db.listings), tractorId, ownerId) ==>
      var status := Lower(Strip(OrElse(raw, "")));
      if status !in AvailabilityStatuses then r == Failure(BadRequest)
      else r == Success(WithStatus(old(db.listings[tractorId]), status)) && db.listings == old(db.listings)[tractorId := r.value]
  {
    if !Owns(db.listings, tractorId, ownerId) {
      return Failure(NotFound);
    }
    var status := Lower(Strip(OrElse(raw, "")));
    if status !in AvailabilityStatuses {
      return Failure(BadRequest);
    }
    var l := WithStatus(db.listings[tractorId], status);
    ReplaceListing(db, tractorId, l);
    r := Success(l);
  }

  /** A listing created under the next id keeps the listings, the bookings and the review counts valid. */
  lemma CreateKeepsValid(listings: map<int, Listing>, nextId: nat, bookings: map<int, Booking>, nextBookingId: nat,
                         reviews: seq<Review>, l: Listing)
    requires ListingsValid(listings, nextId) && BookingsValid(bookings, listings, nextBookingId)
    requires ReviewsValid(reviews, listings) && ListingValid(l) && l.ratingCount == 0
    ensures ListingsValid(listings[nextId := l], nextId + 1)
    ensures BookingsValid(bookings, listings[nextId := l], nextBookingId)
    ensures ReviewsValid(reviews, listings[nextId := l])
  {
    assert nextId !in listings;
    CountForAbsent(reviews, nextId);
  }

  /**
   * Changing a listing's availability keeps every rule of the store that reads listings:
   * the owner and the review count are untouched.
   */
  lemma AvailabilityKeepsValid(listings: map<int, Listing>, nextId: nat, bookings: map<int, Booking>, nextBookingId: nat,
                               reviews: seq<Review>, id: nat, l: Listing)
    requires ListingsValid(listings, nextId) && BookingsValid(bookings, listings, nextBookingId)
    requires ReviewsValid(reviews, listings) && id in listings && ListingValid(l)
    requires l.ownerId == listings[id].ownerId && l.ratingCount == listings[id].ratingCount
    ensures ListingsValid(listings[id := l], nextId)
    ensures BookingsValid(bookings, listings[id := l], nextBookingId)
    ensures ReviewsValid(reviews, listings[id := l])
  {
  }
}
