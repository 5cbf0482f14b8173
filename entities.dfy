/**
 * The rows of the application's tables, as values. Money columns are integer cents;
 * a listing's price and a booking's commission percentage keep the Decimal they were
 * given; times are seconds since the epoch.
 */
module Entities {
  import opened Wrappers
  import opened Money
  import opened Lifecycle

  /** A `tractors` row: a tractor or an add-on implement offered by an owner. */
  datatype Listing = Listing(
    ownerId: nat,
    title: string,
    description: Option<string>,
    price: Dec,
    imagePath: Option<string>,
    latitude: Option<Dec>,
    longitude: Option<Dec>,
    locationLabel: Option<string>,
    pincode: string,
    village: Option<string>,
    district: Option<string>,
    equipmentType: string,
    availabilityStatus: string,
    isAvailable: bool,
    ratingCount: nat)

  /** A `bookings` row; `status` holds one of the texts `Name` gives, read back as its `Status`. */
  datatype Booking = Booking(
    tractorId: nat,
    farmerId: nat,
    ownerId: nat,
    status: Status,
    startTime: int,
    endTime: int,
    hours: int,
    quotedRate: int,
    totalAmount: int,
    baseTotal: int,
    addonTotal: int,
    grandTotal: int,
    surge: int,
    commissionPct: Dec,
    commission: int,
    payout: int,
    acceptedAt: Option<int>,
    enRouteAt: Option<int>,
    startedAt: Option<int>,
    completedAt: Option<int>,
    farmerConfirmedAt: Option<int>,
    confirmedHours: Option<int>,
    cancelledAt: Option<int>,
    paidAt: Option<int>,
    farmerNote: Option<string>)

  /** `start + timedelta(hours=hours)`, times being counted in seconds. */
  function SlotEnd(start: int, hours: int): int
  {
    start + hours * 3600
  }

  /** A `booking_addons` row: an implement hired together with a booking. */
  datatype BookingAddon = BookingAddon(bookingId: nat, addonId: nat, quantity: int, totalPrice: int)

  /** A `payments` row. */
  datatype Payment = Payment(bookingId: nat, receipt: string, amount: int, farmerId: nat, ownerId: nat, status: Status)

  /** An `owner_earnings` row. */
  datatype Earning = Earning(ownerId: nat, bookingId: nat, gross: int, fee: int, net: int)

  /** A `reviews` row. */
  datatype Review = Review(tractorId: nat, farmerId: nat, rating: int, comment: Option<string>)

  /** A `users` row; the password hash is an opaque string. */
  datatype User = User(
    fullName: string,
    email: string,
    phone: string,
    passwordHash: string,
    role: string,
    isActive: bool,
    lastLogin: Option<int>)

  /** A `chat_messages` row. */
  datatype ChatMessage = ChatMessage(bookingId: nat, senderId: nat, text: string, createdAt: int)

  /** A pushed notification: its recipient and its title. */
  datatype Notice = Notice(userId: nat, title: string)
}
