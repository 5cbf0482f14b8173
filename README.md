# UzhavanGo service core, modelled in Dafny

UzhavanGo is a marketplace where farmers book tractors and add-on equipment from their
owners by the hour. This project models the service layer that enforces the marketplace
rules:

- the booking lifecycle: the transition table, stamps, notices, the farmer's
  confirmation of completion, and settlement into a payment, an owner earning and a
  receipt number;
- pricing: surge by pincode demand, the hourly rate, the add-on lines, commission and
  payout, all in integer cents with Python `Decimal.quantize` rounding (half to even);
- listings: creation with its validations, and the two availability setters;
- reviews: the eligibility gate, the one-review-per-pair upsert and the rating count;
- accounts: phone normalisation, registration, the farmer phone login with its
  candidate e-mail loop, and e-mail/password sign-in;
- the booking chat, the platform settings, the upload checks, and the catalogue search
  with its availability message.

The database is one class, `Store.Db`. Its tables are `map`s keyed by id and `seq`s for
the row lists, and the services are methods with field-level `modifies` clauses. Each
state-changing method states its exact new state through specification functions such
as `CreateOutcome`, `Stamp`, `NewPayment`, `EarningsAfter`, `Upserted` and
`SignInOutcome`. Lemmas about those functions prove what the code promises:

- no two active bookings of a tractor overlap;
- booking figures balance;
- a payment is recorded exactly for the paid bookings;
- the day's receipt numbers stay gapless and unique;
- one review per (listing, farmer), with the rating count kept up to date;
- e-mail addresses, and farmers' phone numbers, are unique.

`Store.Db.Valid` gathers these rules. The methods do not carry it in their contracts.
Instead, a lemma over the exact new state that a method's `ensures` describes shows that
the rules are kept:
- `CreateBooking`: `BookingService.CreatedKeepsValid`.
- `Transition`: `MoveKeepsValid`, and `PayMoveKeepsValid` for a move to paid.
- `ConfirmCompletion`: `ConfirmKeepsValid`.
- `CreateTractor`: `TractorService.CreateKeepsValid`.
- `ToggleAvailability` and `UpdateAvailabilityStatus`: `AvailabilityKeepsValid`.
- `UpsertReview`: `UpsertKeepsReviewsValid` and `RecountKeepsValid`.
- `RegisterUser`: `RegistrationKeepsValid`.
- `FarmerLoginOrRegister`: `PhoneLoginKeepsValid`.
- `SignIn` and `AuthenticateUser`: `SignInKeepsValid`.
- `PostMessage` and `SetSetting`: these write only tables that `Valid` does not read.

Money is a whole number of cents. A listing price or a setting is a `Dec(units, exp)`,
standing for `units / 10^exp`. Surge multipliers are written in hundredths (100 or 110).
Times are whole seconds, and "today" is a `Date` parameter. Calendar dates are not derived
from times.

Rounding to cents follows the code: `quantize` runs in Python's default context, which
rounds half to even rather than the half-up rounding usual for currency.
`Pricing.HalfEvenRate` shows 0.15 × 1.10 quoted at 0.16, where half up would give 0.17.

The model keeps the code's quirks as written. For example, `register_user` tests the raw full
name for emptiness and strips it only afterwards. A name made only of spaces is therefore
accepted and stored empty, and `Registration` does the same.

## Model

| member | source | states |
|---|---|---|
| Lifecycle.SnakeCasePlain | app/services/booking_service.py:207-208 | every stored status name is its own `strip()` and `lower()`, so normalising it changes nothing |
| Lifecycle.Name | app/services/booking_service.py:10-22 | every status is stored as lower-case snake-case text |
| Lifecycle.NameRoundTrip | app/services/booking_service.py:10-22 | reading a status's stored text back selects that status's own row of the table |
| Lifecycle.TargetsAreEdges | app/services/booking_service.py:10-22 | the table allows a move exactly when it is one of the lifecycle's edges |
| Lifecycle.TerminalStatuses | app/services/booking_service.py:15-21 | `paid`, `cancelled` and any status outside the table (including `rejected`) allow no move |
| Lifecycle.LegacyCurrentAliases | app/services/booking_service.py:207-214 | stored `requested` and `in_progress` behave as `pending` and `working` |
| Lifecycle.NormalizeTargetName | app/services/booking_service.py:208-214 | asking for a status by its stored text asks for that status |
| Lifecycle.RejectedMeansCancelled | app/services/booking_service.py:208-214 | a request for `rejected` is a request for `cancelled` |
| Lifecycle.NormalizeCurrentName | app/services/booking_service.py:207-214 | a status this code wrote reads back as itself |
| Lifecycle.CanMoveStored | app/services/booking_service.py:207-217 | for a stored status, the check on the raw text agrees with the check on the status |
| Lifecycle.MovableStatus | app/services/booking_service.py:10-22 | only an unpaid status that holds its slot can move, always to a known status, and `paid` is reachable only from `completed` |
| Lifecycle.MovesProgress | app/services/booking_service.py:10-22 | every move goes strictly further along the lifecycle |
| Lifecycle.RunProgresses | app/services/booking_service.py:10-22 | along any run of moves no status repeats, so no milestone is stamped twice |
| Lifecycle.StatusSets | app/services/booking_service.py:68-76 | only a cancelled booking frees its slot; the pipeline statuses are the active ones before completion |
| Lifecycle.OverlapFacts | app/services/booking_service.py:73 | overlap of half-open windows is symmetric, back-to-back windows never overlap, and a non-empty window overlaps itself |
| Lifecycle.MilestonesDistinct | app/services/booking_service.py:219-256 | every reachable target has its own milestone field, distinct from every other target's |
| Lifecycle.StatusLabel | app/services/booking_service.py:27-28 | `_status_label` character by character: an underscore shows as a space, a letter after a cased letter is lower-case, and any other character is upper-cased |
| Lifecycle.StatusLabelEnRoute | app/services/booking_service.py:27-28 | `en_route` is shown as `En Route` |
| Lifecycle.TitleNoUnderscore | app/services/booking_service.py:27-28 | title-casing never introduces an underscore |
| Lifecycle.Targets | app/services/booking_service.py:10-22 | defines `BOOKING_TRANSITIONS` row by row, with an empty row for unknown statuses |
| Lifecycle.NormalizeCurrent | app/services/booking_service.py:207-214 | defines the stored status as read: lower-cased, `requested` read as pending and `in_progress` as working |
| Lifecycle.NormalizeTarget | app/services/booking_service.py:208-210 | defines the requested status as read: stripped, lower-cased, `rejected` read as cancelled |
| Lifecycle.CanMove | app/services/booking_service.py:216-217 | defines the guard of `transition_booking`: the target is in the row of the current status |
| Money.RoundHalfEvenNearest | app/services/booking_service.py:108-145 | quantizing to cents lands within half a cent of the exact value, and an exact tie goes to the even cent |
| Money.RoundHalfEvenUnique | app/services/booking_service.py:108-109 | those two properties determine the rounded value, so they specify half-even rounding completely |
| Money.RoundHalfEvenExact | app/services/booking_service.py:143 | quantizing an amount already in whole cents changes nothing |
| Money.RoundHalfEvenMonotone | app/services/booking_service.py:108-109 | a larger amount never rounds to fewer cents |
| Money.RoundHalfEvenNonNegative | app/services/booking_service.py:108-109 | a non-negative amount never rounds below zero |
| Money.RoundedFractionBounds | app/services/booking_service.py:145 | a fraction in [0, 1] of a non-negative total rounds into [0, total] |
| Money.TruncDivRemainder | app/services/booking_service.py:196 | `int()` of a Decimal truncates toward zero, leaving a remainder of the value's sign |
| Money.RoundHalfEven | app/services/booking_service.py:108 | defines `quantize(Decimal("0.01"))` on a count of 1/d cents: the nearest whole cent, ties to the even cent (RoundHalfEvenNearest states it) |
| Money.TruncateToInt | app/services/booking_service.py:196 | defines `int()` of a Decimal: truncation toward zero (TruncDivRemainder states it) |
| Pricing.SurgeMonotone | app/services/booking_service.py:195-203 | more pipeline bookings never lower the surge, a higher threshold never raises it, and it is always 1.00 or 1.10 |
| Pricing.SurgeIff | app/services/booking_service.py:203 | surge applies exactly when the pipeline count strictly exceeds the threshold |
| Pricing.QuotedRate | app/services/booking_service.py:106-108 | a non-negative price is never quoted at a negative rate |
| Pricing.QuotedRateNearest | app/services/booking_service.py:108 | the quoted rate is within half a cent of price × surge |
| Pricing.SurgeNeverLowersRate | app/services/booking_service.py:107-108 | a surged rate is never below the normal one |
| Pricing.NormalRateOfCents | app/services/booking_service.py:106-108 | without surge, a price in whole cents is quoted unchanged |
| Pricing.HalfEvenRate | app/services/booking_service.py:108 | ties round to even: 0.15 × 1.10 gives 0.16, and 0.25 × 1.10 gives 0.28 |
| Pricing.AddonLine | app/services/booking_service.py:137-139 | an add-on line of non-negative price, hours and quantity is never negative |
| Pricing.CommissionNearest | app/services/booking_service.py:144-145 | the commission is within half a cent of total × pct / 100 |
| Pricing.CommissionBounds | app/services/booking_service.py:145-146 | a commission percentage in [0, 100] takes between nothing and the whole total, so the payout is never negative |
| Pricing.CommissionExtremes | app/services/booking_service.py:145 | 0% withholds nothing and 100% withholds the whole total |
| Pricing.QuoteBalanced | app/services/booking_service.py:109-146 | the total is the base plus the add-ons, and commission plus payout is the total |
| Pricing.QuoteNonNegative | app/services/booking_service.py:106-146 | with a non-negative price, positive hours and a percentage in [0, 100], no figure is negative and the commission and payout each lie within the total |
| Pricing.MakeQuoteSound | app/services/booking_service.py:106-146 | every quote `create_booking` can compute is balanced and non-negative, and it keeps the add-on total it was given |
| Pricing.AddonRowsSound | app/services/booking_service.py:110-141 | every add-on line names a same-owner listing that is not offline and not a tractor, with a positive quantity, priced at that listing's rate |
| Pricing.AddonRowsLength | app/services/booking_service.py:124-141 | no pick yields more than one line |
| Pricing.SumTotalsNonNegative | app/services/booking_service.py:140 | line totals that are each non-negative sum to a non-negative amount |
| Pricing.AddonTotalNonNegative | app/services/booking_service.py:110-141 | with non-negative listing prices, the add-on total is non-negative |
| Pricing.SurgeFor | app/services/booking_service.py:203 | defines the multiplier: 1.10 when the pipeline count exceeds the threshold, else 1.00 |
| Pricing.Commission | app/services/booking_service.py:144-145 | defines the commission in cents: `total * pct / 100` rounded half to even |
| Pricing.MakeQuote | app/services/booking_service.py:106-146 | defines the pricing block of `create_booking` once the add-on total is known |
| Pricing.PickRow | app/services/booking_service.py:124-141 | defines one pass of the add-on loop: skip a non-digit key, an ineligible listing or a quantity that is not positive; else the priced line |
| Pricing.AddonRows | app/services/booking_service.py:110-141 | defines `addon_rows` after the loop over the picks, in order |
| Receipts.DateStamp | app/services/booking_service.py:32 | `%Y%m%d` is eight characters |
| Receipts.Prefix | app/services/booking_service.py:33 | the day's prefix `UZG-YYYYMMDD-` is thirteen characters |
| Receipts.ReceiptNumber | app/services/booking_service.py:35 | a receipt number is the prefix and at least four digits |
| Receipts.IssuedOn | app/services/booking_service.py:34 | the receipts counted for a day are among those issued |
| Receipts.DateStampParts | app/services/booking_service.py:32 | the date stamp reads back as the year, the month and the day |
| Receipts.PrefixInjective | app/services/booking_service.py:32-33 | different days have different prefixes |
| Receipts.ReceiptNumberInjective | app/services/booking_service.py:31-35 | a receipt number determines its day and its count |
| Receipts.DayBlockIndex | app/services/booking_service.py:35 | each of a day's first n numbers is the number of some count from 1 to n |
| Receipts.DayBlockSize | app/services/booking_service.py:35 | a day's first n numbers are n distinct receipts |
| Receipts.DenseEmpty | app/services/booking_service.py:31-35 | with no receipts issued, every day's numbering is gapless |
| Receipts.NextIsFresh | app/services/booking_service.py:31-35 | when every day is numbered without gaps, the next number of a day has not been issued |
| Receipts.OtherDayUnchanged | app/services/booking_service.py:34 | issuing a receipt on one day does not change another day's count |
| Receipts.IssueFresh | app/services/booking_service.py:31-35 | issuing the next number gives an unused receipt, raises that day's count by one and keeps every day gapless |
| Receipts.NextReceipt | app/services/booking_service.py:31-35 | defines `_generate_receipt_number`: the day prefix and the count of that day's receipts plus one |
| Decimals.ParseUnsigned | app/services/tractor_service.py:44-49 | a literal without a sign never parses to a negative value |
| Decimals.UnsignedText | app/services/platform_service.py:21 | `str()` of a Decimal without its sign starts and ends with a digit |
| Decimals.FormatDec | app/services/platform_service.py:21 | `str()` of a Decimal in plain notation is never empty (the scientific form is not modelled, see Left out) |
| Decimals.LastPointBeforeDigits | app/services/tractor_service.py:45 | in `whole.frac` with only digits after the point, that point is the last one |
| Decimals.ParsePointed | app/services/tractor_service.py:45 | `whole.frac` parses to the digits of both parts, scaled by the length of `frac` |
| Decimals.ParseUnsignedFormat | app/services/platform_service.py:19-21 | parsing the unsigned rendering of a Decimal gives it back |
| Decimals.ParseUnsignedLiteral | app/services/tractor_service.py:45 | a literal that starts and ends with a digit parses without a sign |
| Decimals.ParseNegatedLiteral | app/services/tractor_service.py:45-47 | a leading minus negates the value |
| Decimals.ParseFormatRoundTrip | app/services/platform_service.py:19-21 | `Decimal(str(d)) == d` |
| Decimals.ParseNatString | app/services/booking_service.py:196 | `Decimal(str(n))` of a whole number is that number |
| Decimals.ParseDecimal | app/services/tractor_service.py:44-49 | defines `Decimal()` of text for plain literals, None otherwise (ParseFormatRoundTrip states it) |
| Text.Lower | app/services/auth_service.py:32 | `lower()` maps each character by itself and keeps the length |
| Text.LowerNoop | app/services/booking_service.py:207 | text without upper-case letters is its own `lower()` |
| Text.ReplaceChar | app/services/booking_service.py:28 | `replace` of one character changes exactly the positions that held it |
| Text.StripLeft | app/services/chat_service.py:32 | `lstrip()` leaves no leading whitespace |
| Text.StripLeftDrops | app/services/chat_service.py:32 | `lstrip()` removes a whitespace-only prefix and keeps the rest |
| Text.StripRight | app/services/chat_service.py:32 | `rstrip()` leaves no trailing whitespace |
| Text.StripRightDrops | app/services/chat_service.py:32 | `rstrip()` removes a whitespace-only suffix and keeps the rest |
| Text.Strip | app/services/chat_service.py:32 | `strip()` leaves whitespace at neither end |
| Text.StripNoop | app/services/chat_service.py:32 | text without surrounding whitespace is its own `strip()` |
| Text.StripIdempotent | app/services/tractor_service.py:96 | stripping twice is stripping once |
| Text.TitleFrom | app/services/booking_service.py:28 | `title()` after a cased or uncased character: each character is lower-cased when the one before it is cased and upper-cased otherwise |
| Text.Title | app/services/tractor_service.py:32 | `title()`: the first character and each one after an uncased character are upper-cased, every other is lower-cased |
| Text.TitleFromIdempotent | app/services/tractor_service.py:32 | title-casing twice is title-casing once |
| Text.TitleFromLowerRun | app/services/tractor_service.py:32 | lower-case letters after a cased letter are kept |
| Text.TitleWord | app/services/tractor_service.py:32 | a capitalised word, such as an equipment type, is its own `title()` |
| Text.StripOrNone | app/services/booking_service.py:158 | `(x or "").strip() or None` keeps only non-empty stripped text, and gives None exactly when nothing is left |
| Text.TitleIdempotent | app/services/tractor_service.py:32 | `title()` is idempotent |
| Text.KeepDigits | app/services/auth_service.py:15 | the kept characters are digits, and there are no more of them than in the input |
| Text.KeepDigitsOfDigits | app/services/auth_service.py:15 | a digit string keeps all of its characters |
| Text.IndexOfFrom | app/services/file_service.py:54 | the search finds the first occurrence at or after the start, or reports that there is none |
| Text.IndexOf | app/services/file_service.py:54 | `find` gives the first occurrence, or reports that there is none |
| Text.LastIndexOf | app/services/file_service.py:19 | gives the last occurrence of a character, or reports that there is none |
| Text.DigitChar | app/services/booking_service.py:35 | a digit value is written as a digit character |
| Text.DigitValue | app/services/booking_service.py:35 | reading a digit character and writing it back gives the same character |
| Text.NatToString | app/routes/web/dashboard.py:458 | `str(n)` is a non-empty string of digits |
| Text.NatToStringRoundTrip | app/routes/web/dashboard.py:458 | `int(str(n)) == n` |
| Text.NatToStringInjective | app/routes/web/dashboard.py:458 | different counts print differently |
| Text.Zeros | app/services/booking_service.py:35 | the padding is the requested number of zeros |
| Text.LeadingZero | app/services/booking_service.py:35 | a leading zero does not change a digit string's value |
| Text.LeadingZeros | app/services/booking_service.py:35 | any number of leading zeros does not change a digit string's value |
| Text.PadNat | app/services/booking_service.py:35 | `{n:04d}` is all digits and at least four characters |
| Text.PadNatRoundTrip | app/services/booking_service.py:35 | a zero-padded count reads back as the count |
| Text.NatToStringLength | app/services/booking_service.py:35 | a count below 10^w has at most w digits |
| Text.PadNatLength | app/services/booking_service.py:35 | a count below 10^w pads to exactly w digits |
| Store.ListingPricesPositive | app/services/tractor_service.py:44-49 | every stored listing has a non-negative price |
| Store.CountFor | app/services/review_service.py:48-55 | a listing has no more reviews than the table has rows |
| Store.CountForAbsent | app/services/review_service.py:48-55 | a listing no review names has a count of zero |
| Store.Db.constructor | app/services/booking_service.py:79-192 | the empty database satisfies every invariant of the tables |
| PlatformService.GetDecimalAbsent | app/services/platform_service.py:9-21 | with no row for the key, `get_decimal` gives the default |
| PlatformService.GetDecimalUnparsable | app/services/platform_service.py:18-21 | a stored value that does not parse falls back to the default |
| PlatformService.SetSetting | app/services/platform_service.py:24-32 | `set_setting` updates the key's row in place or inserts one, so each key keeps one row |
| PlatformService.SetThenGet | app/services/platform_service.py:9-32 | after `set_setting(k, v)`, `get_setting(k)` gives v and every other key reads as before |
| PlatformService.SetThenGetDecimal | app/services/platform_service.py:16-32 | storing `str(d)` and reading it back as a Decimal gives d |
| PlatformService.SetThenGetWhole | app/services/platform_service.py:16-32 | a stored whole number reads back as itself |
| PlatformService.GetSetting | app/services/platform_service.py:9-13 | defines `get_setting`: the stored value, or the default when no row has the key |
| PlatformService.GetDecimal | app/services/platform_service.py:16-21 | defines `get_decimal`: the stored value parsed, or the default when it is absent or does not parse |
| BookingService.DefaultSurgeThreshold | app/services/booking_service.py:196 | with no threshold stored, the threshold is 5 |
| BookingService.DefaultCommission | app/services/booking_service.py:144 | with no commission stored, it is 10%, which lies in [0, 100] |
| BookingService.StampTouchesOnlyItsMilestone | app/services/booking_service.py:219-258 | a move sets the status, stamps the target's own milestone and no other, stamps nothing for `paid`, and leaves the terms alone |
| BookingService.StatusChangeKeepsNoOverlap | app/services/booking_service.py:68-76 | a status change that does not newly occupy a slot keeps active bookings apart |
| BookingService.InsertKeepsNoOverlap | app/services/booking_service.py:98-104 | a new booking that passed the conflict check keeps active bookings apart |
| BookingService.InsertKeepsBookings | app/services/booking_service.py:148-168 | a valid booking stored under the next id keeps every booking row valid |
| BookingService.InsertKeepsLedger | app/services/booking_service.py:148-168 | a new unpaid booking leaves the payments, earnings and receipts consistent |
| BookingService.AddPaymentKeepsReceipts | app/services/booking_service.py:31-51 | a payment with a fresh receipt keeps the receipt set equal to the payments' receipts, and unique |
| BookingService.ReplaceKeepsBookings | app/services/booking_service.py:219-256 | replacing a booking by a valid one keeps every booking row valid |
| BookingService.PayKeepsPaymentsMatch | app/services/booking_service.py:42-51 | a payment for the booking's total, farmer and owner keeps every payment matched to its booking |
| BookingService.PayClosesPaidIff | app/services/booking_service.py:42-51 | marking the booking paid together with writing its payment restores "paid exactly when a payment exists" |
| BookingService.EarningsAfterValid | app/services/booking_service.py:53-63 | the earning a settlement may add belongs to its booking, with net = total − fee and fee = commission |
| BookingService.SettleReadsTerms | app/services/booking_service.py:38-63 | settlement depends only on the booking's farmer, tractor, total and commission, not on its status or stamps |
| BookingService.OverwriteBooking | app/services/booking_service.py:50-51 | two writes to a booking leave only the second |
| BookingService.FreshSettlementValid | app/services/booking_service.py:38-63 | a fresh settlement uses an unissued receipt number and restores every rule of the ledger and the booking table |
| BookingService.Settle | app/services/booking_service.py:38-65 | an existing payment is returned with nothing changed; otherwise the booking becomes paid at `now`, the payment and the next receipt are written, and an earning is added if none exists |
| BookingService.CollectAddons | app/services/booking_service.py:110-141 | the add-on loop keeps exactly the accepted lines, in pick order, and sums their totals |
| BookingService.AddonRecords | app/services/booking_service.py:169-177 | one `booking_addons` row per add-on line, in order, carrying the line's listing, quantity and total |
| BookingService.CreateBooking | app/services/booking_service.py:79-192 | answers 409 for a bad listing, 400 for bad hours and 409 for a conflict, writing nothing; otherwise it stores the priced booking, its add-on rows and its notices |
| BookingService.StoreBooking | app/services/booking_service.py:148-189 | a successful creation writes the row under the next id, its add-on rows and its notices |
| BookingService.PricedFigures | app/services/booking_service.py:98-166 | the new row is pending over [start, start + hours); total = grand total = base + add-ons; the commission lies in [0, total]; payout = total − commission |
| BookingService.PricedValid | app/services/booking_service.py:148-166 | the new row is a valid booking of its listing |
| BookingService.CreateKeepsValid | app/services/booking_service.py:103-166 | storing a row that passed the conflict check keeps every rule of the booking tables |
| BookingService.CreatedKeepsValid | app/services/booking_service.py:79-192 | every booking `create_booking` accepts keeps a valid store valid |
| BookingService.InsertKeepsTables | app/services/booking_service.py:103-168 | a valid, unpaid, non-conflicting booking under the next id keeps the booking tables valid |
| BookingService.ReplaceKeepsLedger | app/services/booking_service.py:219-256 | an unpaid booking without a payment can change without breaking the ledger |
| BookingService.ReplaceKeepsLedgerExcept | app/services/booking_service.py:257-258 | while a booking has no payment, the ledger holds except for that booking's paid status |
| BookingService.ReplaceKeepsTables | app/services/booking_service.py:219-256 | an unpaid replacement on the same slot that frees a slot but never takes one keeps the tables valid |
| BookingService.StampedValid | app/services/booking_service.py:216-258 | the stamped booking of a legal move keeps its terms, its slot and its validity |
| BookingService.MoveKeepsValid | app/services/booking_service.py:216-256 | a legal move to any status other than `paid` keeps every rule of the booking tables |
| BookingService.PayMoveKeepsValid | app/services/booking_service.py:257-258 | a legal move to `paid` always settles afresh and keeps every rule of the booking tables |
| BookingService.CompletedReady | app/services/booking_service.py:274-288 | a completed booking in a valid store has no payment yet and is ready to settle |
| BookingService.PaidStamp | app/services/booking_service.py:50-51 | stamping `paid` and settling leaves the status `paid` with the paid time |
| BookingService.Transition | app/services/booking_service.py:206-271 | an illegal move is a 400 that writes nothing; a legal one sets the status, stamps its milestone and notifies the farmer, and a move to `paid` also settles the booking and notifies the owner |
| BookingService.MoveTo | app/services/booking_service.py:219-256 | a move that is not `paid` writes the stamped booking and the farmer's notice |
| BookingService.MoveToPaid | app/services/booking_service.py:257-268 | a move to `paid` stamps, settles, and notifies both the farmer and the owner |
| BookingService.Notify | app/services/booking_service.py:179-189 | notices are queued in order after those already queued |
| BookingService.ConfirmReady | app/services/booking_service.py:274-288 | recording the confirmation on a completed booking leaves it ready to settle |
| BookingService.ConfirmKeepsValid | app/services/booking_service.py:274-295 | confirming a completed booking of a valid store always settles afresh and keeps the tables valid |
| BookingService.ConfirmCompletion | app/services/booking_service.py:274-295 | 403 for another farmer, 400 unless the status is exactly `completed`, and 400 unless the hours are a positive integer; otherwise the confirmation is recorded, the booking settled and the owner notified |
| BookingService.HasConflict | app/services/booking_service.py:67-76 | defines `_has_conflict`: an active booking of the tractor overlaps the slot |
| BookingService.PipelineCount | app/services/booking_service.py:197-202 | defines the count of pending, accepted, en-route and working bookings on listings of the pincode |
| BookingService.SurgeThreshold | app/services/booking_service.py:196 | defines the threshold: `int()` of the `surge_threshold` setting, default 5 |
| BookingService.SurgeMultiplier | app/services/booking_service.py:195-203 | defines `_surge_multiplier_for_pincode` |
| BookingService.CommissionPct | app/services/booking_service.py:144 | defines the commission percentage: the `commission_pct` setting, default 10 |
| BookingService.Bookable | app/services/booking_service.py:87-89 | defines the listing test of `create_booking`: not offline, and a tractor (an empty type counts as one) |
| BookingService.Stamp | app/services/booking_service.py:219-256 | defines the write of a move: the new status and the milestone of the target set to now |
| BookingService.NewPayment | app/services/booking_service.py:42-49 | defines the payment a settlement writes: next receipt, the booking total, farmer, tractor owner, paid |
| BookingService.EarningsAfter | app/services/booking_service.py:53-63 | defines the earnings after settlement: one row per booking, added only when missing, net of the commission |
| BookingService.CreateOutcome | app/services/booking_service.py:79-166 | defines the answer of `create_booking`: 409, 400, 409 in that order, else the priced pending booking (CreateBooking states it) |
| TractorService.ParseCoordinate | app/services/tractor_service.py:16-23 | a blank coordinate is none; anything that does not parse is a 400 |
| TractorService.ParseCoordinateFormat | app/services/tractor_service.py:16-23 | a coordinate written as `str(d)` reads back as d |
| TractorService.BuildListingAccepts | app/services/tractor_service.py:26-53 | a form is accepted exactly when the title is non-empty, the price is present and parses to a positive value, the pincode is six digits, the type and status are known and both coordinates parse |
| TractorService.BuildListing | app/services/tractor_service.py:26-72 | every error is a 400; an accepted listing is valid, belongs to the owner, has no reviews and carries the stripped title and pincode, the normalised type and status, and the parsed price |
| TractorService.BuildListingRejects | app/services/tractor_service.py:35-49 | a missing title or price, a pincode that is not six digits, an unknown type or status, and a price that is not positive are each rejected with 400 |
| TractorService.DefaultsListTractor | app/services/tractor_service.py:32-33 | without a type or status, the listing is an available tractor |
| TractorService.WordKept | app/services/tractor_service.py:32 | a capitalised type such as `Rotavator` survives the normalisation |
| TractorService.LowerWordKept | app/services/tractor_service.py:33 | a lower-case status survives the normalisation |
| TractorService.CreateTractor | app/services/tractor_service.py:26-72 | stores exactly the listing BuildListing accepts under the next id, and writes nothing on an error |
| TractorService.StoreListing | app/services/tractor_service.py:54-72 | the new listing is stored under the next id |
| TractorService.ReplaceListing | app/services/tractor_service.py:82-102 | only the given listing's row is rewritten |
| TractorService.Toggled | app/services/tractor_service.py:85-86 | the flag is as given, the status matches it, and no other field changes |
| TractorService.ToggleAvailability | app/services/tractor_service.py:82-89 | 404 unless the owner holds the listing; otherwise only that listing's flag and status change |
| TractorService.WithStatus | app/services/tractor_service.py:99-100 | the status is as given, the flag is `status != "offline"`, and no other field changes |
| TractorService.UpdateAvailabilityStatus | app/services/tractor_service.py:92-102 | 404 unless the owner holds the listing, then 400 for an unknown status; otherwise only that listing's status and flag change |
| TractorService.CreateKeepsValid | app/services/tractor_service.py:54-72 | a new listing keeps the listings, bookings and review counts valid |
| TractorService.AvailabilityKeepsValid | app/services/tractor_service.py:82-102 | changing availability keeps every rule that reads listings |
| TractorService.EquipmentTypeOf | app/services/tractor_service.py:32 | defines the equipment type as read: default Tractor, stripped and title-cased |
| TractorService.AvailabilityOf | app/services/tractor_service.py:33 | defines the availability as read: default available, stripped and lower-cased |
| ReviewService.FindReview | app/services/review_service.py:34 | finds the first review of the (listing, farmer) pair, or reports that there is none |
| ReviewService.CountForReplace | app/services/review_service.py:35-55 | rewriting a review in place leaves every count unchanged |
| ReviewService.CountForAppend | app/services/review_service.py:39-55 | appending a review adds one to its listing's count only |
| ReviewService.UpsertStores | app/services/review_service.py:34-45 | afterwards the written review is the pair's review, and a row is added only when the pair had none |
| ReviewService.RewriteFound | app/services/review_service.py:35-38 | a review rewritten in place stays the pair's first review |
| ReviewService.AppendFound | app/services/review_service.py:39-45 | an appended review is found as the pair's review |
| ReviewService.UpsertKeepsOthers | app/services/review_service.py:34-45 | every review of another pair stays where it was |
| ReviewService.UpsertCounts | app/services/review_service.py:34-55 | the listing's count rises by one exactly when the pair had no review; other counts stay the same |
| ReviewService.FindFirstAt | app/services/review_service.py:34 | the pair's first occurrence is the one found |
| ReviewService.Recounted | app/services/review_service.py:48-55 | only the reviewed listing changes, and only its count, which becomes the number of its reviews |
| ReviewService.UpsertReview | app/services/review_service.py:12-58 | 400 for a rating outside 1..5, then 404 for an unknown listing, then 403 without a confirmed finished booking; otherwise it upserts the review with the trimmed comment and recounts |
| ReviewService.StoreReview | app/services/review_service.py:34-55 | the upsert followed by the recount |
| ReviewService.ReplaceKeepsRows | app/services/review_service.py:35-38 | a rating in 1..5 on a stored listing keeps every row in range |
| ReviewService.AppendKeepsRows | app/services/review_service.py:39-45 | a rating in 1..5 on a stored listing keeps every row in range |
| ReviewService.ReplaceKeepsPairs | app/services/review_service.py:35-38 | rewriting a row with the same pair keeps pairs unique |
| ReviewService.AppendKeepsPairs | app/services/review_service.py:39-45 | appending a new pair keeps pairs unique |
| ReviewService.UpsertKeepsRows | app/services/review_service.py:13-45 | the upsert keeps every rating in 1..5 on a stored listing |
| ReviewService.UpsertKeepsPairsUnique | app/services/review_service.py:34-45 | the upsert never creates a second review of a pair |
| ReviewService.UpsertKeepsReviewsValid | app/services/review_service.py:34-55 | afterwards there is one review per pair, every rating is in range and every count is current |
| ReviewService.RecountKeepsValid | app/services/review_service.py:48-55 | recounting keeps the listings and bookings valid |
| ReviewService.ConfirmUnlocksReview | app/services/review_service.py:25-32 | the farmer's confirmation of a completed booking opens the review gate, with or without a payment on file |
| ReviewService.UnconfirmedLocked | app/services/review_service.py:25-32 | before the farmer confirms, no booking opens the gate |
| ReviewService.Eligible | app/services/review_service.py:25-32 | defines the unlock test: a completed or paid booking of this farmer and tractor with a farmer confirmation |
| ReviewService.Upserted | app/services/review_service.py:34-45 | defines the review table after a review: the farmer's review of the tractor replaced, or the new one appended |
| AuthService.NormalizePhone | app/services/auth_service.py:14-18 | succeeds exactly when the input has ten digits, giving those digits; otherwise a 400 |
| AuthService.NormalizePhoneIdempotent | app/services/auth_service.py:14-18 | a normalised phone normalises to itself |
| AuthService.KeepDigitsAppend | app/services/auth_service.py:15 | filtering digits distributes over concatenation |
| AuthService.NormalizeIgnoresSeparator | app/services/auth_service.py:15 | a non-digit separator does not change the normalised number |
| AuthService.RegistrableFarmer | app/services/auth_service.py:29-42 | of the two registrable roles only `farmer` is a farmer |
| AuthService.RegistrationAccepts | app/services/auth_service.py:28-46 | registration succeeds exactly for a registrable role, a valid phone, a non-empty raw name, e-mail and password, a free e-mail and, for a farmer, a phone no farmer holds |
| AuthService.Registration | app/services/auth_service.py:28-53 | the role is checked first; an accepted account has a non-empty normalised e-mail that is not taken, a valid phone, a password, and (for a farmer) a phone no farmer holds; every error is 400 or 409 |
| AuthService.RegistrationConflicts | app/services/auth_service.py:37-45 | a taken e-mail, or a farmer phone another farmer holds, is a 409 |
| AuthService.RegisterUser | app/services/auth_service.py:28-63 | stores exactly the account `Registration` accepts under the next id, and nothing otherwise |
| AuthService.AddUserKeepsValid | app/services/auth_service.py:37-53 | an account with a free e-mail (and a free farmer phone) keeps addresses and farmer phones unique |
| AuthService.RegistrationKeepsValid | app/services/auth_service.py:28-53 | every accepted registration keeps addresses and farmer phones unique |
| AuthService.Candidates | app/services/auth_service.py:76-81 | the plain address comes first, then one suffixed address per random token |
| AuthService.FirstFree | app/services/auth_service.py:77-81 | the first candidate no account uses, or none when all are taken |
| AuthService.PickEmail | app/services/auth_service.py:76-81 | the loop ends at the first free candidate |
| AuthService.FirstFreeSkip | app/services/auth_service.py:78-81 | a taken candidate is skipped |
| AuthService.FarmerLoginOrRegister | app/services/auth_service.py:66-95 | 400 for a bad phone, then for an empty name; an existing farmer with that phone is renamed; otherwise a farmer is created under the first free address; either way the sign-in time is recorded |
| AuthService.PhoneLoginKeepsValid | app/services/auth_service.py:66-95 | renaming a farmer, or creating one under a free address, keeps users valid |
| AuthService.FarmerByPhoneUnique | app/services/auth_service.py:40-45 | among valid users a phone number names at most one farmer |
| AuthService.AuthenticateUser | app/services/auth_service.py:98-128 | 401 for an unknown e-mail; otherwise the outcome of the password check against that account |
| AuthService.SignIn | app/services/auth_service.py:100-128 | the account's sign-in writes exactly what `SignInOutcome` describes |
| AuthService.SignInOutcome | app/services/auth_service.py:100-128 | succeeds exactly when a checker accepts the password and the account is active; 403 when inactive and 401 for a bad password; only that account's row changes, never its e-mail, phone or role |
| AuthService.SignInKeepsValid | app/services/auth_service.py:98-128 | a sign-in keeps users valid |
| AuthService.EmailTaken | app/services/auth_service.py:37-39 | defines the e-mail uniqueness test of `register_user` |
| AuthService.FarmerWithPhone | app/services/auth_service.py:40-45 | defines the farmer phone test of `register_user`: some user with the farmer role has the phone |
| ChatService.Thread | app/services/chat_service.py:18-23 | exactly the booking's messages |
| ChatService.InsertByTime | app/services/chat_service.py:20 | insertion adds the message and loses none |
| ChatService.InsertKeepsSorted | app/services/chat_service.py:20 | insertion keeps time order |
| ChatService.SortByTimeCorrect | app/services/chat_service.py:20 | the sort is a time-ordered permutation |
| ChatService.SortedThread | app/services/chat_service.py:18-21 | the sorted thread is time-ordered and holds exactly the thread's messages |
| ChatService.PageInOrder | app/services/chat_service.py:18-23 | the page is in time order, holds at most 300 messages, and all of them belong to the booking |
| ChatService.PageComplete | app/services/chat_service.py:18-23 | a thread of at most 300 messages is returned whole |
| ChatService.PrefixNotNewer | app/services/chat_service.py:20-21 | in time order, nothing after the cut is older than anything before it |
| ChatService.PrefixHoldsOldest | app/services/chat_service.py:20-21 | a prefix of a time-ordered sequence holds its oldest elements |
| ChatService.FirstPageOldest | app/services/chat_service.py:20-21 | the first 300 elements are the oldest |
| ChatService.PageHoldsOldest | app/services/chat_service.py:18-23 | no message left off the page is older than one on it |
| ChatService.ListMessages | app/services/chat_service.py:12-23 | 404 for an unknown booking before 403 without access; for a known booking the user may see, exactly the page |
| ChatService.PostMessage | app/services/chat_service.py:26-39 | 404, then 403, then 400 for an empty trimmed message; an authorised non-empty post always succeeds, and a success appends the trimmed text stamped now |
| ChatService.PostedJoinsThread | app/services/chat_service.py:33-37 | a posted message joins its booking's thread last and changes no other thread |
| ChatService.CanAccess | app/services/chat_service.py:8-9 | defines `can_access_booking_chat`: an admin, the farmer or the owner |
| ChatService.Page | app/services/chat_service.py:18-23 | defines the page `list_messages` returns: the booking's messages by time, at most 300 |
| FileService.ExtensionOf | app/services/file_service.py:19 | there is an extension exactly when the name has a dot, and the extension holds no dot |
| FileService.AllowedByLastExtension | app/services/file_service.py:13-19 | `stem.ext` is allowed exactly when `ext`, lower-cased, is whitelisted, whatever the stem holds |
| FileService.NoDotRejected | app/services/file_service.py:18-19 | a name without a dot is never allowed |
| FileService.UploadExtension | app/services/file_service.py:22-47 | None without a file name; with one, a 400 exactly when the sanitised name is empty or not whitelisted or the bytes are not an image; otherwise the lower-cased last extension of the sanitised name |
| FileService.Header | app/services/file_service.py:54 | the header is the text before the first `base64,` |
| FileService.ExtensionForHeader | app/services/file_service.py:55-60 | jpg exactly for JPEG; otherwise webp exactly for WebP; otherwise png |
| FileService.CameraExtension | app/services/file_service.py:50-60 | None exactly for an empty value or one without the marker; otherwise the extension its header selects |
| FileService.CameraExtensionAllowed | app/services/file_service.py:50-60 | every camera extension passes the upload whitelist |
| FileService.HeaderIgnoresPayload | app/services/file_service.py:54 | what follows the marker cannot change the header |
| FileService.IsAllowed | app/services/file_service.py:18-19 | defines `_is_allowed`: a dot, and a whitelisted last extension in any case (AllowedByLastExtension states it) |
| Dashboard.ArgsOf | app/routes/web/dashboard.py:371-375 | the query arguments are stored stripped |
| Dashboard.Route | app/routes/web/dashboard.py:377-381 | with neither a pincode nor a village, a digit-only term becomes the pincode and any other term the village; nothing to search by exactly when all three are empty |
| Dashboard.Filter | app/routes/web/dashboard.py:383-395 | exactly the listings that match, never more than given |
| Dashboard.FilterOne | app/routes/web/dashboard.py:383-395 | one listing is kept exactly when it matches |
| Dashboard.FilterAppend | app/routes/web/dashboard.py:383-395 | the matches of two runs of listings are the matches of the first followed by those of the second, so the given order is kept |
| Dashboard.HighDemandIsSurge | app/routes/web/dashboard.py:397-406 | the high-demand flag and the booking surcharge agree for every searched pincode |
| Dashboard.Label | app/routes/web/dashboard.py:452-457 | the label ends in `s` exactly when the count is not 1 |
| Dashboard.MessageCountReadsBack | app/routes/web/dashboard.py:450-458 | the message starts with the count's digits followed by a space |
| Dashboard.LabelPriority | app/routes/web/dashboard.py:452-457 | the label is the lower-cased type if given, else the add-on label in add-on mode, else `tractor` |
| Dashboard.Catalog | app/routes/web/dashboard.py:370-447 | at most 50 rows, all from the catalogue and none offline, with a count equal to the number of rows |
| Dashboard.CatalogFacts | app/routes/web/dashboard.py:383-447 | nothing to search by gives an empty answer; otherwise the first min(50, matches) matches, newest first; a village search is never in high demand |
| Dashboard.Matches | app/routes/web/dashboard.py:383-395 | defines the catalogue query filters |
| Dashboard.HighDemand | app/routes/web/dashboard.py:397-406 | defines `high_demand`: a pincode was searched and its pipeline count exceeds the threshold |
| Dashboard.AvailabilityMessage | app/routes/web/dashboard.py:450-458 | defines `_availability_message`: "<count> <label> available in <locality>" |

## Left out

- Concurrency: the model is sequential. The race between the conflict check and the
  insert, the `IntegrityError` fallback of `register_user` (auth_service.py:54-62) and
  concurrent settlement are not modelled.
- Notifications keep only the recipient and the title; the message bodies and their
  delivery are left out.
- The review average (`round(float(...), 2)`, review_service.py:53-54) is floating point.
  Only the rating count is modelled.
- Password hashing is passed in: the two hash checkers (`bcryptOk`, `legacyOk`) and the
  replacement hash (`rehash`) are parameters, and so is the new hash in registration.
- FarmerLoginOrRegister: the random e-mail suffixes are a finite `tokens` parameter. When
  every candidate is taken the model answers 409, while the code keeps drawing.
- `int()` of request input is an `Option<int>` parameter (None where Python raises), for
  the rating and both hour counts, and for each add-on quantity (`AddonPick.qty`, where None
  is read as 0 as the code's `except` does). The 28-digit context precision of `Decimal` is left out.
- Decimals.ParseDecimal: parses plain literals only: optional surrounding whitespace, an
  optional sign, digits and at most one point. Python's `Decimal()` also accepts single
  underscores between digits (`"1_000"`), exponents (`"1E-7"`), `Infinity` and `NaN`; the
  model answers None for these, so `create_tractor` answers 400 and `get_decimal` falls back
  to its default where Python would use the value.
- Decimals.FormatDec: always writes plain notation. Python's `str()` switches to scientific
  notation when the adjusted exponent is below -6 (`str(Decimal("0.0000001")) == "1E-7"`),
  so the text `set_setting` stores for such a value differs. The value read back is the same.
- The `Numeric(10,2)` columns store what the code computes. Storage rounding of a listing
  price with more than two decimals is not modelled.
- Character classes are ASCII: `isdigit`, `\d`, `isspace`, `lower()` and `title()` are
  modelled on ASCII, and `ilike` is an ASCII case-insensitive substring test with no
  wildcard characters.
- Row order: the catalogue receives its listings newest first, as the `ordered`
  parameter. Chat messages with equal times keep their stored order; SQL gives no such
  guarantee.
- Dashboard.Catalog: the per-listing payload (badges, ratings, image, price text) and the
  `equipment_label` field are not modelled; a row is the listing itself.
- `list_tractors` (tractor_service.py:75-79) is pagination over the query and is not
  modelled. `send_otp` (auth_service.py:21-25) answers a constant.
- Uploads: `secure_filename` is a function parameter, and image inspection is a boolean
  parameter. The base64 decode, the dated folders, the uuid names and the file writes are I/O.
- Clocks: `now` (seconds) and `today` (a date) are parameters, and nothing ties the two
  together.
- `create_booking`'s test `end_time <= start_time` (booking_service.py:100-101) cannot
  fire once hours are positive, so it is not modelled.
- Statuses are an enumeration; every stored status is one this code writes. A stored
  `rejected` or other unknown text allows no move, as in the code.
- BookingService.CreatedKeepsValid: requires the commission setting to lie in [0, 100]
  (the admin form's range, admin.py:192-194). The service itself does not check it.
- Fields read as `getattr(..., "")` or absent are modelled as empty strings or None.
