/**
 * The public catalogue search: how the search box is routed to a pincode or a village,
 * which listings match, the high-demand flag, and the one-line availability message.
 */
module Dashboard {
  import opened Wrappers
  import opened Text
  import opened Lifecycle
  import opened Entities
  import opened Pricing
  import opened BookingService

  /** The query parameters of `tractors_catalog`, after stripping (and title- or lower-casing). */
  datatype CatalogArgs = CatalogArgs(pincode: string, village: string, equipmentType: string, listingMode: string, searchTerm: string)

  /** The query string as the route normalises it. */
  function ArgsOf(pincode: Option<string>, village: Option<string>, equipmentType: Option<string>,
                  listingMode: Option<string>, q: Option<string>): (a: CatalogArgs)
    ensures Strip(a.pincode) == a.pincode && Strip(a.village) == a.village && Strip(a.searchTerm) == a.searchTerm
  {
    StripIdempotent(OrElse(pincode, ""));
    StripIdempotent(OrElse(village, ""));
    StripIdempotent(OrElse(q, ""));
    CatalogArgs(Strip(OrElse(pincode, "")), Strip(OrElse(village, "")), Title(Strip(OrElse(equipmentType, ""))),
                Lower(Strip(OrElse(listingMode, "all"))), Strip(OrElse(q, "")))
  }

  /**
   * The search-box routing: with neither a pincode nor a village, a search term of digits
   * becomes the pincode and any other term the village; otherwise the term is ignored.
   * The result is the (pincode, village) pair the query uses.
   */
  function Route(a: CatalogArgs): (pv: (string, string))
    ensures a.pincode != [] || a.village != [] || a.searchTerm == [] ==> pv == (a.pincode, a.village)
    ensures a.pincode == [] && a.village == [] && a.searchTerm != [] ==>
      if IsDigits(a.searchTerm) then pv == (a.searchTerm, []) else pv == ([], a.searchTerm)
    ensures pv.0 == [] && pv.1 == [] <==> a.pincode == [] && a.village == [] && a.searchTerm == []
  {
    if a.searchTerm != "" && a.pincode == "" && a.village == "" then
      if IsDigits(a.searchTerm) then (a.searchTerm, a.village) else (a.pincode, a.searchTerm)
    else (a.pincode, a.village)
  }

  /** `ilike '%village%'`: the listing's village contains the term, ignoring ASCII case. */
  predicate VillageMatches(l: Listing, village: string)
  {
    l.village.Some? && Contains(Lower(l.village.value), Lower(village))
  }

  /** The catalogue query: not offline; the pincode (or else the village) matches; the type and the add-on mode filter. */
  predicate Matches(l: Listing, a: CatalogArgs, pincode: string, village: string)
  {
    l.availabilityStatus != "offline"
    && (if pincode != "" then l.pincode == pincode else VillageMatches(l, village))
    && (a.equipmentType != "" ==> l.equipmentType == a.equipmentType)
    && (a.listingMode == "addon" ==> l.equipmentType != "Tractor")
  }

  /** The matching listings, in the order given (newest first). */
  function Filter(ordered: seq<Listing>, a: CatalogArgs, pincode: string, village: string): (out: seq<Listing>)
    ensures |out| <= |ordered|
    ensures forall l :: l in out <==> l in ordered && Matches(l, a, pincode, village)
  {
    if ordered == [] then []
    else
      var rest := Filter(ordered[1..], a, pincode, village);
      assert forall l :: l in ordered <==> l == ordered[0] || l in ordered[1..] by {
        assert ordered == [ordered[0]] + ordered[1..];
      }
      if Matches(ordered[0], a, pincode, village) then [ordered[0]] + rest else rest
  }

  /** One listing is kept exactly when it matches. */
  lemma FilterOne(l: Listing, a: CatalogArgs, pincode: string, village: string)
    ensures Filter([l], a, pincode, village) == if Matches(l, a, pincode, village) then [l] else []
  {
    assert [l][1..] == [];
  }

  /** Filtering keeps the order: the matches of two runs of listings are the matches of each, one after the other. */
  lemma {:induction false} FilterAppend(s: seq<Listing>, t: seq<Listing>, a: CatalogArgs, pincode: string, village: string)
    ensures Filter(s + t, a, pincode, village) == Filter(s, a, pincode, village) + Filter(t, a, pincode, village)
    decreases |s|
  {
    if s == [] {
      assert s + t == t;
    } else {
      assert (s + t)[1..] == s[1..] + t;
      FilterAppend(s[1..], t, a, pincode, village);
    }
  }

  /** `LIMIT 50`. */
  const CatalogLimit: nat := 50

  /** `high_demand`: a pincode was searched and its pipeline bookings exceed the surge threshold. */
  predicate HighDemand(bookings: map<int, Booking>, listings: map<int, Listing>, settings: map<string, string>, pincode: string)
  {
    pincode != "" && PipelineCount(bookings, listings, pincode) > SurgeThreshold(settings)
  }

  /** The badge and the booking surcharge agree: a searched pincode is in high demand exactly when bookings there are surged. */
  lemma HighDemandIsSurge(bookings: map<int, Booking>, listings: map<int, Listing>, settings: map<string, string>, pincode: string)
    requires pincode != ""
    ensures HighDemand(bookings, listings, settings, pincode) <==> SurgeMultiplier(bookings, listings, settings, pincode) == SurgeHigh
  {
    SurgeIff(PipelineCount(bookings, listings, pincode), SurgeThreshold(settings));
  }

  /** The `s` that pluralises a label. */
  function Plural(count: nat): string
  {
    if count != 1 then "s" else ""
  }

  /** The unit label: the lower-cased equipment type, else add-on equipment in add-on mode, else tractors. */
  function Label(count: nat, equipmentType: string, listingMode: string): (words: string)
    ensures words != [] && (words[|words| - 1] == 's' <==> count != 1)
  {
    if equipmentType != "" then Lower(equipmentType) + " unit" + Plural(count)
    else if listingMode == "addon" then "add-on equipment unit" + Plural(count)
    else "tractor" + Plural(count)
  }

  /** Where the message says the units are: the locality, or "your area". */
  function Locality(locality: string): string
  {
    if locality == "" then "your area" else locality
  }

  /** `_availability_message`: "<count> <label> available in <locality>". */
  function AvailabilityMessage(count: nat, locality: string, equipmentType: string, listingMode: string): string
  {
    NatToString(count) + " " + Label(count, equipmentType, listingMode) + " available in " + Locality(locality)
  }

  /** The count can be read back from the start of the message: its digits, up to the first space. */
  lemma MessageCountReadsBack(count: nat, locality: string, equipmentType: string, listingMode: string)
    ensures var msg := AvailabilityMessage(count, locality, equipmentType, listingMode);
      var n := |NatToString(count)|;
      n < |msg| && msg[n] == ' ' && IsDigits(msg[..n]) && DigitsToNat(msg[..n]) == count
  {
    var msg := AvailabilityMessage(count, locality, equipmentType, listingMode);
    var n := |NatToString(count)|;
    assert msg[..n] == NatToString(count);
    NatToStringRoundTrip(count);
  }

  /** A given equipment type names the label, whatever the mode. */
  lemma LabelPriority(count: nat, equipmentType: string, listingMode: string)
    ensures equipmentType != "" ==> Label(count, equipmentType, listingMode)[..|equipmentType|] == Lower(equipmentType)
    ensures equipmentType == "" && listingMode == "addon" ==> Label(count, equipmentType, listingMode)[..21] == "add-on equipment unit"
    ensures equipmentType == "" && listingMode != "addon" ==> Label(count, equipmentType, listingMode)[..7] == "tractor"
  {
  }

  /** The JSON of `tractors_catalog`, without the per-listing fields: the count, the flag, the message and the rows. */
  datatype CatalogView = CatalogView(count: nat, highDemand: bool, message: Option<string>, rows: seq<Listing>)

  /**
   * `tractors_catalog`: no pincode and no village after routing answers an empty result;
   * otherwise at most 50 matching listings, newest first, the high-demand flag and the
   * availability message. `ordered` is the listing table newest first.
   */
  function Catalog(ordered: seq<Listing>, bookings: map<int, Booking>, listings: map<int, Listing>,
                   settings: map<string, string>, a: CatalogArgs): (view: CatalogView)
    ensures view.count == |view.rows| <= CatalogLimit
    ensures forall l :: l in view.rows ==> l in ordered && l.availabilityStatus != "offline"
  {
    var (pincode, village) := Route(a);
    if pincode == "" && village == "" then CatalogView(0, false, None, [])
    else
      var matches := Filter(ordered, a, pincode, village);
      var rows := if |matches| <= CatalogLimit then matches else matches[..CatalogLimit];
      assert forall l :: l in rows ==> l in matches;
      CatalogView(|rows|, HighDemand(bookings, listings, settings, pincode),
                  Some(AvailabilityMessage(|rows|, if pincode != "" then pincode else village, a.equipmentType, a.listingMode)),
                  rows)
  }

  /**
   * The catalogue answers with the first min(50, matches) matching listings; it is empty
   * only when there were no matches or nothing to search by; a village search is never in
   * high demand.
   */
  lemma CatalogFacts(ordered: seq<Listing>, bookings: map<int, Booking>, listings: map<int, Listing>,
                     settings: map<string, string>, a: CatalogArgs)
    ensures var view := Catalog(ordered, bookings, listings, settings, a);
      var (pincode, village) := Route(a);
      && (pincode == "" && village == "" ==> view == CatalogView(0, false, None, []))
      && (pincode != "" || village != "" ==>
            var matches := Filter(ordered, a, pincode, village);
            && view.count == (if |matches| <= CatalogLimit then |matches| else CatalogLimit)
            && view.rows == matches[..view.count]
            && (forall l :: l in view.rows ==> Matches(l, a, pincode, village))
            && (view.highDemand ==> pincode != ""))
  {
    var (pincode, village) := Route(a);
    if pincode != "" || village != "" {
      var matches := Filter(ordered, a, pincode, village);
      assert matches[..|matches|] == matches;
    }
  }
}
