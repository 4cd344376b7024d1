/** src/components/dashboard/AccommodationSelector.tsx: the Booking.com transform, the
    nightly-budget filter, the mock fallback, the budget-tier reply and the selection. */
module AccommodationSelector {
  import opened Wrappers
  import opened Text
  import opened Images
  import Ai
  import TypedReveal

  // ---------------------------------------------------------------------------
  // Records

  datatype HotelLocation = HotelLocation(city: string, address: string)

  datatype HotelPrice = HotelPrice(amount: real, currency: string)

  /** `BookingAccommodation` as the search API returns it. A falsy `type` or `description`
      is the empty string; a missing or `NaN` rating is `None`; a missing `amenities`
      list is `None`. */
  datatype BookingAccommodation = BookingAccommodation(
    hotelId: string,
    name: string,
    types: string,
    location: HotelLocation,
    price: HotelPrice,
    rating: Option<real>,
    images: seq<string>,
    amenities: Option<seq<string>>,
    description: string,
    bookingUrl: string)

  /** `Accommodation`, the displayed record (`types` is the source's `type`). */
  datatype Accommodation = Accommodation(
    id: string,
    name: string,
    types: string,
    location: string,
    price: string,
    rating: real,
    image: string,
    amenities: seq<string>,
    description: string,
    bookingUrl: string)

  datatype BudgetRange = BudgetRange(min: real, max: real, tierLabel: string, description: string)

  datatype DestinationInfo = DestinationInfo(
    name: string,
    budgetRanges: seq<BudgetRange>,
    popularActivities: seq<string>,
    bestTimeToVisit: string,
    averageRating: real)

  /** `destinationData[destination]`: the data of the two destinations it knows, looked up
      by their exact names. */
  function DestinationData(destination: string): Option<DestinationInfo> {
    if destination == "Bali" then
      Some(DestinationInfo(
        "Bali",
        [ BudgetRange(0.0, 50.0, "Budget", "Hostels and " + "local " + "guesthouses"),
          BudgetRange(50.0, 150.0, "Mid-range", "Boutique " + "hotels and " + "villas"),
          BudgetRange(150.0, 500.0, "Luxury", "5-star " + "resorts and " + "private villas") ],
        ["Beach hopping", "Temple visits", "Rice terrace " + "trekking", "Surfing"],
        "April to October",
        4.7))
    else if destination == "Paris" then
      Some(DestinationInfo(
        "Paris",
        [ BudgetRange(0.0, 100.0, "Budget", "Hostels and " + "budget hotels"),
          BudgetRange(100.0, 300.0, "Mid-range", "Boutique hotels"),
          BudgetRange(300.0, 1000.0, "Luxury", "5-star hotels " + "and luxury " + "apartments") ],
        ["Museum visits", "Eiffel Tower", "Seine River cruise", "Shopping"],
        "April to June," + " September to " + "October",
        4.8))
    else None
  }

  // ---------------------------------------------------------------------------
  // The transform

  const DefaultImage := UnsplashImage("photo-" + "1566073771259-" + "6a8506099945")
  const NoDescription := "No " + "description " + "available"

  /** `$${Math.round(amount)}/night`. */
  function FormatPrice(amount: real): string {
    "$" + IntToString(Round(amount)) + "/night"
  }

  function Abs(n: int): nat { if n < 0 then -n else n }

  /** Reading a formatted price back with the filter's parse gives the rounded amount;
      a minus sign is one of the characters the parse drops. */
  lemma FormatPriceParsesBack(amount: real)
    ensures ParseNumber(FormatPrice(amount)) == Some(Abs(Round(amount)) as real)
  {
    var n := Round(amount);
    var digits := NatToString(Abs(n));
    NatToStringValue(Abs(n));
    var prefix := if n < 0 then "$-" else "$";
    assert FormatPrice(amount) == prefix + digits + "/night";
    ParseNumberOfDigits(prefix, digits, "/night");
  }

  /** The `data.result.map(...)` callback. */
  function ToAccommodation(h: BookingAccommodation): Accommodation {
    Accommodation(
      h.hotelId,
      h.name,
      if h.types == "" then "Hotel" else h.types,
      h.location.city + ", " + h.location.address,
      FormatPrice(h.price.amount),
      if h.rating.None? then 0.0 else h.rating.value,
      if h.images == [] || h.images[0] == "" then DefaultImage else h.images[0],
      if h.amenities.None? then [] else h.amenities.value,
      if h.description == "" then NoDescription else h.description,
      h.bookingUrl)
  }

  /** The transform keeps the identity of the hotel, prints its price per night, and puts
      the placeholders where the hotel's own value is falsy. */
  lemma ToAccommodationDefaults(h: BookingAccommodation)
    ensures var a := ToAccommodation(h);
      a.id == h.hotelId && a.name == h.name && a.bookingUrl == h.bookingUrl &&
      (a.types == "Hotel" <==> h.types == "" || h.types == "Hotel") &&
      (h.types != "" ==> a.types == h.types) &&
      (h.rating.None? ==> a.rating == 0.0) &&
      (h.description == "" ==> a.description == NoDescription) &&
      ParseNumber(a.price) == Some(Abs(Round(h.price.amount)) as real)
  {
    FormatPriceParsesBack(h.price.amount);
  }

  function TransformAll(hotels: seq<BookingAccommodation>): (r: seq<Accommodation>)
    ensures |r| == |hotels|
  {
    if hotels == [] then [] else [ToAccommodation(hotels[0])] + TransformAll(hotels[1..])
  }

  /** The transform maps each hotel to the record at the same position. */
  lemma {:induction false} TransformAllPointwise(hotels: seq<BookingAccommodation>)
    ensures forall i :: 0 <= i < |hotels| ==> TransformAll(hotels)[i] == ToAccommodation(hotels[i])
  {
    if hotels != [] {
      var tail := hotels[1..];
      TransformAllPointwise(tail);
      forall i | 0 <= i < |hotels| ensures TransformAll(hotels)[i] == ToAccommodation(hotels[i]) {
        if i > 0 {
          assert hotels[i] == tail[i - 1];
          assert TransformAll(hotels)[i] == TransformAll(tail)[i - 1];
        }
      }
    }
  }

  // ---------------------------------------------------------------------------
  // The budget filter

  /** The filter's test: the price text parses to a number no greater than the nightly
      budget `budget / 7` (a `NaN` price fails every comparison). */
  predicate WithinBudget(a: Accommodation, budget: real) {
    match ParseNumber(a.price)
    case None => false
    case Some(p) => p <= budget / 7.0
  }

  /** Over the reals the nightly comparison is exactly `7 * price <= budget`. */
  lemma WithinBudgetIffSeven(a: Accommodation, budget: real)
    ensures WithinBudget(a, budget) <==>
      ParseNumber(a.price).Some? && 7.0 * ParseNumber(a.price).value <= budget
  {
  }

  /** A transformed hotel is kept exactly when seven nights at its rounded price fit the budget. */
  lemma TransformedWithinBudget(h: BookingAccommodation, budget: real)
    ensures WithinBudget(ToAccommodation(h), budget) <==> 7.0 * Abs(Round(h.price.amount)) as real <= budget
  {
    FormatPriceParsesBack(h.price.amount);
  }

  /** `transformedAccommodations.filter(...)`. */
  function FilterByBudget(xs: seq<Accommodation>, budget: real): (r: seq<Accommodation>)
    ensures |r| <= |xs|
  {
    if xs == [] then []
    else (if WithinBudget(xs[0], budget) then [xs[0]] else []) + FilterByBudget(xs[1..], budget)
  }

  /** `a` is `b` with some elements left out, the rest in their order. */
  predicate Subsequence<T(==)>(a: seq<T>, b: seq<T>)
    decreases |b|
  {
    if b == [] then a == []
    else (a != [] && a[0] == b[0] && Subsequence(a[1..], b[1..])) || Subsequence(a, b[1..])
  }

  /** The filter keeps an order-preserving subsequence of its input. */
  lemma {:induction false} FilterIsSubsequence(xs: seq<Accommodation>, budget: real)
    ensures Subsequence(FilterByBudget(xs, budget), xs)
  {
    if xs != [] {
      var rest := FilterByBudget(xs[1..], budget);
      FilterIsSubsequence(xs[1..], budget);
      if WithinBudget(xs[0], budget) {
        assert FilterByBudget(xs, budget) == [xs[0]] + rest;
        assert ([xs[0]] + rest)[1..] == rest;
      } else {
        assert FilterByBudget(xs, budget) == rest;
      }
    }
  }

  /** A record is in the filtered list exactly when it is in the input and within budget. */
  lemma {:induction false} FilterKeepsExactly(xs: seq<Accommodation>, budget: real, x: Accommodation)
    ensures x in FilterByBudget(xs, budget) <==> x in xs && WithinBudget(x, budget)
  {
    if xs != [] {
      FilterKeepsExactly(xs[1..], budget, x);
      assert xs == [xs[0]] + xs[1..];
      assert x in xs <==> x == xs[0] || x in xs[1..];
    }
  }

  /** A list whose records are all within budget passes unchanged. */
  lemma {:induction false} FilterKeepsAllWithin(xs: seq<Accommodation>, budget: real)
    requires forall i :: 0 <= i < |xs| ==> WithinBudget(xs[i], budget)
    ensures FilterByBudget(xs, budget) == xs
  {
    if xs != [] {
      assert forall i :: 0 <= i < |xs[1..]| ==> xs[1..][i] == xs[i + 1];
      FilterKeepsAllWithin(xs[1..], budget);
    }
  }

  /** A list whose records are all over budget filters to the empty list. */
  lemma {:induction false} FilterDropsAllOver(xs: seq<Accommodation>, budget: real)
    requires forall i :: 0 <= i < |xs| ==> !WithinBudget(xs[i], budget)
    ensures FilterByBudget(xs, budget) == []
  {
    if xs != [] {
      assert forall i :: 0 <= i < |xs[1..]| ==> xs[1..][i] == xs[i + 1];
      FilterDropsAllOver(xs[1..], budget);
    }
  }

  // ---------------------------------------------------------------------------
  // The mock fallback

  function NightlyBudget(budget: real): real { budget / 7.0 }
  function LuxuryPrice(budget: real): real { Min(NightlyBudget(budget) * 0.6, 500.0) }
  function MidRangePrice(budget: real): real { Min(NightlyBudget(budget) * 0.4, 300.0) }
  function BudgetPrice(budget: real): real { Min(NightlyBudget(budget) * 0.25, 150.0) }

  /** The four records of `generateMockAccommodations`, each with its price text. */
  function GrandHotel(price: string): Accommodation {
    Accommodation(
      "1", "Grand Hotel", "Luxury Hotel", "City Center", price, 4.8,
      UnsplashImage("photo-" + "1566073771259-" + "6a8506099945"),
      ["Free WiFi", "Swimming Pool", "Spa", "Restaurant", "Gym", "Concierge", "Valet Parking"],
      "Luxurious " + "hotel in the " + "heart of the " + "city with " + "stunning " + "views and " + "premium " + "amenities.",
      "https://" + "booking.com")
  }

  function BoutiqueHotel(price: string): Accommodation {
    Accommodation(
      "2", "Cozy Boutique " + "Hotel", "Boutique Hotel", "Historic District", price, 4.6,
      UnsplashImage("photo-" + "1551882547-" + "ff40c63fe5fa"),
      ["Free WiFi", "Breakfast", "Bar", "Room Service", "Business Center"],
      "Charming " + "boutique " + "hotel with " + "unique design " + "and " + "personalized " + "service.",
      "https://" + "booking.com")
  }

  function SeasideResort(price: string): Accommodation {
    Accommodation(
      "3", "Seaside Resort", "Resort", "Beachfront", price, 4.9,
      UnsplashImage("photo-" + "1520250497591-" + "112f2f40a3f4"),
      ["Private Beach", "Multiple Pools", "Spa", "Water Sports", "Multiple " + "Restaurants", "Kids Club"],
      "Exclusive " + "beachfront " + "resort with " + "private beach " + "access and " + "luxury " + "amenities.",
      "https://" + "booking.com")
  }

  function MountainLodge(price: string): Accommodation {
    Accommodation(
      "4", "Mountain View " + "Lodge", "Lodge", "Mountain Area", price, 4.7,
      UnsplashImage("photo-" + "1542314831-" + "068cd1dbfeeb"),
      ["Scenic Views", "Hiking Trails", "Restaurant", "Fireplace", "Free Parking"],
      "Rustic lodge " + "with " + "breathtaking " + "mountain " + "views and " + "outdoor " + "activities.",
      "https://" + "booking.com")
  }

  /** `generateMockAccommodations(budget)`. */
  function MockAccommodations(budget: real): seq<Accommodation> {
    [ GrandHotel(FormatPrice(LuxuryPrice(budget))),
      BoutiqueHotel(FormatPrice(MidRangePrice(budget))),
      SeasideResort(FormatPrice(LuxuryPrice(budget) * 0.9)),
      MountainLodge(FormatPrice(BudgetPrice(budget))) ]
  }

  /** The mock list has four records with ids '1' to '4'; the first three are priced from
      the luxury tier (the resort at nine tenths of it) and the fourth from the budget tier. */
  lemma MockShape(budget: real)
    ensures var m := MockAccommodations(budget);
      |m| == 4 && m[0].id == "1" && m[1].id == "2" && m[2].id == "3" && m[3].id == "4" &&
      m[0].price == FormatPrice(LuxuryPrice(budget)) &&
      m[1].price == FormatPrice(MidRangePrice(budget)) &&
      m[2].price == FormatPrice(LuxuryPrice(budget) * 0.9) &&
      m[3].price == FormatPrice(BudgetPrice(budget))
  {
  }

  /** The tier prices are capped at 500, 300 and 150 a night, and below the caps they are
      60, 40 and 25 percent of the nightly budget. The caps start to bind at weekly budgets
      of 3500 / 0.6, 5250 and 4200. */
  lemma TierCaps(budget: real)
    ensures LuxuryPrice(budget) <= 500.0 && MidRangePrice(budget) <= 300.0 && BudgetPrice(budget) <= 150.0
    ensures budget <= 7.0 * 500.0 / 0.6 ==> LuxuryPrice(budget) == budget / 7.0 * 0.6
    ensures budget <= 7.0 * 750.0 ==> MidRangePrice(budget) == budget / 7.0 * 0.4
    ensures budget <= 7.0 * 600.0 ==> BudgetPrice(budget) == budget / 7.0 * 0.25
    ensures budget >= 7.0 * 500.0 / 0.6 ==> LuxuryPrice(budget) == 500.0
    ensures budget >= 7.0 * 750.0 ==> MidRangePrice(budget) == 300.0
    ensures budget >= 7.0 * 600.0 ==> BudgetPrice(budget) == 150.0
  {
  }

  /** For a positive budget the mock prices never increase from luxury to resort, and
      never decrease from the lodge to the boutique hotel to the grand hotel. */
  lemma MockPricesOrdered(budget: real)
    requires budget > 0.0
    ensures Round(BudgetPrice(budget)) <= Round(MidRangePrice(budget)) <= Round(LuxuryPrice(budget))
    ensures Round(LuxuryPrice(budget) * 0.9) <= Round(LuxuryPrice(budget))
  {
    RoundMonotonic(BudgetPrice(budget), MidRangePrice(budget));
    RoundMonotonic(MidRangePrice(budget), LuxuryPrice(budget));
    RoundMonotonic(LuxuryPrice(budget) * 0.9, LuxuryPrice(budget));
  }

  lemma RoundMonotonic(x: real, y: real)
    requires x <= y
    ensures Round(x) <= Round(y)
  {
    assert (x + 0.5).Floor <= (y + 0.5).Floor;
  }

  // ---------------------------------------------------------------------------
  // fetchAccommodations

  const FetchFailure := "Failed to " + "fetch " + "accommodations. " + "Please try " + "again later."

  /** The effect runs the fetch only for a non-empty destination and a positive budget. */
  predicate ShouldFetch(context: Ai.TravelContext) {
    context.destination != "" && context.budget > 0.0
  }

  /** What the fetch stores: the list and the error text. */
  datatype FetchResult = FetchResult(accommodations: seq<Accommodation>, error: Option<string>)

  /** The try block's outcome: the filtered transform of an ok response, or, when the
      response is not ok or anything throws, the error text and the mock list. */
  function FetchAccommodations(outcome: FetchOutcome<seq<BookingAccommodation>>, budget: real): FetchResult {
    match outcome
    case Response(true, hotels) => FetchResult(FilterByBudget(TransformAll(hotels), budget), None)
    case _ => FetchResult(MockAccommodations(budget), Some(FetchFailure))
  }

  /** A failure always stores the error text with the four mock records, and a success
      never does. */
  lemma FailureGivesMock(outcome: FetchOutcome<seq<BookingAccommodation>>, budget: real)
    ensures FetchAccommodations(outcome, budget).error.Some? <==> !(outcome.Response? && outcome.ok)
    ensures !(outcome.Response? && outcome.ok) ==>
      FetchAccommodations(outcome, budget) == FetchResult(MockAccommodations(budget), Some(FetchFailure))
  {
  }

  /** A successful response whose hotels are all over budget stores the empty list as it
      is: no mock records, no error. */
  lemma EmptyKeptAsIs(hotels: seq<BookingAccommodation>, budget: real)
    requires forall i :: 0 <= i < |hotels| ==> 7.0 * Abs(Round(hotels[i].price.amount)) as real > budget
    ensures FetchAccommodations(Response(true, hotels), budget) == FetchResult([], None)
  {
    var xs := TransformAll(hotels);
    TransformAllPointwise(hotels);
    forall i | 0 <= i < |xs| ensures !WithinBudget(xs[i], budget) {
      TransformedWithinBudget(hotels[i], budget);
    }
    FilterDropsAllOver(xs, budget);
  }

  /** A successful response stores exactly the transformed hotels that fit the budget. */
  lemma SuccessKeepsFitting(hotels: seq<BookingAccommodation>, budget: real, a: Accommodation)
    ensures var r := FetchAccommodations(Response(true, hotels), budget);
      r.error == None &&
      (a in r.accommodations <==> a in TransformAll(hotels) && WithinBudget(a, budget)) &&
      Subsequence(r.accommodations, TransformAll(hotels))
  {
    FilterKeepsExactly(TransformAll(hotels), budget, a);
    FilterIsSubsequence(TransformAll(hotels), budget);
  }

  // ---------------------------------------------------------------------------
  // The budget-tier reply

  predicate InRange(r: BudgetRange, budget: real) { r.min <= budget <= r.max }

  /** `budgetRanges.find(range => budget >= range.min && budget <= range.max)`. */
  function FindTier(ranges: seq<BudgetRange>, budget: real): Option<BudgetRange> {
    if ranges == [] then None
    else if InRange(ranges[0], budget) then Some(ranges[0])
    else FindTier(ranges[1..], budget)
  }

  /** The tier found is the first range that holds the budget; none is found exactly when
      no range holds it. */
  lemma {:induction false} FindTierFirst(ranges: seq<BudgetRange>, budget: real)
    ensures FindTier(ranges, budget).None? <==> forall i :: 0 <= i < |ranges| ==> !InRange(ranges[i], budget)
    ensures FindTier(ranges, budget).Some? ==>
      exists i :: (0 <= i < |ranges| && FindTier(ranges, budget) == Some(ranges[i]) &&
        InRange(ranges[i], budget) && forall j :: 0 <= j < i ==> !InRange(ranges[j], budget))
  {
    if ranges != [] {
      var tail := ranges[1..];
      FindTierFirst(tail, budget);
      assert forall i :: 1 <= i < |ranges| ==> ranges[i] == tail[i - 1];
      if !InRange(ranges[0], budget) && FindTier(tail, budget).Some? {
        var i :| 0 <= i < |tail| && FindTier(tail, budget) == Some(tail[i]) && InRange(tail[i], budget) &&
          forall j :: 0 <= j < i ==> !InRange(tail[j], budget);
        assert FindTier(ranges, budget) == Some(ranges[i + 1]);
        forall j | 0 <= j < i + 1 ensures !InRange(ranges[j], budget) {
          if j > 0 { assert ranges[j] == tail[j - 1]; }
        }
      }
    }
  }

  /** A budget on a shared boundary goes to the earlier tier: 100 in Paris is 'Budget'. */
  lemma SharedBoundaryGoesToEarlierTier()
    ensures FindTier(DestinationData("Paris").value.budgetRanges, 100.0) == Some(DestinationData("Paris").value.budgetRanges[0])
    ensures FindTier(DestinationData("Bali").value.budgetRanges, 150.0) == Some(DestinationData("Bali").value.budgetRanges[1])
  {
  }

  /** What a chat message says; `Render` gives its exact text. */
  datatype Message =
    | Said(text: string)
    | Welcome
    | Advice(destination: string, budget: real, tier: Option<BudgetRange>, info: DestinationInfo)
    | Generic(request: string)

  datatype ChatLine = ChatLine(speaker: Speaker, message: Message)

  /** The reply to `text`: the tier advice for a destination with data, the generic
      "let me search" reply otherwise. */
  function Reply(context: Ai.TravelContext, text: string): Message {
    var destination := context.destination;
    var data := DestinationData(destination);
    if destination != "" && data.Some? then
      Advice(destination, context.budget, FindTier(data.value.budgetRanges, context.budget), data.value)
    else Generic(text)
  }

  /** Only the exact names 'Bali' and 'Paris' have data: the lookup is case-sensitive. */
  lemma KnownDestinations(destination: string)
    ensures DestinationData(destination).Some? <==> destination == "Bali" || destination == "Paris"
    ensures DestinationData(destination).Some? ==> DestinationData(destination).value.name == destination
  {
  }

  /** A destination with data gets the advice for the first tier holding the budget; any
      other destination, the empty one included, gets the generic reply carrying the text. */
  lemma ReplyPicksTier(context: Ai.TravelContext, text: string)
    ensures DestinationData(context.destination).Some? ==>
      Reply(context, text) == Advice(context.destination, context.budget,
        FindTier(DestinationData(context.destination).value.budgetRanges, context.budget),
        DestinationData(context.destination).value)
    ensures DestinationData(context.destination).None? ==> Reply(context, text) == Generic(text)
  {
  }

  function TierLabel(tier: Option<BudgetRange>): string {
    if tier.Some? && tier.value.tierLabel != "" then tier.value.tierLabel else "Custom"
  }

  function TierDescription(tier: Option<BudgetRange>): string {
    if tier.Some? && tier.value.description != "" then tier.value.description else "Custom " + "accommodations"
  }

  const WelcomeText := "I can help " + "you find the " + "perfect " + "destination " + "based on your " + "preferences. " + "Just let me " + "know what " + "you're " + "looking for!"

  // The emoji in this component's reply and guide texts are stored in the source file as
  // their UTF-8 bytes read back as Mac OS Roman characters, so each shows as three or four
  // characters. The markers below are those characters, as the file holds them.

  /** Stored for U+1F4B0 (money bag). */
  const MoneyMark := "\U{F8FF}\U{00FC}\U{00ED}\U{221E}"
  /** Stored for U+1F4DD (memo). */
  const MemoMark := "\U{F8FF}\U{00FC}\U{00EC}\U{00F9}"
  /** Stored for U+1F3AF (direct hit). */
  const TargetMark := "\U{F8FF}\U{00FC}\U{00E9}\U{00D8}"
  /** Stored for U+1F4C5 (calendar). */
  const CalendarMark := "\U{F8FF}\U{00FC}\U{00EC}\U{00D6}"
  /** Stored for U+2B50 (star). */
  const StarMark := "\U{201A}\U{2260}\U{00EA}"
  /** Stored for U+1F389 (party popper). */
  const PartyMark := "\U{F8FF}\U{00FC}\U{00E9}\U{00E2}"
  /** Stored for U+1F3E8 (hotel). */
  const HotelMark := "\U{F8FF}\U{00FC}\U{00E8}\U{00AE}"
  /** Stored for U+1F4CD (round pushpin). */
  const PinMark := "\U{F8FF}\U{00FC}\U{00EC}\U{00E7}"
  /** Stored for U+2728 (sparkles). */
  const SparklesMark := "\U{201A}\U{00FA}\U{00AE}"
  /** Stored for U+2022 (bullet), followed by the space the template puts after it. */
  const BulletMark := "\U{201A}\U{00C4}\U{00A2} "

  function Render(m: Message): string {
    match m
    case Said(text) => text
    case Welcome => WelcomeText
    case Advice(destination, budget, tier, info) =>
      "Based on your " + "budget of $" + NumberToString(budget) + ", I can " + "suggest some " + "great options " + "in " +
      destination + ":\n\n" +
      MoneyMark + " Budget Range: " + TierLabel(tier) + "\n" +
      MemoMark + " " + TierDescription(tier) + "\n\n" +
      TargetMark + " Popular " + "Activities:\n" + Bullets(BulletMark, info.popularActivities) + "\n\n" +
      CalendarMark + " Best Time " + "to Visit: " + info.bestTimeToVisit + "\n" +
      StarMark + " Average " + "Rating: " + NumberToString(info.averageRating) + "/5\n\n" +
      "Would you " + "like me to " + "show you some " + "specific " + "accommodations " + "in this range?"
    case Generic(request) =>
      "I understand " + "you're " + "interested in " + request + ". Let me " + "search for " + "the perfect " + "accommodations " + "for you..."
  }

  /** The guide revealed after an accommodation is selected (first five amenities). */
  function AccommodationGuide(destination: string, a: Accommodation): string {
    "I've found a " + "perfect place " + "for your stay " + "in " + destination + "! " + PartyMark + "\n\n" +
    HotelMark + " " + a.name + "\n" +
    PinMark + " Location: " + a.location + "\n" +
    MoneyMark + " Price: " + a.price + "\n" +
    StarMark + " Rating: " + NumberToString(a.rating) + "/5\n\n" +
    SparklesMark + " Top " + "Amenities:\n" + Bullets(BulletMark, Take(a.amenities, 5)) + "\n\n" +
    MemoMark + " About:\n" + a.description + "\n\n" +
    "Would you " + "like to book " + "this " + "accommodation?" + " I can help " + "you with the " + "reservation " + "process!"
  }

  // ---------------------------------------------------------------------------
  // Chat and selection

  datatype ChatState = ChatState(chatHistory: seq<ChatLine>, userMessage: string)

  /** `handleSendMessage` with `text` as the value its closure sees, the delayed reply
      already appended: the untrimmed text as the user's line, then the reply. */
  function AfterSend(s: ChatState, text: string, context: Ai.TravelContext): ChatState {
    if IsBlank(text) then s
    else ChatState(s.chatHistory + [ChatLine(User, Said(text))] + [ChatLine(Assistant, Reply(context, text))], "")
  }

  /** A message that is not blank adds exactly the user's line and one reply. */
  lemma SendAppendsTwo(s: ChatState, text: string, context: Ai.TravelContext)
    ensures IsBlank(text) ==> AfterSend(s, text, context) == s
    ensures !IsBlank(text) ==> var log := AfterSend(s, text, context).chatHistory;
      |log| == |s.chatHistory| + 2 && log[..|s.chatHistory|] == s.chatHistory &&
      log[|s.chatHistory|] == ChatLine(User, Said(text)) && log[|s.chatHistory| + 1].speaker == Assistant
  {
  }

  /** `handlePromptClick` as written: the send sees the previous `userMessage`. */
  function AfterPromptClickAsWritten(s: ChatState, query: string, context: Ai.TravelContext): ChatState {
    AfterSend(s.(userMessage := query), s.userMessage, context)
  }

  /** `handlePromptClick` as evidently intended: the query is sent. */
  function AfterPromptClick(s: ChatState, query: string, context: Ai.TravelContext): ChatState {
    AfterSend(s.(userMessage := query), query, context)
  }

  /** With an empty box the written prompt click only fills the box, while the intended one
      logs the query. */
  lemma PromptClickSendsNothing(s: ChatState, query: string, context: Ai.TravelContext)
    requires s.userMessage == ""
    ensures AfterPromptClickAsWritten(s, query, context) == s.(userMessage := query)
    ensures !IsBlank(query) ==> var log := AfterPromptClick(s, query, context).chatHistory;
      |s.chatHistory| < |log| && log[|s.chatHistory|] == ChatLine(User, Said(query))
  {
    assert TrimStart("") == "";
  }

  /** The `onUpdate` patch of a selection: the preferences with the accommodation name
      replaced. */
  function SelectionPatch(context: Ai.TravelContext, a: Accommodation): Ai.ContextPatch {
    Ai.EmptyPatch.(preferences := Some(context.preferences.(accommodation := a.name)))
  }

  /** The patch sets only `preferences`, and there only the accommodation. */
  lemma SelectionPatchKeepsPreferences(context: Ai.TravelContext, a: Accommodation)
    ensures var p := SelectionPatch(context, a);
      p.preferences.Some? && p.preferences.value.accommodation == a.name &&
      p.preferences.value.activities == context.preferences.activities &&
      p.preferences.value.transportation == context.preferences.transportation &&
      p.destination.None? && p.dates.None? && p.budget.None? &&
      p.selectedAccommodation.None? && p.selectedFlight.None? && p.addOns.None?
  {
  }

  class Selector {
    var selectedAccommodation: Option<Accommodation>
    var accommodations: seq<Accommodation>
    var isLoading: bool
    var error: Option<string>
    var chatHistory: seq<ChatLine>
    var userMessage: string
    /** The reveal of `displayedGuide`. */
    const guide: TypedReveal.Reveal

    ghost function Chat(): ChatState
      reads this
    {
      ChatState(chatHistory, userMessage)
    }

    /** The initial state: loading, nothing fetched, the welcome line in the log. */
    constructor ()
      ensures selectedAccommodation == None && accommodations == [] && isLoading && error == None
      ensures Chat() == ChatState([ChatLine(Assistant, Welcome)], "")
      ensures fresh(guide) && guide.Valid() && guide.displayed == "" && !guide.typing
    {
      selectedAccommodation := None;
      accommodations := [];
      isLoading := true;
      error := None;
      chatHistory := [ChatLine(Assistant, Welcome)];
      userMessage := "";
      guide := new TypedReveal.Reveal();
    }

    /** The effect on `[context.destination, context.budget]`, with `outcome` the awaited
      response of the hotel search. Without a destination or a positive budget nothing
      happens; otherwise the list and the error come from the fetch and loading ends. */
    method Refresh(context: Ai.TravelContext, outcome: FetchOutcome<seq<BookingAccommodation>>)
      modifies this
      ensures !ShouldFetch(context) ==>
        accommodations == old(accommodations) && error == old(error) && isLoading == old(isLoading)
      ensures ShouldFetch(context) ==>
        FetchResult(accommodations, error) == FetchAccommodations(outcome, context.budget) && !isLoading
      ensures Chat() == old(Chat()) && selectedAccommodation == old(selectedAccommodation)
    {
      if !ShouldFetch(context) {
        return;
      }
      isLoading := true;
      error := None;
      match outcome {
        case Response(true, hotels) =>
          var transformed := TransformAll(hotels);
          accommodations := FilterByBudget(transformed, context.budget);
        case _ =>
          error := Some(FetchFailure);
          accommodations := MockAccommodations(context.budget);
      }
      isLoading := false;
    }

    method Type(text: string)
      modifies this
      ensures Chat() == old(Chat()).(userMessage := text)
      ensures accommodations == old(accommodations) && selectedAccommodation == old(selectedAccommodation)
      ensures error == old(error) && isLoading == old(isLoading)
    {
      userMessage := text;
    }

    /** `handleSendMessage` with `text` as the value its closure sees for `userMessage`. */
    method Send(text: string, context: Ai.TravelContext)
      modifies this
      ensures Chat() == AfterSend(old(Chat()), text, context)
      ensures accommodations == old(accommodations) && selectedAccommodation == old(selectedAccommodation)
      ensures error == old(error) && isLoading == old(isLoading)
    {
      if IsBlank(text) {
        return;
      }
      chatHistory := chatHistory + [ChatLine(User, Said(text))];
      userMessage := "";
      chatHistory := chatHistory + [ChatLine(Assistant, Reply(context, text))];
    }

    /** Enter or the send button. */
    method SendMessage(context: Ai.TravelContext)
      modifies this
      ensures Chat() == AfterSend(old(Chat()), old(userMessage), context)
      ensures accommodations == old(accommodations) && selectedAccommodation == old(selectedAccommodation)
      ensures error == old(error) && isLoading == old(isLoading)
    {
      Send(userMessage, context);
    }

    /** A prompt chip, as written (see `AfterPromptClickAsWritten`). */
    method PromptClickAsWritten(query: string, context: Ai.TravelContext)
      modifies this
      ensures Chat() == AfterPromptClickAsWritten(old(Chat()), query, context)
      ensures accommodations == old(accommodations) && selectedAccommodation == old(selectedAccommodation)
      ensures error == old(error) && isLoading == old(isLoading)
    {
      var stale := userMessage;
      userMessage := query;
      Send(stale, context);
    }

    /** A prompt chip, sending its query. */
    method PromptClick(query: string, context: Ai.TravelContext)
      modifies this
      ensures Chat() == AfterPromptClick(old(Chat()), query, context)
      ensures accommodations == old(accommodations) && selectedAccommodation == old(selectedAccommodation)
      ensures error == old(error) && isLoading == old(isLoading)
    {
      userMessage := query;
      Send(query, context);
    }

    /** `handleAccommodationSelect`: remembers the record, restarts the guide reveal and
      returns the preference patch for `onUpdate`. */
    method Select(a: Accommodation, context: Ai.TravelContext) returns (patch: Ai.ContextPatch)
      modifies this, guide
      ensures selectedAccommodation == Some(a)
      ensures patch == SelectionPatch(context, a)
      ensures guide.Valid() && guide.guide == AccommodationGuide(context.destination, a) &&
        guide.displayed == "" && guide.typing
      ensures Chat() == old(Chat()) && accommodations == old(accommodations)
      ensures error == old(error) && isLoading == old(isLoading)
    {
      selectedAccommodation := Some(a);
      guide.Start(AccommodationGuide(context.destination, a));
      patch := SelectionPatch(context, a);
    }

    /** `handleConfirm`: completes the step only with a selection. No element of the
        component calls this handler, so the accommodation step is never completed (see
        `TravelPlanner.CompletionAsWritten`). */
    method Confirm() returns (completes: bool)
      ensures completes <==> selectedAccommodation.Some?
    {
      completes := selectedAccommodation.Some?;
    }
  }
}
