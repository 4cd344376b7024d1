/** src/components/dashboard/DestinationSelector.tsx: the three scrapers, the merge of
    their lists, the transform to display records with its fallback, the acknowledgement
    classifier, the chat routing of `handleSendMessage`, and selection and confirmation. */
module DestinationSelector {
  import opened Wrappers
  import opened Text
  import opened Images
  import Ai
  import TypedReveal

  // ---------------------------------------------------------------------------
  // Records

  datatype Weather = Weather(summer: string, winter: string)

  datatype AverageCost = AverageCost(accommodation: string, food: string, activities: string)

  /** `Destination`, the display record. `types` is the `type` member. */
  datatype Destination = Destination(
    name: string,
    country: string,
    description: string,
    image: string,
    climate: string,
    bestTimeToVisit: string,
    currency: string,
    language: string,
    timeZone: string,
    highlights: seq<string>,
    averageCost: AverageCost,
    weather: Weather,
    visaInfo: string,
    safety: string,
    localTips: seq<string>,
    types: seq<string>)

  /** `ScrapedDestination` as a scraper's JSON body holds it. `weather` is `None` when the
      body lacks it, which makes the transform's `dest.weather.summer` throw. */
  datatype ScrapedDestination = ScrapedDestination(
    name: string,
    country: string,
    description: string,
    image: string,
    types: seq<string>,
    rating: real,
    reviews: int,
    priceRange: string,
    bestTimeToVisit: string,
    weather: Option<Weather>,
    highlights: seq<string>,
    source: string,
    url: string)

  datatype SearchResult = SearchResult(destinations: seq<Destination>, totalResults: int, searchQuery: string)

  /** The awaited responses of the TripAdvisor, Lonely Planet and Booking.com routes. */
  datatype Sources = Sources(
    tripAdvisor: FetchOutcome<seq<ScrapedDestination>>,
    lonelyPlanet: FetchOutcome<seq<ScrapedDestination>>,
    booking: FetchOutcome<seq<ScrapedDestination>>)

  const MockDestinations: seq<Destination> := [
    Destination(
      "Paris", "France",
      "The City of " + "Light, known " + "for its " + "iconic Eiffel " + "Tower, world-" + "class museums," + " and romantic " + "atmosphere.",
      UnsplashImage("photo-" + "1502602898657-" + "3e91760cbb34"),
      "Temperate", "April to June," + " September to " + "October", "Euro (\U{20AC})", "French", "CET (UTC+1)",
      ["Eiffel Tower", "Louvre Museum", "Notre-Dame " + "Cathedral", "Champs-\U{00C9}lys\U{00E9}es", "Montmartre"],
      AverageCost("\U{20AC}150-300/night", "\U{20AC}30-50/day", "\U{20AC}50-100/day"),
      Weather("Warm (20-25\U{00B0}C)", "Cold (5-10\U{00B0}C)"),
      "Schengen visa " + "required for " + "non-EU " + "citizens",
      "Generally " + "safe, but " + "beware of " + "pickpockets " + "in tourist " + "areas",
      ["Learn basic " + "French phrases", "Book museum " + "tickets in " + "advance", "Use the Metro " + "for " + "transportation",
       "Visit cafes " + "for authentic " + "experience", "Avoid " + "restaurants " + "near major " + "attractions"],
      ["urban", "cultural"]),
    Destination(
      "Tokyo", "Japan",
      "A vibrant " + "metropolis " + "where " + "traditional " + "culture meets " + "cutting-edge " + "technology.",
      UnsplashImage("photo-" + "1503899036084-" + "c55cdd92da26"),
      "Humid subtropical", "March to May, " + "September to " + "November", "Japanese Yen (\U{00A5})", "Japanese", "JST (UTC+9)",
      ["Senso-ji Temple", "Shibuya Crossing", "Tokyo Skytree", "Tsukiji Outer " + "Market", "Meiji Shrine"],
      AverageCost("\U{00A5}15,000-30," + "000/night", "\U{00A5}3,000-5,000/day", "\U{00A5}5,000-10,000/day"),
      Weather("Hot and humid " + "(25-35\U{00B0}C)", "Cool (5-15\U{00B0}C)"),
      "Visa-free for " + "many " + "countries, " + "check " + "requirements",
      "Very safe, " + "one of the " + "safest cities " + "in the world",
      ["Get a PASMO/" + "Suica card", "Learn basic " + "Japanese " + "etiquette", "Try local " + "convenience " + "stores",
       "Use Google " + "Maps for " + "navigation", "Visit during " + "cherry " + "blossom season"],
      ["urban", "cultural"]),
    Destination(
      "Bali", "Indonesia",
      "A tropical " + "paradise " + "known for its " + "lush " + "landscapes, " + "vibrant " + "culture, and " + "stunning " + "beaches.",
      UnsplashImage("photo-" + "1537996194471-" + "e657df975ab4"),
      "Tropical", "April to October", "Indonesian " + "Rupiah (IDR)", "Indonesian, " + "Balinese", "WITA (UTC+8)",
      ["Ubud Monkey Forest", "Tegallalang " + "Rice Terraces", "Uluwatu Temple", "Seminyak Beach", "Sacred Monkey " + "Forest"],
      AverageCost("IDR 500,000-1," + "500,000/night", "IDR 100,000-" + "200,000/day", "IDR 200,000-" + "500,000/day"),
      Weather("Warm and dry " + "(25-30\U{00B0}C)", "Warm and wet " + "(23-28\U{00B0}C)"),
      "Visa on " + "arrival for " + "many countries",
      "Generally " + "safe, but be " + "cautious of " + "petty theft",
      ["Respect " + "temple dress " + "codes", "Learn basic " + "Indonesian " + "phrases", "Use Grab/" + "Gojek for " + "transportation",
       "Try local " + "warungs for " + "authentic food", "Visit during " + "dry season"],
      ["beach", "cultural", "nature"])
  ]

  // ---------------------------------------------------------------------------
  // Scrapers

  /** `scrapeTripAdvisor`, `scrapeLonelyPlanet` and `scrapeBookingCom` share one shape:
      the body of an ok response, and `[]` for a non-ok response or a thrown error. No
      outcome makes a scraper fail. */
  function Scrape(outcome: FetchOutcome<seq<ScrapedDestination>>): (r: seq<ScrapedDestination>)
    ensures outcome.Response? && outcome.ok ==> r == outcome.body
    ensures outcome.Thrown? || !outcome.ok ==> r == []
  {
    match outcome
    case Response(ok, body) => if ok then body else []
    case Thrown => []
  }

  /** The three lists concatenated in the order TripAdvisor, Lonely Planet, Booking.com. */
  function AllScraped(sources: Sources): seq<ScrapedDestination> {
    Scrape(sources.tripAdvisor) + Scrape(sources.lonelyPlanet) + Scrape(sources.booking)
  }

  // ---------------------------------------------------------------------------
  // The merge `Array.from(new Map(all.map(d => [d.name + d.country, d])).values())`

  /** The merge key: name and country concatenated, without separator or normalisation. */
  function Key(d: ScrapedDestination): string { d.name + d.country }

  function KeysOf(s: seq<ScrapedDestination>): set<string> {
    set i | 0 <= i < |s| :: Key(s[i])
  }

  lemma KeysOfSnoc(p: seq<ScrapedDestination>, x: ScrapedDestination)
    ensures KeysOf(p + [x]) == KeysOf(p) + {Key(x)}
  {
    var s := p + [x];
    forall k | k in KeysOf(s) ensures k in KeysOf(p) + {Key(x)} {
      var i :| 0 <= i < |s| && Key(s[i]) == k;
      if i < |p| { assert s[i] == p[i]; }
    }
    forall k | k in KeysOf(p) + {Key(x)} ensures k in KeysOf(s) {
      if k == Key(x) { assert Key(s[|p|]) == k; }
      else { var i :| 0 <= i < |p| && Key(p[i]) == k; assert s[i] == p[i]; }
    }
  }

  /** The position of the first record of `s` with key `k`, `|s|` when there is none. */
  function FirstIndexOf(s: seq<ScrapedDestination>, k: string): (r: nat)
    ensures r <= |s|
    ensures r < |s| ==> Key(s[r]) == k
    ensures forall i :: 0 <= i < r ==> Key(s[i]) != k
  {
    if s == [] then 0 else if Key(s[0]) == k then 0 else 1 + FirstIndexOf(s[1..], k)
  }

  /** The last record of `s` with key `k`. */
  function LastWithKey(s: seq<ScrapedDestination>, k: string): (r: Option<ScrapedDestination>)
    ensures r.None? <==> k !in KeysOf(s)
    ensures r.Some? ==> Key(r.value) == k && r.value in s
  {
    if s == [] then None
    else
      var p := s[..|s| - 1];
      assert s == p + [s[|s| - 1]];
      KeysOfSnoc(p, s[|s| - 1]);
      if Key(s[|s| - 1]) == k then Some(s[|s| - 1]) else LastWithKey(p, k)
  }

  /** A JavaScript `Map`: its keys in insertion order and the value held under each key. */
  datatype OrderedMap = OrderedMap(keys: seq<string>, values: map<string, ScrapedDestination>)

  /** `map.set(k, v)`: a new key goes to the end, a known key keeps its place and takes the new value. */
  function MapSet(m: OrderedMap, k: string, v: ScrapedDestination): OrderedMap {
    OrderedMap(if k in m.values then m.keys else m.keys + [k], m.values[k := v])
  }

  /** `new Map(entries)` for the entries `[Key(d), d]` of `s`, set left to right. */
  function MapOfEntries(s: seq<ScrapedDestination>): (m: OrderedMap)
    ensures forall k :: k in m.values <==> k in m.keys
    ensures forall i, j :: 0 <= i < j < |m.keys| ==> m.keys[i] != m.keys[j]
  {
    if s == [] then OrderedMap([], map[])
    else MapSet(MapOfEntries(s[..|s| - 1]), Key(s[|s| - 1]), s[|s| - 1])
  }

  /** Position of a key after one more record: a known key keeps its first position. */
  lemma FirstIndexOfSnoc(p: seq<ScrapedDestination>, x: ScrapedDestination, k: string)
    ensures k in KeysOf(p) ==> FirstIndexOf(p + [x], k) == FirstIndexOf(p, k) < |p|
    ensures k !in KeysOf(p) && k == Key(x) ==> FirstIndexOf(p + [x], k) == |p|
  {
    var s := p + [x];
    if k in KeysOf(p) {
      var w :| 0 <= w < |p| && Key(p[w]) == k;
      var r := FirstIndexOf(p, k);
      assert r <= w;
      assert s[r] == p[r];
      var r' := FirstIndexOf(s, k);
      assert r' <= r;
      assert r' < |p| ==> s[r'] == p[r'];
    } else if k == Key(x) {
      forall i | 0 <= i < |p| ensures Key(s[i]) != k {
        assert s[i] == p[i];
        assert Key(p[i]) in KeysOf(p);
      }
      assert Key(s[|p|]) == k;
    }
  }

  /** After the entries of `s` the map holds exactly the keys of `s`, at most one per record. */
  lemma {:induction false} MapOfEntriesKeys(s: seq<ScrapedDestination>)
    ensures |MapOfEntries(s).keys| <= |s|
    ensures forall k :: k in MapOfEntries(s).values <==> k in KeysOf(s)
  {
    if s != [] {
      var p := s[..|s| - 1];
      assert s == p + [s[|s| - 1]];
      MapOfEntriesKeys(p);
      KeysOfSnoc(p, s[|s| - 1]);
    }
  }

  /** After the entries of `s` each key holds its last record. */
  lemma {:induction false} MapOfEntriesValues(s: seq<ScrapedDestination>)
    ensures forall k :: k in MapOfEntries(s).values ==> LastWithKey(s, k) == Some(MapOfEntries(s).values[k])
  {
    if s != [] {
      var p := s[..|s| - 1];
      var x := s[|s| - 1];
      MapOfEntriesValues(p);
      var m := MapOfEntries(s);
      forall k | k in m.values
        ensures LastWithKey(s, k) == Some(m.values[k])
      {
        if k != Key(x) {
          assert LastWithKey(s, k) == LastWithKey(p, k);
          assert m.values[k] == MapOfEntries(p).values[k];
        }
      }
    }
  }

  /** After the entries of `s` the keys are listed in the order of their first occurrence. */
  lemma {:induction false} MapOfEntriesOrder(s: seq<ScrapedDestination>)
    ensures forall i, j :: 0 <= i < j < |MapOfEntries(s).keys| ==>
      FirstIndexOf(s, MapOfEntries(s).keys[i]) < FirstIndexOf(s, MapOfEntries(s).keys[j])
  {
    if s != [] {
      var p := s[..|s| - 1];
      var x := s[|s| - 1];
      assert s == p + [x];
      MapOfEntriesOrder(p);
      MapOfEntriesKeys(p);
      var mp := MapOfEntries(p);
      var m := MapOfEntries(s);
      forall k | k in mp.keys
        ensures FirstIndexOf(s, k) == FirstIndexOf(p, k) < |p|
      {
        FirstIndexOfSnoc(p, x, k);
      }
      if Key(x) !in mp.values {
        FirstIndexOfSnoc(p, x, Key(x));
        assert m.keys == mp.keys + [Key(x)];
      }
    }
  }

  /** `Array.from(map.values())`. */
  function MapValues(m: OrderedMap): (r: seq<ScrapedDestination>)
    requires forall i :: 0 <= i < |m.keys| ==> m.keys[i] in m.values
    ensures |r| == |m.keys|
    ensures forall i :: 0 <= i < |r| ==> r[i] == m.values[m.keys[i]]
  {
    seq(|m.keys|, i requires 0 <= i < |m.keys| => m.values[m.keys[i]])
  }

  /** The deduplication of `fetchDestinations` (see `MergeByKeySpec`). */
  function MergeByKey(all: seq<ScrapedDestination>): seq<ScrapedDestination> {
    MapValues(MapOfEntries(all))
  }

  /** The merged records line up with the map's keys, and each is its key's last record. */
  lemma MergeKeysAligned(all: seq<ScrapedDestination>)
    ensures |MergeByKey(all)| == |MapOfEntries(all).keys|
    ensures forall j :: 0 <= j < |MergeByKey(all)| ==>
      Key(MergeByKey(all)[j]) == MapOfEntries(all).keys[j] &&
      LastWithKey(all, Key(MergeByKey(all)[j])) == Some(MergeByKey(all)[j])
  {
    var m := MapOfEntries(all);
    MapOfEntriesValues(all);
    var r := MergeByKey(all);
    forall j | 0 <= j < |r|
      ensures Key(r[j]) == m.keys[j] && LastWithKey(all, Key(r[j])) == Some(r[j])
    {
      assert LastWithKey(all, m.keys[j]) == Some(r[j]);
    }
  }

  /** The merge keeps exactly the keys of `all`. */
  lemma MergeKeepsKeys(all: seq<ScrapedDestination>)
    ensures KeysOf(MergeByKey(all)) == KeysOf(all)
  {
    var m := MapOfEntries(all);
    var r := MergeByKey(all);
    MapOfEntriesKeys(all);
    MergeKeysAligned(all);
    forall k | k in KeysOf(r) ensures k in KeysOf(all) {
      var j :| 0 <= j < |r| && Key(r[j]) == k;
      assert m.keys[j] in m.values;
    }
    forall k | k in KeysOf(all) ensures k in KeysOf(r) {
      assert k in m.values;
      var j :| 0 <= j < |m.keys| && m.keys[j] == k;
      assert Key(r[j]) == k;
    }
  }

  /** The merge keeps one record per distinct key of `all`, in the order of each key's
      first occurrence, each being the key's last record, and is never longer than `all`. */
  lemma MergeByKeySpec(all: seq<ScrapedDestination>)
    ensures |MergeByKey(all)| <= |all|
    ensures forall i, j :: 0 <= i < j < |MergeByKey(all)| ==> Key(MergeByKey(all)[i]) != Key(MergeByKey(all)[j])
    ensures KeysOf(MergeByKey(all)) == KeysOf(all)
    ensures forall j :: 0 <= j < |MergeByKey(all)| ==>
      LastWithKey(all, Key(MergeByKey(all)[j])) == Some(MergeByKey(all)[j])
    ensures forall i, j :: 0 <= i < j < |MergeByKey(all)| ==>
      FirstIndexOf(all, Key(MergeByKey(all)[i])) < FirstIndexOf(all, Key(MergeByKey(all)[j]))
  {
    MapOfEntriesKeys(all);
    MapOfEntriesOrder(all);
    MergeKeysAligned(all);
    MergeKeepsKeys(all);
  }

  /** Without repeated keys the merge changes nothing. */
  lemma {:induction false} MergeOfDistinct(all: seq<ScrapedDestination>)
    requires forall i, j :: 0 <= i < j < |all| ==> Key(all[i]) != Key(all[j])
    ensures MergeByKey(all) == all
  {
    MapOfDistinct(all);
    var r := MergeByKey(all);
    assert forall i :: 0 <= i < |r| ==> r[i] == all[i];
  }

  lemma {:induction false} MapOfDistinct(s: seq<ScrapedDestination>)
    requires forall i, j :: 0 <= i < j < |s| ==> Key(s[i]) != Key(s[j])
    ensures |MapOfEntries(s).keys| == |s|
    ensures forall i :: 0 <= i < |s| ==> MapOfEntries(s).keys[i] == Key(s[i])
    ensures forall i :: 0 <= i < |s| ==>
      Key(s[i]) in MapOfEntries(s).values && MapOfEntries(s).values[Key(s[i])] == s[i]
  {
    if s != [] {
      var p := s[..|s| - 1];
      var x := s[|s| - 1];
      assert forall i :: 0 <= i < |p| ==> p[i] == s[i];
      MapOfDistinct(p);
      var mp := MapOfEntries(p);
      assert Key(x) !in mp.keys by {
        forall i | 0 <= i < |p| ensures mp.keys[i] != Key(x) {
          assert mp.keys[i] == Key(s[i]);
        }
      }
      var m := MapOfEntries(s);
      assert m.keys == mp.keys + [Key(x)];
      assert m.values == mp.values[Key(x) := x];
      forall i | 0 <= i < |s|
        ensures m.keys[i] == Key(s[i])
        ensures Key(s[i]) in m.values && m.values[Key(s[i])] == s[i]
      {
        if i < |p| {
          assert Key(s[i]) != Key(x);
          assert mp.keys[i] == Key(p[i]);
        }
      }
    }
  }

  // ---------------------------------------------------------------------------
  // The transform

  const VariesByCountry := "Varies by country"
  const TourismTip := "Check local " + "tourism " + "website for " + "tips"

  /** `weather.summer.split('(')[0].trim()`: the summer description up to its first
      parenthesis, trimmed. */
  function Climate(summer: string): string {
    Trim(BeforeFirst(summer, '('))
  }

  /** The climate holds no parenthesis and neither starts nor ends with whitespace; a
      description without a parenthesis is merely trimmed. */
  lemma ClimateShape(summer: string)
    ensures '(' !in Climate(summer)
    ensures var r := Climate(summer); r == [] || (!IsWhitespace(r[0]) && !IsWhitespace(r[|r| - 1]))
    ensures '(' !in summer ==> Climate(summer) == Trim(summer)
  {
    TrimKeepsCharacters(BeforeFirst(summer, '('));
    if '(' !in summer {
      BeforeFirstAbsent(summer, '(');
    }
  }

  /** Everything before the first parenthesis of `a + "(" + b` is `a`. */
  lemma {:induction false} BeforeFirstParenthesis(a: string, b: string)
    requires '(' !in a
    ensures BeforeFirst(a + "(" + b, '(') == a
  {
    if a != [] {
      assert (a + "(" + b)[1..] == a[1..] + "(" + b;
      BeforeFirstParenthesis(a[1..], b);
    } else {
      assert a + "(" + b == "(" + b;
    }
  }

  /** A summer description of the form "Warm (20-25°C)" gives the climate "Warm". */
  lemma ClimateOfLabelledRange(word: string, degrees: string)
    requires word != [] && '(' !in word
    requires !IsWhitespace(word[0]) && !IsWhitespace(word[|word| - 1])
    ensures Climate(word + " (" + degrees) == word
  {
    assert word + " (" + degrees == (word + " ") + "(" + degrees;
    BeforeFirstParenthesis(word + " ", degrees);
    var t := word + " ";
    assert TrimStart(t) == t;
    assert t[..|t| - 1] == word;
    assert TrimEnd(t) == TrimEnd(word);
  }

  /** The mapping of one merged record. `None` when the record has no weather, where the
      source's `dest.weather.summer` throws. */
  function ToDestination(d: ScrapedDestination): (r: Option<Destination>)
    ensures r.None? <==> d.weather.None?
  {
    match d.weather
    case None => None
    case Some(w) =>
      Some(Destination(
        d.name, d.country, d.description, d.image, Climate(w.summer), d.bestTimeToVisit,
        VariesByCountry, VariesByCountry, VariesByCountry, d.highlights,
        AverageCost(d.priceRange, "Varies", "Varies"), w,
        "Check local " + "embassy " + "website", "Check travel " + "advisories", [TourismTip], d.types))
  }

  /** The transform copies the record's own members, derives the climate from the summer
      weather and the accommodation cost from the price range, and fills the rest with
      placeholders. */
  lemma ToDestinationCopies(d: ScrapedDestination)
    requires d.weather.Some?
    ensures var v := ToDestination(d).value;
      v.name == d.name && v.country == d.country &&
      v.description == d.description && v.image == d.image &&
      v.types == d.types && v.highlights == d.highlights &&
      v.bestTimeToVisit == d.bestTimeToVisit && v.weather == d.weather.value &&
      v.climate == Climate(d.weather.value.summer) &&
      v.averageCost.accommodation == d.priceRange &&
      v.currency == VariesByCountry && v.language == VariesByCountry &&
      v.timeZone == VariesByCountry && v.localTips == [TourismTip]
  {
  }

  /** The transform of the whole merged list throws when any record lacks its weather. */
  predicate TransformThrows(merged: seq<ScrapedDestination>) {
    exists i :: 0 <= i < |merged| && merged[i].weather.None?
  }

  /** `uniqueDestinations.map(...)`: every record transformed, or `None` if one throws. */
  function TransformAll(merged: seq<ScrapedDestination>): (r: Option<seq<Destination>>)
    ensures r.Some? ==> |r.value| == |merged|
  {
    if merged == [] then Some([])
    else
      match (ToDestination(merged[0]), TransformAll(merged[1..]))
      case (Some(head), Some(rest)) => Some([head] + rest)
      case _ => None
  }

  /** A transform that does not throw maps each merged record to the destination at the
      same position. */
  lemma {:induction false} TransformAllPointwise(merged: seq<ScrapedDestination>)
    ensures TransformAll(merged).Some? ==>
      forall i :: 0 <= i < |merged| ==> ToDestination(merged[i]) == Some(TransformAll(merged).value[i])
  {
    if merged != [] && TransformAll(merged).Some? {
      var tail := merged[1..];
      TransformAllPointwise(tail);
      var r := TransformAll(merged).value;
      var rest := TransformAll(tail).value;
      assert r == [ToDestination(merged[0]).value] + rest;
      forall i | 0 <= i < |merged| ensures ToDestination(merged[i]) == Some(r[i]) {
        if i > 0 {
          assert merged[i] == tail[i - 1];
          assert r[i] == rest[i - 1];
        }
      }
    }
  }

  /** The transform fails exactly when some merged record lacks its weather. */
  lemma {:induction false} TransformAllThrows(merged: seq<ScrapedDestination>)
    ensures TransformAll(merged).None? <==> TransformThrows(merged)
  {
    if merged != [] {
      var tail := merged[1..];
      TransformAllThrows(tail);
      if TransformThrows(tail) {
        var i :| 0 <= i < |tail| && tail[i].weather.None?;
        assert merged[i + 1] == tail[i];
      }
      if merged[0].weather.Some? && !TransformThrows(tail) {
        forall i | 0 <= i < |merged| ensures merged[i].weather.Some? {
          if i > 0 { assert merged[i] == tail[i - 1]; }
        }
      }
    }
  }

  /** `fetchDestinations(query)`: the transformed merge of the three lists, or the three
      mock destinations when the transform throws. */
  function FetchDestinations(query: string, sources: Sources): (r: SearchResult)
    ensures r.totalResults == |r.destinations| && r.searchQuery == query
    ensures TransformThrows(MergeByKey(AllScraped(sources))) ==> r.destinations == MockDestinations
    ensures !TransformThrows(MergeByKey(AllScraped(sources))) ==>
      var merged := MergeByKey(AllScraped(sources));
      |r.destinations| == |merged| &&
      forall i :: 0 <= i < |merged| ==> ToDestination(merged[i]) == Some(r.destinations[i])
  {
    TransformAllThrows(MergeByKey(AllScraped(sources)));
    TransformAllPointwise(MergeByKey(AllScraped(sources)));
    match TransformAll(MergeByKey(AllScraped(sources)))
    case None => SearchResult(MockDestinations, |MockDestinations|, query)
    case Some(ds) => SearchResult(ds, |ds|, query)
  }

  /** The mock list comes back exactly when the transform throws: a transformed record
      always has the placeholder currency, which no mock destination has. */
  lemma FallbackOnlyOnThrow(query: string, sources: Sources)
    ensures FetchDestinations(query, sources).destinations == MockDestinations <==>
      TransformThrows(MergeByKey(AllScraped(sources)))
  {
    var merged := MergeByKey(AllScraped(sources));
    if !TransformThrows(merged) && merged != [] {
      assert merged[0].weather.Some?;
      ToDestinationCopies(merged[0]);
    }
  }

  /** Empty (or failed) sources give an empty result, not the mock list. */
  lemma EmptySourcesEmptyResult(query: string, sources: Sources)
    requires Scrape(sources.tripAdvisor) == [] && Scrape(sources.lonelyPlanet) == [] && Scrape(sources.booking) == []
    ensures FetchDestinations(query, sources) == SearchResult([], 0, query)
  {
    assert AllScraped(sources) == [];
  }

  /** A non-fallback result has no two destinations with the same name and country, and
      is no longer than the three lists together. */
  lemma ResultKeysDistinct(query: string, sources: Sources)
    requires !TransformThrows(MergeByKey(AllScraped(sources)))
    ensures var ds := FetchDestinations(query, sources).destinations;
      |ds| <= |AllScraped(sources)| &&
      forall i, j :: 0 <= i < j < |ds| ==> ds[i].name + ds[i].country != ds[j].name + ds[j].country
  {
    var merged := MergeByKey(AllScraped(sources));
    var ds := FetchDestinations(query, sources).destinations;
    MergeByKeySpec(AllScraped(sources));
    forall i, j | 0 <= i < j < |ds| ensures ds[i].name + ds[i].country != ds[j].name + ds[j].country {
      assert ToDestination(merged[i]) == Some(ds[i]);
      assert ToDestination(merged[j]) == Some(ds[j]);
      ToDestinationCopies(merged[i]);
      ToDestinationCopies(merged[j]);
    }
  }

  // ---------------------------------------------------------------------------
  // The acknowledgement classifier `isConversationalResponse`

  const AcknowledgementPhrases: seq<string> := [
    "ok", "okay", "yes", "yeah", "sure", "go on", "continue", "tell me more",
    "thanks", "thank you", "cool", "great", "awesome", "nice", "perfect"]

  /** The lower-cased, trimmed message starts with one of the phrases. */
  predicate IsAcknowledgement(message: string) {
    exists i :: 0 <= i < |AcknowledgementPhrases| && StartsWith(Trim(ToLower(message)), AcknowledgementPhrases[i])
  }

  /** Text that starts with a lower-case word that neither starts nor ends with whitespace
      keeps that word at its front after lower-casing and trimming, whatever follows. */
  lemma {:induction false} LowerTrimKeepsPrefix(p: string, rest: string)
    requires p != [] && !IsWhitespace(p[0]) && !IsWhitespace(p[|p| - 1])
    requires forall i :: 0 <= i < |p| ==> !IsUpper(p[i])
    ensures StartsWith(Trim(ToLower(p + rest)), p)
  {
    var t := ToLower(p + rest);
    assert t[..|p|] == p;
    assert TrimStart(t) == t;
    var e := TrimEnd(t);
    TrimEndCutsWhitespace(t);
    assert |e| >= |p|;
    assert e[..|p|] == t[..|p|];
  }

  /** The classifier is a prefix test: a message that begins with a phrase is an
      acknowledgement, whatever follows it. */
  lemma AcknowledgementIsPrefixTest(phrase: string, rest: string)
    requires phrase in AcknowledgementPhrases
    ensures IsAcknowledgement(phrase + rest)
  {
    LowerTrimKeepsPrefix(phrase, rest);
  }

  /** The letters the phrases start with. */
  const PhraseInitials := "oysgctnap"

  lemma PhraseInitial(p: string)
    requires p in AcknowledgementPhrases
    ensures p != [] && p[0] in PhraseInitials
  {
  }

  /** A message whose lower-cased, trimmed text starts with any other character is a
      search, "Paris" and "Bali" for instance. */
  lemma OtherInitialIsASearch(message: string)
    requires Trim(ToLower(message)) != [] && Trim(ToLower(message))[0] !in PhraseInitials
    ensures !IsAcknowledgement(message)
  {
    var t := Trim(ToLower(message));
    forall p | p in AcknowledgementPhrases ensures !StartsWith(t, p) {
      PhraseInitial(p);
      assert t[0] != p[0];
      assert |p| > |t| || t[..|p|][0] == t[0];
    }
  }

  // ---------------------------------------------------------------------------
  // Chat messages

  /** What a chat message says. The log keeps each message by its content; `Render` gives
      the exact text the component shows for it. */
  datatype Message =
    | Said(text: string)
    | Welcome
    | CategoryQuestion
    | Elaboration(destination: Destination)
    | Searching(query: string)
    | Results(result: SearchResult)

  datatype ChatLine = ChatLine(speaker: Speaker, message: Message)

  /** The bullet in front of each listed tip and place. */
  const Bullet := "\U{2022} "

  const WelcomeMessage := "I can help " + "you find the " + "perfect " + "destination " + "based on your " + "preferences. " + "Just let me " + "know what " + "you're " + "looking for! \U{1F30D}"

  const CategoryExamples :=
    "\U{2022} Beach " + "destinations\n" +
    "\U{2022} Mountain " + "getaways\n" +
    "\U{2022} Cultural cities\n" +
    "\U{2022} Urban " + "adventures\n" +
    "\U{2022} Nature retreats"

  const CategoryPrompt :=
    "Could you " + "tell me more " + "specifically " + "what kind of " + "destination " + "you're " + "looking for? " + "For example:\n" + CategoryExamples

  /** The elaboration of a search's first destination. */
  function ElaborationText(d: Destination): string {
    "Here are more " + "details about " + d.name + ":\n\n" +
    "\U{1F324}\U{FE0F} Climate: " + d.climate + "\n" +
    "\U{23F0} Time Zone: " + d.timeZone + "\n" +
    "\U{1F4AC} Language: " + d.language + "\n" +
    "\U{1F4B0} Currency: " + d.currency + "\n\n" +
    "Local Tips:\n" + Bullets(Bullet, d.localTips) + "\n\n" +
    "Would you " + "like to know " + "more about " + "any specific " + "aspect of " + d.name + "?"
  }

  function SearchingText(query: string): string {
    "Searching for " + "destinations " + "matching \"" + query + "\"...\n\n" +
    "\U{1F50D} Checking " + "TripAdvisor...\n" +
    "\U{1F50D} Checking " + "Lonely " + "Planet...\n" +
    "\U{1F50D} Checking " + "Booking.com..."
  }

  /** One destination's block of the result message: its first three highlights only. */
  function DestinationSummary(d: Destination): string {
    "\U{1F30D} " + d.name + ", " + d.country + "\n" +
    "\U{1F4DD} " + d.description + "\n" +
    "\U{2B50} Highlights: " + Join(Take(d.highlights, 3), ", ") + "\n" +
    "\U{1F4B0} Average cost: " + d.averageCost.accommodation + "\n" +
    "\U{1F324}\U{FE0F} Best time " + "to visit: " + d.bestTimeToVisit + "\n\n"
  }

  /** The summaries of `ds`, one after the other (`.map(...).join('')`). */
  function Summaries(ds: seq<Destination>): string {
    if ds == [] then "" else DestinationSummary(ds[0]) + Summaries(ds[1..])
  }

  /** The reply to a search: the destinations found, or the "couldn't find" message. */
  function ResultsText(r: SearchResult): string {
    if |r.destinations| > 0 then
      "I found " + IntToString(r.totalResults) + " destinations " + "matching your " + "search for \"" +
      r.searchQuery + "\":\n\n" +
      Summaries(r.destinations) +
      "Would you " + "like to know " + "more about " + "any of these " + "destinations?"
    else
      "I couldn't " + "find any " + "destinations " + "matching \"" + r.searchQuery +
      "\". Could you " + "try a " + "different " + "search term? " + "For example:\n" + CategoryExamples
  }

  /** The guide revealed after a destination is selected. */
  function DestinationGuide(d: Destination): string {
    "I've found " + "some great " + "information " + "about " + d.name + "!\n\n" +
    "\U{1F30D} " + d.name + ", " + d.country + "\n" +
    "\U{1F4AC} Language: " + d.language + "\n" +
    "\U{1F4B0} Currency: " + d.currency + "\n" +
    "\U{1F324}\U{FE0F} Climate: " + d.climate + "\n" +
    "\U{23F0} Time Zone: " + d.timeZone + "\n\n" +
    "Best time to " + "visit: " + d.bestTimeToVisit + "\n\n" +
    "Must-visit " + "places:\n" + Bullets(Bullet, d.highlights) + "\n\n" +
    "Local tips:\n" + Bullets(Bullet, d.localTips)
  }

  /** The text of a message. */
  function Render(m: Message): string {
    match m
    case Said(text) => text
    case Welcome => WelcomeMessage
    case CategoryQuestion => CategoryPrompt
    case Elaboration(d) => ElaborationText(d)
    case Searching(query) => SearchingText(query)
    case Results(r) => ResultsText(r)
  }

  // ---------------------------------------------------------------------------
  // Chat routing

  /** `conversationState` (its never-written `selectedDestination` member is left out). */
  datatype Conversation = Conversation(isSearching: bool, lastSearchQuery: Option<string>)

  /** The component state the chat routing reads and writes. */
  datatype ChatState = ChatState(
    chatHistory: seq<ChatLine>,
    userMessage: string,
    conversation: Conversation,
    searchResults: Option<SearchResult>)

  /** The reply to an acknowledgement: the first result's elaboration once a search has
      found something, the category prompt otherwise. */
  function AcknowledgementReply(conversation: Conversation, searchResults: Option<SearchResult>): Message {
    if conversation.isSearching && searchResults.Some? && |searchResults.value.destinations| > 0
    then Elaboration(searchResults.value.destinations[0])
    else CategoryQuestion
  }

  /** The acknowledgement branch: the user's line, then the reply. */
  function AfterAcknowledgement(s: ChatState, input: string): ChatState {
    s.(userMessage := "",
       chatHistory := s.chatHistory + [ChatLine(User, Said(input))] +
         [ChatLine(Assistant, AcknowledgementReply(s.conversation, s.searchResults))])
  }

  /** The search branch: the user's line, the searching notice, then the result reply. */
  function AfterSearch(s: ChatState, input: string, results: SearchResult): ChatState {
    ChatState(
      s.chatHistory + [ChatLine(User, Said(input))] + [ChatLine(Assistant, Searching(input))] +
        [ChatLine(Assistant, Results(results))],
      "",
      s.conversation.(isSearching := true, lastSearchQuery := Some(input)),
      Some(results))
  }

  /** `handleSendMessage` run with `text` as the value of `userMessage`, with the
      timer-delayed replies already appended. `results` is what `fetchDestinations`
      resolves to for the trimmed text; only the search branch awaits it. */
  function AfterSend(s: ChatState, text: string, results: SearchResult): ChatState {
    if IsBlank(text) then s
    else if IsAcknowledgement(Trim(text)) then AfterAcknowledgement(s, Trim(text))
    else AfterSearch(s, Trim(text), results)
  }

  /** The chat log only grows, and once a search has happened the searching flag stays on. */
  lemma SendKeepsHistory(s: ChatState, text: string, results: SearchResult)
    ensures s.chatHistory <= AfterSend(s, text, results).chatHistory
    ensures s.conversation.isSearching ==> AfterSend(s, text, results).conversation.isSearching
  {
    if IsBlank(text) {
    } else if IsAcknowledgement(Trim(text)) {
      AcknowledgementKeepsHistory(s, Trim(text));
    } else {
      SearchKeepsHistory(s, Trim(text), results);
    }
  }

  lemma AcknowledgementKeepsHistory(s: ChatState, input: string)
    ensures s.chatHistory <= AfterAcknowledgement(s, input).chatHistory
    ensures AfterAcknowledgement(s, input).conversation == s.conversation
  {
    var h := AfterAcknowledgement(s, input).chatHistory;
    assert h[..|s.chatHistory|] == s.chatHistory;
  }

  lemma SearchKeepsHistory(s: ChatState, input: string, results: SearchResult)
    ensures s.chatHistory <= AfterSearch(s, input, results).chatHistory
    ensures AfterSearch(s, input, results).conversation.isSearching
    ensures AfterSearch(s, input, results).searchResults == Some(results)
  {
    var h := AfterSearch(s, input, results).chatHistory;
    assert h[..|s.chatHistory|] == s.chatHistory;
  }

  /** An acknowledgement after a search that found destinations is answered with the
      elaboration of the first one found. */
  lemma AcknowledgementAfterSearch(s: ChatState, query: string, ack: string, found: SearchResult, later: SearchResult)
    requires !IsBlank(query) && !IsAcknowledgement(Trim(query))
    requires !IsBlank(ack) && IsAcknowledgement(Trim(ack))
    requires |found.destinations| > 0
    ensures var log := AfterSend(AfterSend(s, query, found), ack, later).chatHistory;
      log[|log| - 1] == ChatLine(Assistant, Elaboration(found.destinations[0]))
  {
    var t := AfterSend(s, query, found);
    assert t == AfterSearch(s, Trim(query), found);
    SearchKeepsHistory(s, Trim(query), found);
    assert AfterSend(t, ack, later) == AfterAcknowledgement(t, Trim(ack));
    AcknowledgementLastLine(t, Trim(ack));
  }

  /** The acknowledgement branch ends the log with the acknowledgement reply. */
  lemma AcknowledgementLastLine(s: ChatState, input: string)
    ensures var log := AfterAcknowledgement(s, input).chatHistory;
      log[|log| - 1] == ChatLine(Assistant, AcknowledgementReply(s.conversation, s.searchResults))
  {
  }

  /** Before any search, an acknowledgement is answered with the category prompt. */
  lemma AcknowledgementBeforeSearch(s: ChatState, ack: string, results: SearchResult)
    requires !s.conversation.isSearching
    requires !IsBlank(ack) && IsAcknowledgement(Trim(ack))
    ensures var log := AfterSend(s, ack, results).chatHistory;
      log[|log| - 1] == ChatLine(Assistant, CategoryQuestion)
  {
  }

  /** `handlePromptClick` as written: `setUserMessage(query)`, then a `handleSendMessage()`
      whose closure still sees the previous `userMessage`. */
  function AfterPromptClickAsWritten(s: ChatState, query: string, results: SearchResult): ChatState {
    AfterSend(s.(userMessage := query), s.userMessage, results)
  }

  /** `handlePromptClick` as evidently intended: the prompt's query is sent. */
  function AfterPromptClick(s: ChatState, query: string, results: SearchResult): ChatState {
    AfterSend(s.(userMessage := query), query, results)
  }

  /** With an empty input box a prompt chip as written sends nothing: it only fills the box. */
  lemma PromptClickSendsNothing(s: ChatState, query: string, results: SearchResult)
    requires s.userMessage == ""
    ensures AfterPromptClickAsWritten(s, query, results) == s.(userMessage := query)
  {
    assert TrimStart("") == "";
  }

  /** The intended click puts the trimmed query in the log right after the earlier lines. */
  lemma PromptClickSendsQuery(s: ChatState, query: string, results: SearchResult)
    requires !IsBlank(query)
    ensures var log := AfterPromptClick(s, query, results).chatHistory;
      |s.chatHistory| < |log| && log[|s.chatHistory|] == ChatLine(User, Said(Trim(query)))
  {
    var t := s.(userMessage := query);
    if IsAcknowledgement(Trim(query)) {
      assert AfterPromptClick(s, query, results) == AfterAcknowledgement(t, Trim(query));
    } else {
      assert AfterPromptClick(s, query, results) == AfterSearch(t, Trim(query), results);
    }
  }

  // ---------------------------------------------------------------------------
  // The component

  class Selector {
    var chatHistory: seq<ChatLine>
    var userMessage: string
    var conversation: Conversation
    var searchResults: Option<SearchResult>
    var selectedDestination: Option<Destination>
    /** The reveal of `displayedGuide`. */
    const guide: TypedReveal.Reveal

    ghost function State(): ChatState
      reads this
    {
      ChatState(chatHistory, userMessage, conversation, searchResults)
    }

    constructor ()
      ensures State() == ChatState([ChatLine(Assistant, Welcome)], "", Conversation(false, None), None)
      ensures selectedDestination == None
      ensures fresh(guide) && guide.Valid() && guide.displayed == "" && !guide.typing
    {
      chatHistory := [ChatLine(Assistant, Welcome)];
      userMessage := "";
      conversation := Conversation(false, None);
      searchResults := None;
      selectedDestination := None;
      guide := new TypedReveal.Reveal();
    }

    /** The input's `onChange`. */
    method Type(text: string)
      modifies this
      ensures State() == old(State()).(userMessage := text)
      ensures selectedDestination == old(selectedDestination)
    {
      userMessage := text;
    }

    /** `handleSendMessage` with `text` as the value its closure sees for `userMessage`. */
    method Send(text: string, sources: Sources)
      modifies this
      ensures State() == AfterSend(old(State()), text, FetchDestinations(Trim(text), sources))
      ensures selectedDestination == old(selectedDestination)
    {
      if IsBlank(text) {
        return;
      }
      var input := Trim(text);
      if IsAcknowledgement(input) {
        Acknowledge(input);
      } else {
        Search(input, sources);
      }
    }

    method Acknowledge(input: string)
      modifies this
      ensures State() == AfterAcknowledgement(old(State()), input)
      ensures selectedDestination == old(selectedDestination)
    {
      userMessage := "";
      chatHistory := chatHistory + [ChatLine(User, Said(input))];
      chatHistory := chatHistory + [ChatLine(Assistant, AcknowledgementReply(conversation, searchResults))];
    }

    method Search(input: string, sources: Sources)
      modifies this
      ensures State() == AfterSearch(old(State()), input, FetchDestinations(input, sources))
      ensures selectedDestination == old(selectedDestination)
    {
      var results := FetchDestinations(input, sources);
      ShowSearch(input, results);
    }

    /** The search branch once `fetchDestinations` has resolved to `results`. */
    method ShowSearch(input: string, results: SearchResult)
      modifies this
      ensures State() == AfterSearch(old(State()), input, results)
      ensures selectedDestination == old(selectedDestination)
    {
      userMessage := "";
      conversation := conversation.(isSearching := true, lastSearchQuery := Some(input));
      searchResults := Some(results);
      chatHistory := chatHistory + [ChatLine(User, Said(input))] + [ChatLine(Assistant, Searching(input))] +
        [ChatLine(Assistant, Results(results))];
    }

    /** Enter or the send button. */
    method SendMessage(sources: Sources)
      modifies this
      ensures State() == AfterSend(old(State()), old(userMessage), FetchDestinations(Trim(old(userMessage)), sources))
      ensures selectedDestination == old(selectedDestination)
    {
      Send(userMessage, sources);
    }

    /** A prompt chip, as written (see `AfterPromptClickAsWritten`). */
    method PromptClickAsWritten(query: string, sources: Sources)
      modifies this
      ensures State() == AfterPromptClickAsWritten(old(State()), query, FetchDestinations(Trim(old(userMessage)), sources))
      ensures selectedDestination == old(selectedDestination)
    {
      var stale := userMessage;
      userMessage := query;
      assert State() == old(State()).(userMessage := query);
      Send(stale, sources);
    }

    /** A prompt chip, sending its query. */
    method PromptClick(query: string, sources: Sources)
      modifies this
      ensures State() == AfterPromptClick(old(State()), query, FetchDestinations(Trim(query), sources))
      ensures selectedDestination == old(selectedDestination)
    {
      userMessage := query;
      assert State() == old(State()).(userMessage := query);
      Send(query, sources);
    }

    /** `handleDestinationSelect`: remembers the destination, restarts the guide reveal and
      returns the patch for `onUpdate`, which holds the destination name and nothing else. */
    method Select(d: Destination) returns (patch: Ai.ContextPatch)
      modifies this, guide
      ensures selectedDestination == Some(d) && State() == old(State())
      ensures patch == Ai.EmptyPatch.(destination := Some(d.name))
      ensures guide.Valid() && guide.guide == DestinationGuide(d) && guide.displayed == "" && guide.typing
    {
      selectedDestination := Some(d);
      guide.Start(DestinationGuide(d));
      patch := Ai.EmptyPatch.(destination := Some(d.name));
    }

    /** `handleConfirm`: whether `onComplete` is called. No element of the component calls
        this handler, so the destination step is never completed (see
        `TravelPlanner.CompletionAsWritten`). */
    method Confirm() returns (completes: bool)
      ensures completes <==> selectedDestination.Some?
    {
      completes := selectedDestination.Some?;
    }
  }
}
