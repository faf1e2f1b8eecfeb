/**
 * The pickup-location picker: the per-tour pickup restrictions, the search
 * suggestion pipeline over the built-in list of Kansai locations, and the
 * picker's state as the search and click handlers update it.
 */
module MapPicker {
  import opened Values
  import opened Strings
  import opened Seqs

  // ---------------------------------------------------------------------------
  // Pickup restrictions (`getPickupRestrictions`)
  // ---------------------------------------------------------------------------

  /** Either a list of allowed areas (searchable) or a fixed meeting point (not searchable). */
  datatype Restrictions = Restrictions(
    areas: Option<seq<string>>,
    fixedLocation: Option<string>,
    description: string,
    searchable: bool)

  const DotonboriBridge: string := "Dotonbori Bridge, 1 Chome-10 Dotonbori, Chuo Ward, Osaka, 542-0071, Japan"
  const DefaultAreas: seq<string> := ["Kyoto", "Osaka", "Kobe"]
  // The description shown for each branch.
  const KyotoOsakaPickup: string := "Pickup available in Kyoto or Osaka areas. We'll pick you up at your hotel/accommodation."
  const FixedMeetingPoint: string := "Meeting point is fixed at Dotonbori Bridge. Look for your guide with a 'Real Good Japan Tour' sign."
  const OsakaKyotoPickup: string := "Pickup available in Osaka or Kyoto areas. Premium hotel pickup service included."
  const KansaiWidePickup: string := "Flexible pickup locations available throughout Kansai region."
  const DefaultPickup: string := "Flexible pickup locations available in Kansai region."

  /** The tour ids the switch names; every other id takes the default branch. */
  predicate IsKnownTourId(tourId: string)
  {
    tourId == "kyoto-full" || tourId == "1" || tourId == "osaka-food" || tourId == "2" ||
    tourId == "imperial-osaka" || tourId == "3" || tourId == "4"
  }

  function PickupRestrictions(tourId: string): (r: Restrictions)
    ensures !r.searchable <==> tourId == "osaka-food" || tourId == "2"
    ensures !r.searchable ==> r.fixedLocation == Some(DotonboriBridge) && r.areas.None?
    ensures r.searchable ==> r.areas.Some? && r.fixedLocation.None? && |r.areas.value| >= 2
    ensures r.searchable ==> r.areas.value[0] in {"Kyoto", "Osaka"} && r.areas.value[1] in {"Kyoto", "Osaka"}
    ensures r.searchable ==> "Kyoto" in r.areas.value && "Osaka" in r.areas.value
    ensures !IsKnownTourId(tourId) ==> r.areas == Some(DefaultAreas)
  {
    if tourId == "kyoto-full" || tourId == "1" then
      Restrictions(Some(["Kyoto", "Osaka"]), None,
        KyotoOsakaPickup, true)
    else if tourId == "osaka-food" || tourId == "2" then
      Restrictions(None, Some(DotonboriBridge),
        FixedMeetingPoint, false)
    else if tourId == "imperial-osaka" || tourId == "3" then
      Restrictions(Some(["Osaka", "Kyoto"]), None,
        OsakaKyotoPickup, true)
    else if tourId == "4" then
      Restrictions(Some(["Kyoto", "Osaka", "Kobe", "Nara", "Other"]), None,
        KansaiWidePickup, true)
    else
      Restrictions(Some(DefaultAreas), None,
        DefaultPickup, true)
  }

  // ---------------------------------------------------------------------------
  // Locations offered by the search
  // ---------------------------------------------------------------------------

  datatype Location = Location(address: string, lat: real, lng: real, kind: string, area: string)

  const MockLocations: seq<Location> := [
    Location("Kyoto Station, Kyoto, Japan", 34.9858, 135.7581, "Station", "Kyoto"),
    Location("Gion District, Kyoto, Japan", 35.0036, 135.7778, "District", "Kyoto"),
    Location("Kiyomizu-dera Temple, Kyoto, Japan", 34.9949, 135.7851, "Temple", "Kyoto"),
    Location("Arashiyama, Kyoto, Japan", 35.0170, 135.6761, "District", "Kyoto"),
    Location("Fushimi Inari Shrine, Kyoto, Japan", 34.9671, 135.7727, "Shrine", "Kyoto"),
    Location("Kyoto Imperial Palace, Kyoto, Japan", 35.0253, 135.7625, "Palace", "Kyoto"),
    Location("Osaka Station, Osaka, Japan", 34.7024, 135.4959, "Station", "Osaka"),
    Location("Dotonbori, Osaka, Japan", 34.6686, 135.5023, "District", "Osaka"),
    Location("Osaka Castle, Osaka, Japan", 34.6873, 135.5262, "Castle", "Osaka"),
    Location("Shinsaibashi, Osaka, Japan", 34.6751, 135.5018, "Shopping", "Osaka"),
    Location("Namba Station, Osaka, Japan", 34.6661, 135.5006, "Station", "Osaka"),
    Location("Sumiyoshi Taisha, Osaka, Japan", 34.6180, 135.4942, "Shrine", "Osaka"),
    Location("Universal Studios Japan, Osaka, Japan", 34.6654, 135.4321, "Theme Park", "Osaka"),
    Location("Kobe Station, Kobe, Japan", 34.6760, 135.1875, "Station", "Kobe"),
    Location("Kobe Port Tower, Kobe, Japan", 34.6823, 135.1864, "Landmark", "Kobe"),
    Location("Kitano Foreign District, Kobe, Japan", 34.6953, 135.1897, "District", "Kobe"),
    Location("Rokko Mountain, Kobe, Japan", 34.7326, 135.2320, "Mountain", "Kobe"),
    Location("Nara Station, Nara, Japan", 34.6851, 135.8048, "Station", "Nara"),
    Location("Nara Park, Nara, Japan", 34.6851, 135.8432, "Park", "Nara"),
    Location("Todaiji Temple, Nara, Japan", 34.6890, 135.8398, "Temple", "Nara"),
    Location("Hotel Granvia Kyoto, Kyoto Station", 34.9858, 135.7581, "Hotel", "Kyoto"),
    Location("The Ritz-Carlton Kyoto", 35.0036, 135.7714, "Hotel", "Kyoto"),
    Location("Hotel Granvia Osaka, Osaka Station", 34.7024, 135.4959, "Hotel", "Osaka"),
    Location("The St. Regis Osaka", 34.6751, 135.5018, "Hotel", "Osaka"),
    Location("ANA Crowne Plaza Kobe", 34.6760, 135.1875, "Hotel", "Kobe")
  ]

  const MaxSuggestions: nat := 8

  // ---------------------------------------------------------------------------
  // The suggestion pipeline (body of `handleSearch`)
  // ---------------------------------------------------------------------------

  /** The address contains the query, compared case-insensitively. */
  predicate TextMatches(query: string, loc: Location)
  {
    Contains(Lower(loc.address), Lower(query))
  }

  /** The address starts with the query, compared case-insensitively. */
  predicate IsPrefixMatch(query: string, loc: Location)
  {
    StartsWith(Lower(loc.address), Lower(query))
  }

  /** The location's area is allowed, or the allowed areas include "Other", which admits every area. */
  predicate AreaAllowed(areas: seq<string>, loc: Location)
  {
    loc.area in areas || "Other" in areas
  }

  /** The text filter followed, when the restrictions list areas, by the area filter. */
  function Candidates(locations: seq<Location>, query: string, restrictions: Restrictions): (r: seq<Location>)
    ensures forall l :: l in r <==>
      l in locations && TextMatches(query, l) &&
      (restrictions.areas.Some? ==> AreaAllowed(restrictions.areas.value, l))
    ensures IsSubsequence(r, locations)
  {
    var byText := Filter(locations, l => TextMatches(query, l));
    FilterIsSubsequence(locations, l => TextMatches(query, l));
    if restrictions.areas.Some? then
      var areas := restrictions.areas.value;
      FilterIsSubsequence(byText, l => AreaAllowed(areas, l));
      SubsequenceTransitive(Filter(byText, l => AreaAllowed(areas, l)), byText, locations);
      Filter(byText, l => AreaAllowed(areas, l))
    else
      byText
  }

  /** Tour "4" also lists Nara and "Other", so every text match is a candidate whatever its area. */
  lemma WideAreasAdmitEveryMatch(locations: seq<Location>, query: string)
    ensures var r := PickupRestrictions("4");
      r.searchable && r.areas.Some? && "Nara" in r.areas.value &&
      forall l :: l in Candidates(locations, query, r) <==> l in locations && TextMatches(query, l)
  {
    var r := PickupRestrictions("4");
    assert r.areas.value[3] == "Nara" && r.areas.value[4] == "Other";
  }

  /** For a tour id the switch does not name, a location outside Kyoto, Osaka and Kobe is never a candidate. */
  lemma DefaultAreasExclude(locations: seq<Location>, tourId: string, query: string, l: Location)
    requires !IsKnownTourId(tourId)
    requires l.area != "Kyoto" && l.area != "Osaka" && l.area != "Kobe"
    ensures l !in Candidates(locations, query, PickupRestrictions(tourId))
  {
    assert !AreaAllowed(DefaultAreas, l);
  }

  /** The prefix test as a value, so that every use names the same predicate. */
  function PrefixTest(query: string): Location -> bool
  {
    l => IsPrefixMatch(query, l)
  }

  function NonPrefixTest(query: string): Location -> bool
  {
    l => !IsPrefixMatch(query, l)
  }

  /**
   * The in-place `sort` with the comparator `bExact - aExact`: a stable sort
   * on a key that is 1 for prefix matches and 0 otherwise, so the result is
   * the prefix matches in their order followed by the others in theirs.
   */
  function PrefixFirst(s: seq<Location>, query: string): (r: seq<Location>)
    ensures multiset(r) == multiset(s) && |r| == |s|
    ensures PrefixMatchesFirst(r, query)
    ensures Filter(r, PrefixTest(query)) == Filter(s, PrefixTest(query))
    ensures Filter(r, NonPrefixTest(query)) == Filter(s, NonPrefixTest(query))
  {
    var prefixed := Filter(s, PrefixTest(query));
    var others := Filter(s, NonPrefixTest(query));
    FilterSplitsMultiset(s, PrefixTest(query), NonPrefixTest(query));
    SplitOrdered(prefixed, others, query);
    SplitFilters(prefixed, others, query);
    assert |prefixed + others| == |multiset(prefixed + others)| == |multiset(s)| == |s|;
    prefixed + others
  }

  /** No location that does not start with the query comes before one that does. */
  predicate PrefixMatchesFirst(r: seq<Location>, query: string)
  {
    forall i, j :: 0 <= i < j < |r| && IsPrefixMatch(query, r[j]) ==> IsPrefixMatch(query, r[i])
  }

  lemma SplitOrdered(prefixed: seq<Location>, others: seq<Location>, query: string)
    requires forall l :: l in prefixed ==> IsPrefixMatch(query, l)
    requires forall l :: l in others ==> !IsPrefixMatch(query, l)
    ensures PrefixMatchesFirst(prefixed + others, query)
  {
    var r := prefixed + others;
    forall i, j | 0 <= i < j < |r| && IsPrefixMatch(query, r[j])
      ensures IsPrefixMatch(query, r[i])
    {
      if j < |prefixed| {
        assert r[i] in prefixed;
      }
    }
  }

  lemma SplitFilters(prefixed: seq<Location>, others: seq<Location>, query: string)
    requires forall l :: l in prefixed ==> IsPrefixMatch(query, l)
    requires forall l :: l in others ==> !IsPrefixMatch(query, l)
    ensures Filter(prefixed + others, PrefixTest(query)) == prefixed
    ensures Filter(prefixed + others, NonPrefixTest(query)) == others
  {
    FilterConcat(prefixed, others, PrefixTest(query));
    FilterConcat(prefixed, others, NonPrefixTest(query));
    FilterAll(prefixed, PrefixTest(query));
    FilterNone(others, PrefixTest(query));
    FilterNone(prefixed, NonPrefixTest(query));
    FilterAll(others, NonPrefixTest(query));
  }

  /** Keeping the first `n` elements keeps prefix matches first. */
  lemma TakeKeepsPrefixMatchesFirst(r: seq<Location>, query: string, n: nat)
    requires n <= |r| && PrefixMatchesFirst(r, query)
    ensures PrefixMatchesFirst(r[..n], query)
  {
    forall i, j | 0 <= i < j < n && IsPrefixMatch(query, r[..n][j])
      ensures IsPrefixMatch(query, r[..n][i])
    {
      assert r[..n][j] == r[j] && r[..n][i] == r[i];
    }
  }

  /** `handleSearch` for a query that is not blank: filter, sort prefix matches first, keep at most eight. */
  function Suggestions(locations: seq<Location>, query: string, restrictions: Restrictions): (r: seq<Location>)
    ensures |r| <= MaxSuggestions
    ensures forall l :: l in r ==> l in locations && TextMatches(query, l)
    ensures forall l :: l in r && restrictions.areas.Some? ==> AreaAllowed(restrictions.areas.value, l)
    ensures PrefixMatchesFirst(r, query)
    ensures |r| == if |Candidates(locations, query, restrictions)| <= MaxSuggestions then |Candidates(locations, query, restrictions)| else MaxSuggestions
    ensures r == PrefixFirst(Candidates(locations, query, restrictions), query)[..|r|]
  {
    var candidates := Candidates(locations, query, restrictions);
    var sorted := PrefixFirst(candidates, query);
    MultisetKeepsMembers(sorted, candidates);
    var n := if |sorted| <= MaxSuggestions then |sorted| else MaxSuggestions;
    TakeKeepsPrefixMatchesFirst(sorted, query, n);
    sorted[..n]
  }

  /** Sequences with the same elements, counted with multiplicity, have the same members. */
  lemma MultisetKeepsMembers(a: seq<Location>, b: seq<Location>)
    requires multiset(a) == multiset(b)
    ensures forall l :: l in a <==> l in b
  {
    forall l ensures l in a <==> l in b {
      assert l in a <==> l in multiset(a);
      assert l in b <==> l in multiset(b);
    }
  }

  /** When no more than eight locations qualify, every one of them is suggested. */
  lemma SuggestionsComplete(locations: seq<Location>, query: string, restrictions: Restrictions, loc: Location)
    requires |Candidates(locations, query, restrictions)| <= MaxSuggestions
    requires loc in locations && TextMatches(query, loc)
    requires restrictions.areas.Some? ==> AreaAllowed(restrictions.areas.value, loc)
    ensures loc in Suggestions(locations, query, restrictions)
  {
    var c := Candidates(locations, query, restrictions);
    var sorted := PrefixFirst(c, query);
    assert loc in multiset(c);
    assert |sorted| == |multiset(sorted)| == |c|;
    assert loc in multiset(sorted);
  }

  // ---------------------------------------------------------------------------
  // The picker's state
  // ---------------------------------------------------------------------------

  /**
   * The state the picker's handlers set. `selections` records, in order,
   * the locations handed to the parent's `onLocationSelect` callback.
   */
  class PickerState {
    const tourId: string
    /** The list the search draws from: always the built-in `MockLocations`. */
    const locations: seq<Location>
    var searchQuery: string
    var isLoading: bool
    var suggestions: seq<Location>
    var showSuggestions: bool
    var selections: seq<Location>

    /** Suggestions always come from the picker's location list and are at most eight. */
    ghost predicate Valid()
      reads this
    {
      |suggestions| <= MaxSuggestions && forall l :: l in suggestions ==> l in locations
    }

    constructor (tourId: string)
      ensures Valid()
      ensures this.tourId == tourId && locations == MockLocations && searchQuery == "" && !isLoading
      ensures suggestions == [] && !showSuggestions && selections == []
    {
      this.tourId := tourId;
      locations := MockLocations;
      searchQuery := "";
      isLoading := false;
      suggestions := [];
      showSuggestions := false;
      selections := [];
    }

    /**
     * `handleSearch(query)`. A blank query clears and hides the list; any
     * other query shows the suggestions for this tour's restrictions. The
     * simulated 300 ms delay is collapsed: the loading flag ends cleared.
     */
    method HandleSearch(query: string)
      requires Valid()
      modifies this`suggestions, this`showSuggestions, this`isLoading
      ensures Valid()
      ensures IsBlank(query) ==> suggestions == [] && !showSuggestions && isLoading == old(isLoading)
      ensures !IsBlank(query) ==>
        suggestions == Suggestions(locations, query, PickupRestrictions(tourId)) && showSuggestions && !isLoading
    {
      if IsBlank(query) {
        suggestions := [];
        showSuggestions := false;
        return;
      }
      isLoading := true;
      var restrictions := PickupRestrictions(tourId);
      suggestions := Suggestions(locations, query, restrictions);
      showSuggestions := true;
      isLoading := false;
    }

    /** The debounced effect: search with the current query only when the tour's pickup is searchable. */
    method SearchEffect()
      requires Valid()
      modifies this`suggestions, this`showSuggestions, this`isLoading
      ensures Valid()
      ensures !PickupRestrictions(tourId).searchable ==> unchanged(this)
      ensures PickupRestrictions(tourId).searchable && IsBlank(searchQuery) ==>
        suggestions == [] && !showSuggestions && isLoading == old(isLoading)
      ensures PickupRestrictions(tourId).searchable && !IsBlank(searchQuery) ==>
        suggestions == Suggestions(locations, searchQuery, PickupRestrictions(tourId)) && showSuggestions && !isLoading
    {
      if PickupRestrictions(tourId).searchable {
        HandleSearch(searchQuery);
      }
    }

    /** `handleLocationClick(location)`: report the choice, put its address in the box, hide the list. */
    method HandleLocationClick(location: Location)
      requires Valid()
      modifies this`searchQuery, this`showSuggestions, this`selections
      ensures Valid()
      ensures selections == old(selections) + [location]
      ensures searchQuery == location.address && !showSuggestions
      ensures suggestions == old(suggestions)
    {
      selections := selections + [location];
      searchQuery := location.address;
      showSuggestions := false;
    }
  }
}
