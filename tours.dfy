/** The search box of the tours page: which fetched tours are listed for a query. */
module Tours {
  import opened Values
  import opened Strings
  import opened Seqs

  /** A fetched tour row, reduced to the columns the search reads; `None` is a null column. */
  datatype TourListing = TourListing(
    id: string,
    title: Option<string>,
    shortTitle: Option<string>,
    description: Option<string>)

  /** `field?.toLowerCase().includes(q)`: a null field never matches. */
  predicate FieldMatches(field: Option<string>, q: string)
  {
    field.Some? && Contains(Lower(field.value), q)
  }

  /**
   * The filter's predicate. A blank query keeps every tour; otherwise the
   * lowercased query, untrimmed, must occur in the lowercased title, short
   * title or description.
   */
  predicate Keep(t: TourListing, query: string)
  {
    IsBlank(query) ||
    FieldMatches(t.title, Lower(query)) ||
    FieldMatches(t.shortTitle, Lower(query)) ||
    FieldMatches(t.description, Lower(query))
  }

  function KeepTest(query: string): TourListing -> bool
  {
    t => Keep(t, query)
  }

  /** `tours.filter(...)`: the tours the query keeps, in their fetched order. */
  function FilteredTours(tours: seq<TourListing>, query: string): (r: seq<TourListing>)
    ensures forall t :: t in r <==> t in tours && Keep(t, query)
    ensures IsSubsequence(r, tours)
  {
    FilterIsSubsequence(tours, KeepTest(query));
    Filter(tours, KeepTest(query))
  }

  /** A blank or whitespace-only query lists every tour, in order. */
  lemma BlankQueryKeepsAll(tours: seq<TourListing>, query: string)
    requires IsBlank(query)
    ensures FilteredTours(tours, query) == tours
  {
    FilterAll(tours, KeepTest(query));
  }

  /** A query no tour matches lists nothing. */
  lemma NoMatchListsNothing(tours: seq<TourListing>, query: string)
    requires forall t :: t in tours ==> !Keep(t, query)
    ensures FilteredTours(tours, query) == []
  {
    FilterNone(tours, KeepTest(query));
  }

  /** A tour with no title, short title or description is listed only for a blank query. */
  lemma NullFieldsNeverMatch(t: TourListing, query: string)
    requires t.title.None? && t.shortTitle.None? && t.description.None?
    ensures Keep(t, query) <==> IsBlank(query)
  {
  }

  /**
   * Blankness is judged on the trimmed query but matching uses it as typed:
   * a query with a surrounding space that is longer than every field lists
   * nothing, although the same text without the space may match.
   */
  lemma SpacesMatchLiterally(t: TourListing, query: string)
    requires !IsBlank(query)
    requires t.title.Some? ==> |t.title.value| < |query|
    requires t.shortTitle.Some? ==> |t.shortTitle.value| < |query|
    requires t.description.Some? ==> |t.description.value| < |query|
    ensures !Keep(t, query)
  {
    if t.title.Some? {
      LongerNotContained(Lower(t.title.value), Lower(query));
    }
    if t.shortTitle.Some? {
      LongerNotContained(Lower(t.shortTitle.value), Lower(query));
    }
    if t.description.Some? {
      LongerNotContained(Lower(t.description.value), Lower(query));
    }
  }

  /** A string with a non-whitespace character is not blank. */
  lemma NotBlank(s: string, i: nat)
    requires i < |s| && !IsSpace(s[i])
    ensures !IsBlank(s)
  {
    BlankIffAllSpace(s);
  }

  /** The query " kyoto", with its leading space, does not find a tour titled "Kyoto". */
  lemma UntrimmedQueryMisses()
    ensures FilteredTours([TourListing("kyoto-full", Some("Kyoto"), None, None)], " kyoto") == []
  {
    var kyoto := TourListing("kyoto-full", Some("Kyoto"), None, None);
    var query := " kyoto";
    assert query[1] == 'k';
    NotBlank(query, 1);
    SpacesMatchLiterally(kyoto, " kyoto");
    NoMatchListsNothing([kyoto], " kyoto");
  }

  /** The query "kyoto" finds the tour titled "Kyoto". */
  lemma TrimmedQueryFinds()
    ensures var kyoto := TourListing("kyoto-full", Some("Kyoto"), None, None);
            FilteredTours([kyoto], "kyoto") == [kyoto]
  {
    var kyoto := TourListing("kyoto-full", Some("Kyoto"), None, None);
    assert Lower("Kyoto") == "kyoto" by {
      assert LowerChar('K') == 'k';
    }
    assert Lower("kyoto") == "kyoto";
    assert StartsWith("kyoto", "kyoto");
    PrefixIsContained("kyoto", "kyoto");
    assert FieldMatches(kyoto.title, Lower("kyoto"));
    assert Keep(kyoto, "kyoto");
    BlankQueryOrMatch([kyoto], "kyoto");
  }

  /** When every tour is kept the list is unchanged. */
  lemma BlankQueryOrMatch(tours: seq<TourListing>, query: string)
    requires forall t :: t in tours ==> Keep(t, query)
    ensures FilteredTours(tours, query) == tours
  {
    FilterAll(tours, KeepTest(query));
  }
}
