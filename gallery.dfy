/**
 * The gallery page: the category buttons derived from the stored categories,
 * the category filter over the fetched items, the lookup targets and merge of
 * storage image URLs, and the URL each card displays.
 */
module Gallery {
  import opened Values
  import opened Strings
  import opened Seqs

  /** A fetched gallery row, reduced to the columns these computations read. */
  datatype GalleryItem = GalleryItem(
    id: string,
    title: string,
    category: Option<string>,
    imageUrl: Option<string>)

  /** One storage lookup result: the item id and the first image URL found, if any. */
  datatype Fetched = Fetched(id: string, url: Option<string>)

  const AllCategory := "All"
  const Placeholder := "/placeholder.svg"

  // ---------------------------------------------------------------------------
  // Category list
  // ---------------------------------------------------------------------------

  /** `(c || "")`: a null or empty category reads as "". */
  function OrEmpty(c: Option<string>): string
  {
    if Truthy(c) then c.value else ""
  }

  /** `(c ?? "")`: only a null category is replaced by "". */
  function CoalesceEmpty(c: Option<string>): string
  {
    if c.Some? then c.value else ""
  }

  /** For strings the two defaults coincide: the only falsy string is "". */
  lemma OrEmptyIsCoalesce(c: Option<string>)
    ensures OrEmpty(c) == CoalesceEmpty(c)
  {
  }

  predicate StrictlySorted(s: seq<string>)
  {
    forall i, j :: 0 <= i < j < |s| ==> StrLt(s[i], s[j])
  }

  /** Adds `x` to a list kept in ascending order, unless it is already there. */
  function Insert(s: seq<string>, x: string): (r: seq<string>)
    ensures forall y :: y in r <==> y in s || y == x
  {
    if s == [] then [x]
    else if x == s[0] then s
    else if StrLt(x, s[0]) then [x] + s
    else [s[0]] + Insert(s[1..], x)
  }

  /** Inserting into a strictly sorted list keeps it strictly sorted. */
  lemma {:induction false} InsertSorted(s: seq<string>, x: string)
    requires StrictlySorted(s)
    ensures StrictlySorted(Insert(s, x))
  {
    if s == [] || x == s[0] {
    } else if StrLt(x, s[0]) {
      forall j | 0 <= j < |s|
        ensures StrLt(x, s[j])
      {
        if j > 0 {
          StrLtTransitive(x, s[0], s[j]);
        }
      }
    } else {
      StrLtTotal(x, s[0]);
      var tail := Insert(s[1..], x);
      InsertSorted(s[1..], x);
      forall y | y in tail
        ensures StrLt(s[0], y)
      {
        if y != x {
          var k :| 0 <= k < |s[1..]| && s[1..][k] == y;
          assert y == s[k + 1];
        }
      }
      var r := [s[0]] + tail;
      forall i, j | 0 <= i < j < |r|
        ensures StrLt(r[i], r[j])
      {
        if i == 0 {
          assert r[j] in tail;
        } else {
          assert r[i] == tail[i - 1] && r[j] == tail[j - 1];
        }
      }
    }
  }

  /**
   * `Array.from(new Set(xs)).sort(...)`: the distinct strings of `xs`, in
   * ascending code-unit order.
   */
  function SortedDistinct(xs: seq<string>): (r: seq<string>)
    ensures forall y :: y in r <==> y in xs
    decreases |xs|
  {
    if xs == [] then [] else Insert(SortedDistinct(xs[..|xs| - 1]), xs[|xs| - 1])
  }

  lemma {:induction false} SortedDistinctSorted(xs: seq<string>)
    ensures StrictlySorted(SortedDistinct(xs))
    decreases |xs|
  {
    if xs != [] {
      SortedDistinctSorted(xs[..|xs| - 1]);
      InsertSorted(SortedDistinct(xs[..|xs| - 1]), xs[|xs| - 1]);
    }
  }

  function TrimAll(names: seq<string>): (r: seq<string>)
    ensures |r| == |names|
    ensures forall i :: 0 <= i < |names| ==> r[i] == Trim(names[i])
  {
    seq(|names|, i requires 0 <= i < |names| => Trim(names[i]))
  }

  function NonEmptyTest(): string -> bool
  {
    s => s != ""
  }

  /**
   * `Array.from(new Set(names.map(trim).filter(Boolean))).sort(...)`: the
   * category buttons after "All".
   */
  function Buttons(names: seq<string>): seq<string>
  {
    SortedDistinct(Filter(TrimAll(names), NonEmptyTest()))
  }

  /** `["All", ...buttons]`: the full category button list. */
  function CategoryList(names: seq<string>): (r: seq<string>)
    ensures r != [] && r[0] == AllCategory && r[1..] == Buttons(names)
  {
    [AllCategory] + Buttons(names)
  }

  /** The category column of the already fetched items, read with `|| ""`. */
  function FallbackNames(items: seq<GalleryItem>): (r: seq<string>)
    ensures |r| == |items|
    ensures forall i :: 0 <= i < |items| ==> r[i] == OrEmpty(items[i].category)
  {
    seq(|items|, i requires 0 <= i < |items| => OrEmpty(items[i].category))
  }

  /** The fetched category column, read with `?? ""`. */
  function QueryNames(rows: seq<Option<string>>): (r: seq<string>)
    ensures |r| == |rows|
    ensures forall i :: 0 <= i < |rows| ==> r[i] == CoalesceEmpty(rows[i])
  {
    seq(|rows|, i requires 0 <= i < |rows| => CoalesceEmpty(rows[i]))
  }

  /** The fallback path: the buttons derived from the items already fetched. */
  function FallbackCategories(items: seq<GalleryItem>): seq<string>
  {
    CategoryList(FallbackNames(items))
  }

  /** The query path: the buttons derived from the fetched category column. */
  function QueryCategories(rows: seq<Option<string>>): seq<string>
  {
    CategoryList(QueryNames(rows))
  }

  /** The buttons are in strictly ascending order, so no name appears twice. */
  lemma ButtonsSorted(names: seq<string>)
    ensures StrictlySorted(Buttons(names))
  {
    SortedDistinctSorted(Filter(TrimAll(names), NonEmptyTest()));
  }

  /** Every button is a trimmed name of the column, non-empty and trimmed. */
  lemma ButtonsSound(names: seq<string>, y: string)
    requires y in Buttons(names)
    ensures y != "" && Trim(y) == y
    ensures exists i :: 0 <= i < |names| && Trim(names[i]) == y
  {
    var trimmed := TrimAll(names);
    assert y in Filter(trimmed, NonEmptyTest());
    var i :| 0 <= i < |trimmed| && trimmed[i] == y;
    TrimIdempotent(names[i]);
  }

  /** Every name that is not blank gives a button, its trimmed text. */
  lemma ButtonsComplete(names: seq<string>, i: nat)
    requires i < |names| && Trim(names[i]) != ""
    ensures Trim(names[i]) in Buttons(names)
  {
    var trimmed := TrimAll(names);
    assert trimmed[i] in trimmed;
  }

  /** Both paths give the same list when they read the same category column. */
  lemma FallbackMatchesQuery(items: seq<GalleryItem>)
    ensures FallbackCategories(items)
         == QueryCategories(seq(|items|, i requires 0 <= i < |items| => items[i].category))
  {
    var rows := seq(|items|, i requires 0 <= i < |items| => items[i].category);
    assert FallbackNames(items) == QueryNames(rows);
  }

  // ---------------------------------------------------------------------------
  // Category filter
  // ---------------------------------------------------------------------------

  predicate InCategory(it: GalleryItem, active: string)
  {
    Lower(OrEmpty(it.category)) == Lower(active)
  }

  function CategoryTest(active: string): GalleryItem -> bool
  {
    it => InCategory(it, active)
  }

  /**
   * The `filtered` memo: "All" shows every item; any other button shows the
   * items whose category (null read as "") equals it up to case, in order.
   */
  function FilteredItems(items: seq<GalleryItem>, active: string): (r: seq<GalleryItem>)
    ensures active == AllCategory ==> r == items
    ensures active != AllCategory ==>
      forall it :: it in r <==> it in items && EqualIgnoringCase(OrEmpty(it.category), active)
    ensures IsSubsequence(r, items)
  {
    if active == AllCategory then
      FilterAll(items, (it: GalleryItem) => true);
      FilterIsSubsequence(items, (it: GalleryItem) => true);
      items
    else
      FilterIsSubsequence(items, CategoryTest(active));
      Filter(items, CategoryTest(active))
  }

  /** An item with no category is shown only under "All" or a button that lowercases to "". */
  lemma UncategorisedOnlyUnderAll(items: seq<GalleryItem>, active: string, it: GalleryItem)
    requires it in items && it.category.None? && active != AllCategory && active != ""
    ensures it !in FilteredItems(items, active)
  {
    assert |Lower(active)| > 0;
  }

  /** The item whose category carries a leading space, used by the two lemmas below. */
  const SpacedFood := GalleryItem("1", "Dotonbori", Some(" Food"), None)

  /** One leading space is trimmed away from a word with no surrounding whitespace. */
  lemma TrimLeadingSpace(w: string)
    requires w != [] && !IsSpace(w[0]) && !IsSpace(w[|w| - 1])
    ensures Trim([' '] + w) == w
  {
    assert ([' '] + w)[1..] == w;
    TrimNoop(w);
  }

  /** A column holding one name has that name, trimmed, as its only button. */
  lemma SingleButton(name: string)
    requires Trim(name) != ""
    ensures Buttons([name]) == [Trim(name)]
  {
    var trimmed := TrimAll([name]);
    assert trimmed == [Trim(name)];
    FilterAll(trimmed, NonEmptyTest());
    assert SortedDistinct([Trim(name)]) == Insert([], Trim(name));
  }

  /** The category " Food" produces the button "Food". */
  lemma SpacedCategoryButton()
    ensures FallbackCategories([SpacedFood]) == [AllCategory, "Food"]
  {
    var names := FallbackNames([SpacedFood]);
    assert names == [" Food"];
    assert " Food" == [' '] + "Food";
    TrimLeadingSpace("Food");
    SingleButton(" Food");
  }

  /**
   * The buttons are built from trimmed categories but the filter compares the
   * untrimmed one: the "Food" button shows nothing, not even the item it came from.
   */
  lemma UntrimmedCategoryHidden()
    ensures "Food" in FallbackCategories([SpacedFood])
    ensures FilteredItems([SpacedFood], "Food") == []
  {
    SpacedCategoryButton();
    assert !InCategory(SpacedFood, "Food") by {
      assert |Lower(OrEmpty(SpacedFood.category))| == 5;
    }
    FilterNone([SpacedFood], CategoryTest("Food"));
  }

  predicate InTrimmedCategory(it: GalleryItem, active: string)
  {
    Lower(Trim(OrEmpty(it.category))) == Lower(active)
  }

  function TrimmedCategoryTest(active: string): GalleryItem -> bool
  {
    it => InTrimmedCategory(it, active)
  }

  /**
   * The filter with the category trimmed as the button list trims it: "All"
   * shows every item, any other button the items whose trimmed category
   * equals it up to case, in order.
   */
  function FilteredItemsTrimmed(items: seq<GalleryItem>, active: string): (r: seq<GalleryItem>)
    ensures active == AllCategory ==> r == items
    ensures active != AllCategory ==>
      forall it :: it in r <==> it in items && EqualIgnoringCase(Trim(OrEmpty(it.category)), active)
    ensures IsSubsequence(r, items)
  {
    if active == AllCategory then
      FilterAll(items, (it: GalleryItem) => true);
      FilterIsSubsequence(items, (it: GalleryItem) => true);
      items
    else
      FilterIsSubsequence(items, TrimmedCategoryTest(active));
      Filter(items, TrimmedCategoryTest(active))
  }

  /** With the trimmed filter, every category button derived from the items shows at least one item. */
  lemma EveryButtonShowsItems(items: seq<GalleryItem>, button: string)
    requires button in Buttons(FallbackNames(items))
    ensures FilteredItemsTrimmed(items, button) != []
  {
    var i := ButtonSource(FallbackNames(items), button);
    ShownUnderOwnCategory(items, i, button);
  }

  /** The index of a name a button came from. */
  lemma ButtonSource(names: seq<string>, button: string) returns (i: nat)
    requires button in Buttons(names)
    ensures i < |names| && Trim(names[i]) == button
  {
    ButtonsSound(names, button);
    i :| 0 <= i < |names| && Trim(names[i]) == button;
  }

  /** The trimmed filter shows an item under the button of its own trimmed category. */
  lemma ShownUnderOwnCategory(items: seq<GalleryItem>, i: nat, button: string)
    requires i < |items| && Trim(FallbackNames(items)[i]) == button
    ensures items[i] in FilteredItemsTrimmed(items, button)
  {
    var it := items[i];
    assert Trim(OrEmpty(it.category)) == button;
    assert it in items;
  }

  // ---------------------------------------------------------------------------
  // Image URLs
  // ---------------------------------------------------------------------------

  /** `imageUrls[id]` read as a truthy string. */
  predicate HasUrl(urls: map<string, string>, id: string)
  {
    id in urls && urls[id] != ""
  }

  predicate NeedsLookup(urls: map<string, string>, it: GalleryItem)
  {
    !Truthy(it.imageUrl) && !HasUrl(urls, it.id)
  }

  function LookupTest(urls: map<string, string>): GalleryItem -> bool
  {
    it => NeedsLookup(urls, it)
  }

  /** The items whose image is looked up in storage: no stored URL and none merged yet. */
  function Targets(items: seq<GalleryItem>, urls: map<string, string>): (r: seq<GalleryItem>)
    ensures forall it :: it in r <==> it in items && !Truthy(it.imageUrl) && !HasUrl(urls, it.id)
    ensures IsSubsequence(r, items)
  {
    FilterIsSubsequence(items, LookupTest(urls));
    Filter(items, LookupTest(urls))
  }

  /**
   * The state update after the lookups: `prev` with, in result order, each
   * id whose lookup found a URL set to that URL.
   */
  function Merged(prev: map<string, string>, results: seq<Fetched>): (m: map<string, string>)
    decreases |results|
  {
    if results == [] then prev
    else
      var m := Merged(prev, results[..|results| - 1]);
      var r := results[|results| - 1];
      if Truthy(r.url) then m[r.id := r.url.value] else m
  }

  /** The merge loop: copy `prev`, then set each found URL. */
  method MergeImageUrls(prev: map<string, string>, results: seq<Fetched>) returns (next: map<string, string>)
    ensures next == Merged(prev, results)
  {
    next := prev;
    for i := 0 to |results|
      invariant next == Merged(prev, results[..i])
    {
      assert results[..i + 1][..i] == results[..i];
      var r := results[i];
      if r.url.Some? && r.url.value != "" {
        next := next[r.id := r.url.value];
      }
    }
    assert results[..|results|] == results;
  }

  /** Some lookup for `id` found a URL. */
  predicate FoundFor(results: seq<Fetched>, id: string)
  {
    exists i :: 0 <= i < |results| && results[i].id == id && Truthy(results[i].url)
  }

  /**
   * The merge keeps every previous key and adds exactly the ids some lookup
   * found a URL for; an id no lookup found a URL for keeps its old value.
   */
  lemma {:induction false} MergedKeys(prev: map<string, string>, results: seq<Fetched>, id: string)
    ensures id in Merged(prev, results) <==> id in prev || FoundFor(results, id)
    ensures !FoundFor(results, id) && id in prev ==> Merged(prev, results)[id] == prev[id]
    decreases |results|
  {
    if results != [] {
      var init := results[..|results| - 1];
      MergedKeys(prev, init, id);
      if FoundFor(init, id) {
        var i :| 0 <= i < |init| && init[i].id == id && Truthy(init[i].url);
        assert results[i] == init[i];
      }
    }
  }

  /** The last URL found for an id is the one kept. */
  lemma {:induction false} MergedLastWins(prev: map<string, string>, results: seq<Fetched>, i: nat)
    requires i < |results| && Truthy(results[i].url)
    requires forall j :: i < j < |results| && results[j].id == results[i].id ==> !Truthy(results[j].url)
    ensures var m := Merged(prev, results);
      results[i].id in m && m[results[i].id] == results[i].url.value
    decreases |results|
  {
    if i < |results| - 1 {
      var init := results[..|results| - 1];
      assert init[i] == results[i];
      MergedLastWins(prev, init, i);
    }
  }

  predicate NonEmptyValues(m: map<string, string>)
  {
    forall k :: k in m ==> m[k] != ""
  }

  /** When every stored URL is non-empty, so is every merged one. */
  lemma {:induction false} MergedUrlsNonEmpty(prev: map<string, string>, results: seq<Fetched>)
    requires NonEmptyValues(prev)
    ensures NonEmptyValues(Merged(prev, results))
    decreases |results|
  {
    if results != [] {
      MergedUrlsNonEmpty(prev, results[..|results| - 1]);
      var m0 := Merged(prev, results[..|results| - 1]);
      var r := results[|results| - 1];
      if Truthy(r.url) {
        var m := m0[r.id := r.url.value];
        forall k | k in m
          ensures m[k] != ""
        {
          if k != r.id {
            assert m[k] == m0[k];
          }
        }
      }
    }
  }

  /** A merged item is no longer a lookup target. */
  lemma MergedNotTargetAgain(items: seq<GalleryItem>, prev: map<string, string>,
                             results: seq<Fetched>, i: nat, it: GalleryItem)
    requires i < |results| && Truthy(results[i].url) && results[i].id == it.id
    requires forall j :: i < j < |results| && results[j].id == it.id ==> !Truthy(results[j].url)
    ensures it !in Targets(items, Merged(prev, results))
  {
    MergedLastWins(prev, results, i);
  }

  // ---------------------------------------------------------------------------
  // Displayed URL
  // ---------------------------------------------------------------------------

  /** `item.image_url || imageUrls[item.id] || "/placeholder.svg"`. */
  function DisplayUrl(it: GalleryItem, urls: map<string, string>): (r: string)
    ensures r != ""
    ensures Truthy(it.imageUrl) ==> r == it.imageUrl.value
    ensures !Truthy(it.imageUrl) && HasUrl(urls, it.id) ==> r == urls[it.id]
    ensures !Truthy(it.imageUrl) && !HasUrl(urls, it.id) ==> r == Placeholder
  {
    if Truthy(it.imageUrl) then it.imageUrl.value
    else if HasUrl(urls, it.id) then urls[it.id]
    else Placeholder
  }

  /** A lookup target shows the placeholder until its URL is merged. */
  lemma TargetShowsPlaceholder(items: seq<GalleryItem>, urls: map<string, string>, it: GalleryItem)
    requires it in Targets(items, urls)
    ensures DisplayUrl(it, urls) == Placeholder
  {
  }

  /** After the merge, a target whose lookup found a URL shows that URL. */
  lemma FoundUrlIsDisplayed(it: GalleryItem, prev: map<string, string>, results: seq<Fetched>, i: nat)
    requires !Truthy(it.imageUrl)
    requires i < |results| && results[i].id == it.id && Truthy(results[i].url)
    requires forall j :: i < j < |results| && results[j].id == it.id ==> !Truthy(results[j].url)
    ensures DisplayUrl(it, Merged(prev, results)) == results[i].url.value
  {
    MergedLastWins(prev, results, i);
  }

  /** A stored image URL always wins over anything merged. */
  lemma StoredUrlWins(it: GalleryItem, prev: map<string, string>, results: seq<Fetched>)
    requires Truthy(it.imageUrl)
    ensures DisplayUrl(it, Merged(prev, results)) == DisplayUrl(it, prev)
  {
  }
}
