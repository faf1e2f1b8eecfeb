# Real Good Japan Tour — a verified model of the booking site's core

Real Good Japan Tour is a Next.js site that sells guided tours around Kyoto and
Osaka. This project models the parts of it that make decisions, and proves what
those decisions guarantee. The modelled parts are:

- **pricing engine** (`Pricing`). Computes the per-person price, solo surcharge,
  group-discount tiers, coupon percentage and yen display amount.
- **booking page** (`Booking`). Normalises the pickup value from the map picker.
  Turns the 12-hour time label into an SQL `HH:MM:SS` time. Looks up the selected
  tour, runs the guest stepper and applies the booking guards. Builds the row
  that is inserted into the `bookings` table.
- **map picker** (`MapPicker`). Holds the pickup restrictions of each tour and
  does the address search: text filter, then area filter, then exact-prefix-first
  order, then the first eight results. Also models the debounced search effect
  and the click on a suggestion.
- **cookie serialiser** of the server-side Supabase client (`Cookies`). Builds
  the `Set-Cookie` header text and removes a cookie by setting `Max-Age=0`.
- **tours listing search** (`Tours`). A case-insensitive filter over title,
  short title and description.
- **gallery page** (`Gallery`). Builds the category buttons, filters by category
  and merges image URLs looked up in storage.

`Values`, `Seqs` and `Strings` hold the JavaScript values and built-ins that
these parts rely on:
- nullable values and numbers that may be `NaN`;
- `Array.prototype.filter`;
- `trim`, `toLowerCase`/`toUpperCase`, `includes`/`startsWith`;
- decimal text (`String(n)`, `parseInt`);
- the order used for sorting.

Pure computations are Dafny functions with lemmas about them. Page state is a
class whose methods update its fields:
- `Booking.BookingPage` is the booking page's React state;
- `MapPicker.PickerState` is the map picker's state.

The loop that merges image URLs is a method with a loop invariant.
`Cookies.SerializeCookie` builds its string step by step, as the source does.

Two facts about the code are worth knowing before reading the table.
- **The booking page does not use the pricing engine.** It charges
  `price * guests` (app/booking/page.tsx:128). The engine would charge twice the
  price for one guest and would take off a group discount from three guests up.
  `Booking.EngineChargesSoloDouble` and `Booking.EngineAppliesGroupDiscount`
  state the difference.
- **The tours listing declares `title` as non-null but reads it with `?.`.**
  The model treats all three searched fields as possibly missing, which is what
  the code handles.

## Model

| member | source | states |
|---|---|---|
| Seqs.Filter | app/tours/page.tsx:48-56 | `Array.prototype.filter`: the result keeps exactly the elements satisfying the test, and is no longer than the input |
| Seqs.FilterIsSubsequence | app/tours/page.tsx:48-56 | the filtered list keeps the input's order: it is a subsequence of the input |
| Seqs.FilterSplitsMultiset | components/map-picker.tsx:125-129 | splitting a list by a test and its negation keeps every element exactly once |
| Seqs.SubsequenceTransitive | components/map-picker.tsx:113-122 | two successive filters still yield a subsequence of the original list |
| Strings.Trim | app/tours/page.tsx:49 | `trim()` yields a string no longer than the input that neither starts nor ends with whitespace |
| Strings.TrimIsSlice | app/tours/page.tsx:49 | the trimmed string is a slice of the input with only whitespace before and after it: trimming removes the two ends and nothing else |
| Strings.BlankIffAllSpace | app/tours/page.tsx:49 | `!s.trim()` holds exactly when every character of `s` is whitespace |
| Strings.TrimIdempotent | app/gallery/page.tsx:87 | trimming a trimmed category changes nothing |
| Strings.Lower | app/tours/page.tsx:50 | `toLowerCase()` keeps the length, leaves no capital letter in the result, keeps every character that is not a capital, and moves each capital to its small letter |
| Strings.LowerIdempotent | app/tours/page.tsx:50 | lower-casing twice is lower-casing once |
| Strings.LowerKeepsLowercase | app/tours/page.tsx:50 | a string without capitals is its own lower-case form |
| Strings.ContainsAt | app/tours/page.tsx:52-54 | `includes` holds exactly when the needle occurs at some position of the haystack |
| Strings.LongerNotContained | components/map-picker.tsx:113-115 | a query longer than an address never matches it |
| Strings.NatToString | app/booking/page.tsx:51 | `String(h)` gives decimal digits without a leading zero; one digit exactly below 10, at most two exactly below 100 |
| Strings.IntToString | lib/supabase/server.ts:48 | the decimal text of an integer starts with '-' exactly when it is negative; the rest is all digits and reads back as the magnitude |
| Strings.DigitsValueOfNatToString | app/booking/page.tsx:47 | `parseInt` of `String(n)` gives back `n` |
| Strings.StrLtIrreflexive | app/gallery/page.tsx:88 | the order used to sort category names is irreflexive |
| Strings.StrLtTransitive | app/gallery/page.tsx:88 | the sort order is transitive |
| Strings.StrLtTotal | app/gallery/page.tsx:88 | any two distinct names are ordered one way or the other |
| Strings.StrLtAsymmetric | app/gallery/page.tsx:88 | the sort order is asymmetric |
| Pricing.Round | lib/pricing.ts:63-65 | `Math.round` gives the integer within one half of its argument, rounding halves up |
| Pricing.RoundMonotone | lib/pricing.ts:68 | rounding preserves order |
| Pricing.RoundWithin | lib/pricing.ts:68 | a value between 0 and a whole bound rounds to a whole number between 0 and that bound |
| Pricing.DiscountWithin | lib/pricing.ts:68-69 | a rounded percentage in [0,100] of a non-negative amount lies between 0 and the amount, so the discount never exceeds what it is taken from |
| Pricing.ClampPercent | lib/pricing.ts:90-94 | `clampPercent` is in [0,100], is a multiple of 1/100, sends `NaN` and non-positive values to 0 and values from 100 up to 100, and stays within 0.005 of any value in range |
| Pricing.ClampFixedPoint | lib/pricing.ts:90-94 | a percent already in [0,100] with at most two decimals is left unchanged |
| Pricing.ClampIdempotent | lib/pricing.ts:90-94 | clamping twice is the same as clamping once |
| Pricing.ClampMonotone | lib/pricing.ts:90-94 | clamping preserves order |
| Pricing.FirstMatch | lib/pricing.ts:44-46 | `rules.find`: the index of the first tier whose range contains the guest count, or the table's length when none does |
| Pricing.GroupDiscountPercent | lib/pricing.ts:39-48 | the group discount is always a percent in [0,100], and a `NaN` or non-positive guest count gets 0; which tier applies is stated by the two lemmas below |
| Pricing.GroupDiscountFirstMatch | lib/pricing.ts:44-47 | when a tier matches, the discount is the clamped percent of the first one |
| Pricing.GroupDiscountNoMatch | lib/pricing.ts:47 | when no tier matches, there is no discount |
| Pricing.DefaultTable | lib/pricing.ts:31-48 | with the default table a whole guest count gets the tier of the table: 0% up to 2 guests, 10% for 3, 15% for 4, 20% for 5, 30% for 6-7, 45% from 8 |
| Pricing.DefaultTableValues | lib/pricing.ts:31-48 | for any guest count, including fractional and `NaN` ones, the default table gives one of 0, 10, 15, 20, 30 or 45 percent |
| Pricing.SafePrice | lib/pricing.ts:59 | the price used is non-negative; a non-negative price is kept and a `NaN` or non-positive one becomes 0 |
| Pricing.SafeGuests | lib/pricing.ts:60 | the guest count used is at least 1; a count from 1 up is floored, and a `NaN` count or one below 1 becomes 1 |
| Pricing.BaseTotal | lib/pricing.ts:62-65 | the base is non-negative: one guest with a multiplier above 1 pays the rounded product of price and multiplier, everyone else the rounded product of price and guests |
| Pricing.Breakdown | lib/pricing.ts:50-88 | the breakdown uses the normalised price and guests, the given multiplier or 2, the group percent of the normalised guests under the given or default table, and the clamped coupon or 0; solo pricing applies exactly for one guest with a multiplier above 1; the discounts are the rounded percentages of the base and of the subtotal; 0 <= total <= subtotal <= base |
| Pricing.DefaultSoloDoubles | lib/pricing.ts:54-65 | with no multiplier given, one guest triggers the surcharge and pays the rounded double price |
| Pricing.NoSurchargeAtOrBelowOne | lib/pricing.ts:62 | a multiplier of 1 or less, or `NaN`, never triggers the surcharge |
| Pricing.GroupDiscountFromGuests | lib/pricing.ts:67 | the group discount is taken from the normalised guest count, with the default table unless rules are given |
| Pricing.SoloGetsNoGroupDiscount | lib/pricing.ts:67-69 | with the default table a single guest gets no group discount, so the subtotal equals the base |
| Pricing.CouponPercentClamped | lib/pricing.ts:71 | the coupon percent used is the clamped input, 0 when no coupon is given |
| Pricing.SubtotalIgnoresCoupon | lib/pricing.ts:69-72 | the coupon does not change any figure up to the subtotal after the group discount |
| Pricing.PercentOfMonotone | lib/pricing.ts:72 | a larger percentage of the same amount takes no less |
| Pricing.CouponMonotone | lib/pricing.ts:71-73 | a larger coupon never raises the total |
| Pricing.FullCouponIsFree | lib/pricing.ts:71-73 | a coupon of 100 percent or more makes the total 0 |
| Pricing.FreeWhenNoPrice | lib/pricing.ts:59-73 | with a missing, `NaN` or non-positive price the base and the total are 0 |
| Pricing.GuestsNormalised | lib/pricing.ts:60 | a `NaN` guest count or one below 1 is charged as one guest |
| Pricing.ExampleSolo | lib/pricing.ts:62-65 | one guest at 10000 yen pays 20000 under the default doubling, with no group discount |
| Pricing.ExampleThreeGuests | lib/pricing.ts:63-69 | three guests at 10000 yen: base 30000, 10% off, total 27000 |
| Pricing.ExampleEightGuestsWithCoupon | lib/pricing.ts:63-73 | eight guests at 10000 with a 20% coupon: 80000, less 45% is 44000, less 8800 is 35200; the discounts compound |
| Pricing.ExampleTwoGuestsHalfCoupon | lib/pricing.ts:63-73 | two guests with a 50% coupon pay half of 20000 |
| Pricing.DisplayYen | lib/pricing.ts:96-102 | `fmtJPY` formats a non-negative whole number: 0 for negatives, otherwise within one half of the amount |
| Booking.NormPick | app/booking/page.tsx:36-39 | `normPick`: a falsy value gives the empty pick, a string becomes the address with no coordinates, an object's address falls back to its label and then to "", and each coordinate is kept only when finite |
| Booking.NormPickOfLocation | app/booking/page.tsx:316 | a location chosen in the map picker arrives with its address and both coordinates |
| Booking.NormPickIdempotent | app/booking/page.tsx:36-39 | a normalised pick handed back as an object normalises to itself |
| Booking.MatchTime | app/booking/page.tsx:45-46 | whatever the time pattern accepts is a well-formed label (1-2 hour digits, a colon, 2 minute digits, optional spaces, AM or PM in any case) that spells the input exactly |
| Booking.MatchSpell | app/booking/page.tsx:45 | the pattern accepts every well-formed time label and captures its parts |
| Booking.SpellIsTrimmed | app/booking/page.tsx:45 | a well-formed time label is unchanged by `trim()` |
| Booking.Hour24 | app/booking/page.tsx:48-50 | for hours 1-12, PM adds 12 except at 12 and 12 AM becomes 0; the result is below 24 and is afternoon exactly for PM |
| Booking.PadStart2 | app/booking/page.tsx:51 | `padStart(2, "0")` gives at least two characters, ending in the input and padded with zeros |
| Booking.ToSqlTime | app/booking/page.tsx:41-52 | `toSqlTime`: empty input gives "", and the result is the specification `SqlTime` |
| Booking.SqlTimeOfSpelled | app/booking/page.tsx:45-51 | a well-formed label becomes the padded 24-hour hour, its minutes and ":00" |
| Booking.SqlTimeIsClockTime | app/booking/page.tsx:45-51 | for hours 1-12 the result has the shape HH:MM:SS, keeps the minutes, and has hour 12 or more exactly for PM |
| Booking.SqlTimeRejects | app/booking/page.tsx:42-46 | an empty string, or a string that neither parses as a date nor matches the pattern, gives "" |
| Booking.SqlTimeHourUnchecked | app/booking/page.tsx:47-51 | the hour is not range-checked: "13:00 PM" becomes "25:00:00" |
| Booking.SqlTimeTwelveAm | app/booking/page.tsx:50 | "12:00 AM" becomes midnight, "00:00:00" |
| Booking.SqlTimeSixThirtyPm | app/booking/page.tsx:49-51 | "6:30 PM" becomes "18:30:00" |
| Booking.FindMappedTour | app/booking/page.tsx:104-118 | after mapping the fetched rows, looking a tour up by its public id (the external id when set, else the row id) finds that row when no earlier row shares the id; the tour found keeps the row id as its key, a price defaulting to 0 and a guest limit defaulting to 1 |
| Booking.BookingPage.LoadTours | app/booking/page.tsx:104-121 | the mapped rows replace the tour list; when rows arrived and nothing truthy is selected, the first tour becomes the selected tour; otherwise the selection is kept |
| Booking.FindTour | app/booking/page.tsx:65 | `tours.find`: the index of the first tour with the selected id, or the list length when there is none |
| Booking.StepDown | app/booking/page.tsx:352 | the minus button never goes below 1 |
| Booking.StepUp | app/booking/page.tsx:354 | the plus button never goes above the tour's limit |
| Booking.StepsUndo | app/booking/page.tsx:352-354 | inside the limits, plus then minus (and minus then plus) returns to the same count |
| Booking.StepsKeepRange | app/booking/page.tsx:352-354 | from a count between 1 and the limit, either button stays between 1 and the limit |
| Booking.BookingPage.constructor | app/booking/page.tsx:59-76 | the form starts with no tours, no selection, one guest, empty fields, an empty pickup and terms not agreed |
| Booking.BookingPage.SelectedTour | app/booking/page.tsx:65 | the selected tour exists exactly when some loaded tour has the selected id, and it is one of them with that id |
| Booking.BookingPage.TotalWithinGuestRange | app/booking/page.tsx:128 | with a non-negative price and a guest count between 1 and the tour's limit, the page's total lies between one guest's price and the limit's worth |
| Booking.BookingPage.DecrementGuests | app/booking/page.tsx:352 | the guest count becomes `StepDown` of the old count; nothing else changes |
| Booking.BookingPage.IncrementGuests | app/booking/page.tsx:354 | the guest count becomes `StepUp` of the old count under the tour's limit; nothing else changes |
| Booking.BookingPage.SetPickup | app/booking/page.tsx:316 | the pickup becomes the normalised picker value |
| Booking.BookingPage.HandleBooking | app/booking/page.tsx:137-178 | the guards apply in source order, and each outcome holds exactly when its guard is the first to fail: no tour, terms not agreed, a required field empty, time unparseable. Otherwise the inserted row carries the tour's database id, date, non-empty SQL time, guests, `price * guests`, pickup, contact fields, special requests or null, and "pending" statuses |
| Booking.EngineChargesSoloDouble | app/booking/page.tsx:128 | for one guest the pricing engine would charge twice the price, where the page charges it once |
| Booking.EngineAppliesGroupDiscount | app/booking/page.tsx:128 | for two guests or more the engine would take off the default group tier, which the page never applies |
| Booking.EngineBaseTotal | lib/pricing.ts:60-65 | with two guests or more the engine's base is exactly price times guests |
| MapPicker.PickupRestrictions | components/map-picker.tsx:23-59 | only the Osaka food tour (id "osaka-food" or "2") is unsearchable, with the fixed Dotonbori Bridge meeting point and no areas. Every other tour is searchable and allows Kyoto and Osaka. Unknown tours get Kyoto, Osaka and Kobe |
| MapPicker.Candidates | components/map-picker.tsx:113-122 | a location is a candidate exactly when it is in the list, its address contains the query ignoring case, and it lies in an allowed area or the areas include "Other". Candidates keep the list's order |
| MapPicker.WideAreasAdmitEveryMatch | components/map-picker.tsx:46-51 | the Kansai-wide tour "4" is searchable, allows Nara, and admits every text match because its areas include "Other" |
| MapPicker.DefaultAreasExclude | components/map-picker.tsx:52-57 | an unknown tour never suggests a location outside Kyoto, Osaka and Kobe |
| MapPicker.PrefixFirst | components/map-picker.tsx:125-129 | the relevance sort is a permutation that puts every address starting with the query before every other, keeping each group's order |
| MapPicker.SplitOrdered | components/map-picker.tsx:125-129 | prefix matches followed by the rest are in relevance order |
| MapPicker.SplitFilters | components/map-picker.tsx:125-129 | the split recovers each group unchanged |
| MapPicker.TakeKeepsPrefixMatchesFirst | components/map-picker.tsx:131 | cutting to the first eight keeps the relevance order |
| MapPicker.Suggestions | components/map-picker.tsx:113-131 | at most 8 suggestions. Each is a mock location whose address contains the query and which lies in an allowed area. Prefix matches come first. The length is the number of candidates capped at 8. The result is a prefix of the sorted candidates |
| MapPicker.SuggestionsComplete | components/map-picker.tsx:113-131 | when there are at most 8 candidates, every matching location in an allowed area is suggested |
| MapPicker.PickerState.constructor | components/map-picker.tsx:61-99 | the picker starts with the tour's id, the mock locations, an empty query, no suggestions shown and nothing selected |
| MapPicker.PickerState.HandleSearch | components/map-picker.tsx:102-135 | a blank query clears and hides the suggestions. Any other query shows `Suggestions` for this tour's restrictions and ends with loading cleared |
| MapPicker.PickerState.SearchEffect | components/map-picker.tsx:137-145 | the debounced effect changes nothing for an unsearchable tour; for a searchable one a blank query clears and hides the list, and any other query shows `Suggestions` for the current query with loading cleared |
| MapPicker.PickerState.HandleLocationClick | components/map-picker.tsx:147-151 | a click reports the location (appended to the selections), puts its address in the search box, hides the list and leaves the suggestions as they are |
| Cookies.MaxAgeTextReadsBack | lib/supabase/server.ts:48 | the Max-Age text of a non-negative number is digits reading back as its floor; of a negative number, '-' and digits reading back as the floor's magnitude |
| Cookies.RenderSeparated | lib/supabase/server.ts:48-54 | every attribute is written after a "; " separator |
| Cookies.RenderAllConcat | lib/supabase/server.ts:47-55 | writing two attribute lists one after the other is writing their concatenation |
| Cookies.SerializeCookie | lib/supabase/server.ts:45-56 | the header is `name=` plus the encoded value, followed by the rendered attributes in the fixed order |
| Cookies.AppendPart | lib/supabase/server.ts:48-54 | each optional `cookie +=` step extends the header by exactly the attributes it adds |
| Cookies.RemoveCookie | lib/supabase/server.ts:37-38 | removal writes an empty encoded value and "; Max-Age=0" first, then every other attribute of the options, whatever `maxAge` they held |
| Cookies.LeadingMaxAgeZero | lib/supabase/server.ts:38 | the header of a removal starts its attributes with "; Max-Age=0" |
| Cookies.AttrsOrdered | lib/supabase/server.ts:48-54 | the attributes always come in the order Max-Age, Domain, Path, Expires, HttpOnly, Secure, SameSite, with no attribute repeated |
| Cookies.InAttrs | lib/supabase/server.ts:48-54 | an attribute is in the header exactly when one of the seven steps adds it; Path is always added |
| Cookies.PathAlwaysPresent | lib/supabase/server.ts:50 | a Path attribute is always present, "/" by default, and is the only path written |
| Cookies.MaxAgeIffSet | lib/supabase/server.ts:48 | a Max-Age attribute appears exactly when `maxAge` is set, and it is then the first attribute |
| Cookies.SecureRule | lib/supabase/server.ts:53 | Secure appears exactly when `secure` is true, or when it is unset and the environment is production |
| Cookies.TruthyAttributes | lib/supabase/server.ts:49-54 | Domain, Expires, HttpOnly and SameSite each appear exactly when their option is truthy |
| Cookies.RemoveKeepsOtherAttributes | lib/supabase/server.ts:38 | the options with `maxAge` 0 give "Max-Age=0" followed by exactly the attributes of the options without `maxAge` |
| Tours.FilteredTours | app/tours/page.tsx:48-56 | a tour is listed exactly when the query is blank, or its title, short title or description contains the lower-cased query ignoring case. The list keeps the original order |
| Tours.BlankQueryKeepsAll | app/tours/page.tsx:49 | a blank or whitespace-only query lists every tour |
| Tours.NoMatchListsNothing | app/tours/page.tsx:50-54 | a non-blank query that matches no field lists nothing |
| Tours.NullFieldsNeverMatch | app/tours/page.tsx:52-54 | a tour whose three fields are all missing is listed only for a blank query |
| Tours.SpacesMatchLiterally | app/tours/page.tsx:49-54 | a query is trimmed only to test blankness. Its spaces are then searched for literally |
| Tours.UntrimmedQueryMisses | app/tours/page.tsx:49-54 | " kyoto" finds nothing in a tour titled "Kyoto" |
| Tours.TrimmedQueryFinds | app/tours/page.tsx:50-54 | "kyoto" finds the tour titled "Kyoto": matching ignores case |
| Tours.BlankQueryOrMatch | app/tours/page.tsx:48-56 | when every tour passes the filter (blank query or a field match), the list comes back unchanged, in the same order |
| Gallery.OrEmptyIsCoalesce | app/gallery/page.tsx:87-93 | for strings `\|\|` and `??` agree, since "" maps to "" either way |
| Gallery.Insert | app/gallery/page.tsx:87-88 | inserting a name gives exactly the old names plus the new one |
| Gallery.InsertSorted | app/gallery/page.tsx:87-88 | inserting into a strictly sorted list keeps it strictly sorted, so no duplicate appears |
| Gallery.SortedDistinct | app/gallery/page.tsx:87-88 | `Array.from(new Set(names)).sort(...)` holds exactly the input's names |
| Gallery.SortedDistinctSorted | app/gallery/page.tsx:87-88 | the deduplicated list is strictly sorted, so each name appears once |
| Gallery.ButtonsSorted | app/gallery/page.tsx:87-88 | the buttons are strictly sorted, so there are no duplicates |
| Gallery.ButtonsSound | app/gallery/page.tsx:87-88 | every button is a non-empty trimmed category of some item |
| Gallery.ButtonsComplete | app/gallery/page.tsx:87-88 | every non-empty trimmed category has a button |
| Gallery.FallbackMatchesQuery | app/gallery/page.tsx:85-95 | the fallback path and the query path build the same list from the same categories |
| Gallery.FilteredItems | app/gallery/page.tsx:126-130 | "All" shows every item. Any other button shows exactly the items whose untrimmed category (or "") equals it ignoring case. The items keep their order |
| Gallery.UncategorisedOnlyUnderAll | app/gallery/page.tsx:128-129 | an item with no category appears under no button except "All" (and "") |
| Gallery.SpacedCategoryButton | app/gallery/page.tsx:87-90 | an item categorised " Food" produces a "Food" button |
| Gallery.UntrimmedCategoryHidden | app/gallery/page.tsx:126-130 | that "Food" button shows nothing: the filter compares the untrimmed category |
| Gallery.FilteredItemsTrimmed | app/gallery/page.tsx:126-130 | the corrected filter compares the trimmed category, so "All" shows everything and a button shows exactly the items with that trimmed category |
| Gallery.EveryButtonShowsItems | app/gallery/page.tsx:87-90 | under the corrected filter every button built from the items shows at least one item |
| Gallery.ShownUnderOwnCategory | app/gallery/page.tsx:126-130 | under the corrected filter an item with a non-blank category is shown under its own button |
| Gallery.Targets | app/gallery/page.tsx:107 | the items looked up are exactly those with no stored image URL and no URL found yet, in item order |
| Gallery.MergeImageUrls | app/gallery/page.tsx:115-121 | the merging loop produces `Merged`: the earlier map with every found URL written in order, and missing URLs skipped |
| Gallery.MergedKeys | app/gallery/page.tsx:115-121 | after the merge an id has a URL exactly when it had one before or some result found one for it |
| Gallery.MergedLastWins | app/gallery/page.tsx:115-121 | for an id found several times, the last found URL wins |
| Gallery.MergedUrlsNonEmpty | app/gallery/page.tsx:118 | if every stored URL is non-empty, every URL after the merge is non-empty too |
| Gallery.MergedNotTargetAgain | app/gallery/page.tsx:107-121 | an item whose URL was found is not looked up again |
| Gallery.DisplayUrl | app/gallery/page.tsx:184 | an item shows its stored URL, else the URL found for it, else the placeholder |
| Gallery.TargetShowsPlaceholder | app/gallery/page.tsx:184 | an item still waiting for its lookup shows the placeholder |
| Gallery.FoundUrlIsDisplayed | app/gallery/page.tsx:184 | once a URL is found for an item without a stored one, that URL is displayed |
| Gallery.StoredUrlWins | app/gallery/page.tsx:184 | a stored URL is displayed whatever the lookups found |

## Left out

- Numbers are exact reals and never IEEE doubles. There is no `Infinity`, no binary rounding of `x * 100 / 100` or `percent / 100`, and no coercion of non-numeric values by `Number(...)`. `Math.round` is `floor(x + 1/2)`, as in JavaScript.
- `Strings.Lower`, `Strings.Upper`, `Strings.Trim`: ASCII only. Unicode case mapping and the Unicode whitespace class of `trim` and `\s` are not modelled.
- `Strings.StrLt`: `localeCompare` is modelled as ordinal code-unit order. Locale collation is not modelled. Only the facts the sort needs (a strict total order) are proved.
- `Pricing.DisplayYen`: only the amount passed to `Intl.NumberFormat` is modelled. The currency formatting itself is not.
- `Booking.ToSqlTime`: the `new Date(t)` branch (app/booking/page.tsx:43-44) is a parameter `dateTime` that returns the already formatted time or nothing. Date parsing is not modelled.
- `Cookies.SerializeCookie`: `encodeURIComponent` is the parameter `encode`. `toUTC` is represented by the `utc` text carried by each expiry, since Date formatting is not modelled.
- `Cookies.SerializeCookie`: `NODE_ENV === "production"` is the boolean parameter `production`.
- The app-router cookie adapter (lib/supabase/server.ts:14-18) writes into Next's external cookie store and is not part of this model. The `get` callbacks only read request cookies and are left out for the same reason.
- `MapPicker.PickerState.HandleSearch`: the 300 ms simulated delay is collapsed. The suggestions appear in the same step and the loading flag ends cleared, so the intermediate loading state is not observable.
- `MapPicker.PickerState.SearchEffect`: the 300 ms debounce and its cancellation are collapsed into one call per query change.
- `MapPicker.PrefixFirst`: the in-place `Array.prototype.sort` is modelled by its result on values. The stable-sort guarantee that keeps each group's order is taken as the ECMAScript one.
- `Gallery.SortedDistinct`: the `Set` and the in-place sort are modelled by their result on values.
- React rendering, effects and their `mounted`/`cancelled` flags, loading flags other than the picker's, and the booking page's `submitting` flag are not modelled.
- Supabase queries (tour list, categories, gallery items), the booking insert itself, `alert`, and the redirect after booking are I/O. The booking guards return a `BookingOutcome` instead, and insert errors are not modelled.
- Storage lookups (`getFirstImageUrlForId`) are I/O. Their results are the `results` parameter of `Gallery.MergeImageUrls`.
- The fetch of the tour list and its error path are I/O. `Booking.BookingPage.LoadTours` receives the fetched rows, and the selection read from the URL is the incoming `selectedId`.
- Numeric columns and rule bounds (tour `price` and `max_guests`, a rule's `min` and `max`) are whole numbers in the model, where JavaScript allows any number. `Number(...)` of a non-numeric column is not modelled.
- `Booking.NormPick`: a truthy value that is neither a string nor an object (a number, `true`) is read as an object with no fields. It is modelled as a `Place` with no address and non-finite coordinates.

## Findings

| source | as written | input that shows it | evidently intended | confidence | as-written member | corrected member |
|---|---|---|---|---|---|---|
| app/gallery/page.tsx:87-90, 128-129 | category buttons are built from trimmed categories, but the filter compares each item's untrimmed category | one item with category " Food": the page shows a "Food" button, and choosing it shows no items | the filter trims the item's category as the buttons do, so every button shows the items it came from | not executed | Gallery.UntrimmedCategoryHidden | Gallery.FilteredItemsTrimmed |
