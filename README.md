# WattShare page logic in Dafny

WattShare is a marketplace for used solar equipment, built as a React front end over a Supabase
store. This project models the logic of its browsing pages and proves properties of it:

- **Explore view** (`explore.dfy`, module `Explore`). The listing view filters the fetched
  listings, then sorts them. A listing is kept when a case-insensitive substring search over the
  `String()` of its title or location succeeds and its condition matches. The result is ordered by
  price (either way), by rating or newest first. The sort is a stable sort by the comparator's key.
  Module `ExploreScenarios` works two concrete listings through the whole view.
- **Listing section** (`listing_section.dfy`, module `ListingSection`). The bookmark toggle first
  checks for a duplicate request, then for a signed-in user. It flips the saved set optimistically,
  sends one write, rolls back when the write fails, and always clears the pending mark. The module
  also covers the initial load of the saved set, the five-star row with its per-listing hover map,
  and the results count. The section's state is a class whose handlers are proved against pure
  transition functions.
- **Saved deals** (`saved_deals.dfy`, module `SavedDeals`). A loop fetches each saved listing and
  then its images, in order, and aborts everything on the first failed query. The module also
  models the card props: primary image, location string, `rating || 0` and the saved flag.
- **City picker** (`home_page.dfy`, module `HomePage`). This is the home page's `Location`
  component. It has three state variables and a case-insensitive, order-preserving city filter.
- **Button** (`button.dfy`, module `Button`). The colour style is chosen by substring tests on
  `className`, in priority order. The class string is built from a template literal.
- **JavaScript built-ins** (`common.dfy`, module `Common`). These are the built-ins the pages
  rely on: `String()` of a nullable column, `toLowerCase`, `includes` (a scan, proved equal to
  the substring relation), `filter`, `join`, and the `x || 0` default.

Remote queries and the user lookup are oracles. Their answers are parameters:
`Fetch<T> = Fetched(value) | FetchError`, and `AuthOutcome = SignedIn(id) | SignedOut | AuthRejected`.
Toasts are recorded as `Notice` values. Issued writes go to a call log. The server's
`saved_listings` rows are kept as a ghost set, so that agreement between the page and the server
can be stated.

## Model

| member | source | states |
|---|---|---|
| Common.Lower | src/pages/Explore.tsx:83-88 | toLowerCase keeps the length and folds every character on its own |
| Common.Stringify | src/pages/Explore.tsx:83-97 | `String()` of a column: a string stays itself, null becomes "null" and a missing value "undefined" |
| Common.OrZero | src/pages/Explore.tsx:111 | the zero default keeps a non-zero value and gives 0 exactly when the value is absent or 0 |
| Common.Includes | src/pages/Explore.tsx:83-88 | `includes` never finds a needle longer than the haystack |
| Common.Join | src/pages/SavedDeals.tsx:121 | `join` of no parts is "", of one part that part, and of more the first part, the separator and the join of the rest; the result begins with the first part and ends with the last |
| Common.IncludesIffSubstring | src/pages/Explore.tsx:83-88 | `hay.includes(needle)` holds exactly when needle occurs at some position of hay |
| Common.IncludesEmpty | src/pages/homePage.tsx:62-64 | every string includes the empty string |
| Common.IncludesSelf | src/pages/Explore.tsx:83-85 | every string includes itself |
| Common.Filter | src/pages/Explore.tsx:79-103 | filter keeps only elements passing the test, each with its full multiplicity |
| Common.FilterIsSubsequence | src/pages/homePage.tsx:61-65 | filter keeps the kept elements in their original order |
| Common.FilterKeepsAll | src/pages/homePage.tsx:61-65 | a test every element passes gives the sequence back unchanged |
| Common.NonEmptyParts | src/pages/SavedDeals.tsx:121 | `filter(Boolean)` on strings (the test is Truthy) leaves no empty string |
| Explore.SearchMatches | src/pages/Explore.tsx:81-93 | an empty term passes every listing; a hit on a non-empty term needs a title or location at least as long as the term |
| Explore.ConditionMatches | src/pages/Explore.tsx:95-100 | "all" passes every listing; the exact condition word passes; a word of another length fails |
| Explore.Keep | src/pages/Explore.tsx:80-103 | with no search term and the condition "all", the filter callback keeps the listing |
| Explore.OpeningViewShowsAll | src/pages/Explore.tsx:45-48 | with the page's opening search, condition and sort, the view holds every fetched listing, newest first |
| Explore.SearchIsCaseInsensitiveSubstring | src/pages/Explore.tsx:81-93 | with a non-empty term, the search test holds iff the lower-cased term is a substring of the lower-cased title or location |
| Explore.MissingTitleSearchedAsUndefined | src/pages/Explore.tsx:83-85 | a missing title is searched as the text "undefined" |
| Explore.MissingFieldsMissLongTerm | src/pages/Explore.tsx:83-93 | a listing without title and location is not found by a term longer than "undefined" |
| Explore.Compare | src/pages/Explore.tsx:104-116 | each comparator case is the difference of one integer key (price, minus price, minus the rating, 0 when absent, minus created_at), so the comparator is a consistent total preorder |
| Explore.Insert | src/pages/Explore.tsx:104-117 | insertion adds exactly one element and keeps a key-sorted sequence sorted |
| Explore.Sort | src/pages/Explore.tsx:104-117 | the sort returns a permutation of its input in key order |
| Explore.InsertStable | src/pages/Explore.tsx:104-117 | insertion puts the new element ahead of every element with the same key |
| Explore.SortStable | src/pages/Explore.tsx:104-117 | the sort is stable: elements with equal keys keep their input order |
| Explore.FilteredListings | src/pages/Explore.tsx:79-117 | the view holds exactly the fetched listings that pass both tests, each as often as fetched, with adjacent pairs in comparator order |
| Explore.SortedInKeyOrder | src/pages/Explore.tsx:105-116 | comparator order means rising price for price_low, falling price for price_high, falling rating (0 when absent) for rating, and newest first for any other key |
| Explore.TiesKeepFetchedOrder | src/pages/Explore.tsx:79-117 | listings that tie on the sort key appear in the order they were fetched |
| Explore.ResultsCountIsKeptCount | src/components/ui/Explore/LsitingSection.tsx:437 | with no totalCount the summary shows the number of listings that passed the filter |
| ExploreScenarios.PanelsCheapestFirst | src/pages/Explore.tsx:79-117 | searching "panel" over all conditions, cheapest first, shows the cheaper panel first |
| ExploreScenarios.BothPanelsMatch | src/pages/Explore.tsx:80-103 | both sample listings pass the "panel" search |
| ExploreScenarios.TitleMatchesPanel | src/pages/Explore.tsx:83-93 | the titles "Panel A" and "Panel B" match the term "panel" |
| ExploreScenarios.PanelsByPrice | src/pages/Explore.tsx:106-107 | the price_low sort puts the 50 listing before the 100 listing |
| ExploreScenarios.UsedNewestFirst | src/pages/Explore.tsx:95-100 | the "used" condition keeps only the used listing |
| ListingSection.ResultsCount | src/components/ui/Explore/LsitingSection.tsx:437 | a supplied totalCount is shown, even 0; without one the number of listings shown |
| ListingSection.RemoteOpFor | src/components/ui/Explore/LsitingSection.tsx:94-113 | the write names the user and the listing, and is a delete exactly when the listing was saved |
| ListingSection.Catch | src/components/ui/Explore/LsitingSection.tsx:115-134 | the catch block flips the id's membership, keeps every other id, and adds the failure toast; nothing else changes |
| ListingSection.Finally | src/components/ui/Explore/LsitingSection.tsx:135-142 | the finally block clears the id's pending mark and changes nothing else |
| ListingSection.Settle | src/components/ui/Explore/LsitingSection.tsx:93-142 | the write is logged; on success the server applies it and saved set and toasts stay; on failure the membership flips back, the failure toast is added and the server is untouched; the id ends not pending |
| ListingSection.CatchRevertsOptimistic | src/components/ui/Explore/LsitingSection.tsx:69-127 | the catch block after the optimistic update restores the saved set, leaving the saved or unsaved toast followed by the failure toast |
| ListingSection.Flip | src/components/ui/Explore/LsitingSection.tsx:75-83 | the id's membership is inverted and no other id changes |
| ListingSection.Perform | src/components/ui/Explore/LsitingSection.tsx:95-114 | a successful insert adds the (user, listing) row, a delete removes it, and no other row changes |
| ListingSection.Optimistic | src/components/ui/Explore/LsitingSection.tsx:69-92 | the id becomes pending, its saved membership flips, and the saved or unsaved toast matches the old membership |
| ListingSection.Toggle | src/components/ui/Explore/LsitingSection.tsx:46-143 | a pending id is a no-op; the membership ends flipped only when a user exists and the write succeeds; no user gives only the sign-in toast; a rejected lookup gives only the failure toast; exactly the right insert or delete is sent; a successful write is applied to the server after the saved or unsaved toast; a failed write leaves the server untouched and adds the failure toast; pending ids and other ids are unchanged |
| ListingSection.ToggleAsWritten | src/components/ui/Explore/LsitingSection.tsx:115-127 | as written, a rejected user lookup still flips the membership while sending nothing |
| ListingSection.ToggleKeepsInSync | src/components/ui/Explore/LsitingSection.tsx:46-143 | a toggle keeps the local saved set equal to the server's rows for the user |
| ListingSection.AsWrittenRejectedLookupLosesSync | src/components/ui/Explore/LsitingSection.tsx:115-127 | as written, a rejected lookup makes the local set disagree with the server |
| ListingSection.ToggleTwiceRoundTrip | src/components/ui/Explore/LsitingSection.tsx:69-114 | save then unsave, both succeeding, restores the saved and pending sets and sends one insert then one delete |
| ListingSection.IdSet | src/components/ui/Explore/LsitingSection.tsx:161 | the set of fetched ids holds exactly the ids in the rows |
| ListingSection.LoadSaved | src/components/ui/Explore/LsitingSection.tsx:146-174 | fetched ids replace the saved set; no user changes nothing; a failed lookup or fetch only adds the error toast |
| ListingSection.LoadSavedSyncs | src/components/ui/Explore/LsitingSection.tsx:152-162 | loading the user's server rows puts the local set in agreement with the server |
| ListingSection.StarThreshold | src/components/ui/Explore/LsitingSection.tsx:198-204 | a truthy hovered value is the threshold; no hover or a hovered 0 falls back to the rating, 0 when absent |
| ListingSection.IsFilled | src/components/ui/Explore/LsitingSection.tsx:200-204 | a star is filled exactly when its value is at most the threshold |
| ListingSection.RenderStars | src/components/ui/Explore/LsitingSection.tsx:197-204 | five stars; star i+1 is filled iff i+1 is at most the truthy hovered value, else at most the rating (0 when absent); filled stars form a prefix; the hovered value is looked up by HoveredFor, undefined when the listing is not hovered |
| ListingSection.FilledCount | src/components/ui/Explore/LsitingSection.tsx:200-204 | the number of filled stars is the threshold clamped to 0..5 |
| ListingSection.WithHover | src/components/ui/Explore/LsitingSection.tsx:184-186 | hovering sets the listing's entry and keeps every other entry |
| ListingSection.WithoutHover | src/components/ui/Explore/LsitingSection.tsx:188-194 | leaving deletes only the listing's entry |
| ListingSection.LeaveUndoesHover | src/components/ui/Explore/LsitingSection.tsx:184-194 | hover followed by leave restores a map without the listing |
| ListingSection.SectionState.constructor | src/components/ui/Explore/LsitingSection.tsx:37-43 | the section starts with no hover, nothing saved and nothing pending |
| ListingSection.SectionState.ToggleSaveListing | src/components/ui/Explore/LsitingSection.tsx:46-143 | the handler's step-by-step updates end in the state of the corrected Toggle (a rejected lookup only adds the failure toast), and the hover map is untouched |
| ListingSection.SectionState.FetchSavedListings | src/components/ui/Explore/LsitingSection.tsx:146-174 | the mount-time load ends in the LoadSaved state |
| ListingSection.SectionState.HandleStarHover | src/components/ui/Explore/LsitingSection.tsx:184-186 | the hover map becomes WithHover of the old map |
| ListingSection.SectionState.HandleStarLeave | src/components/ui/Explore/LsitingSection.tsx:188-194 | the hover map becomes WithoutHover of the old map |
| SavedDeals.Assemble | src/pages/SavedDeals.tsx:31-86 | the load succeeds iff every listing and image query succeeds; it then gives one record per saved row, in row order |
| SavedDeals.FindPrimary | src/pages/SavedDeals.tsx:124 | `find` gives the first primary image, and none only when no image is primary |
| SavedDeals.PrimaryImage | src/pages/SavedDeals.tsx:123-126 | the first primary image, else the first image, else none |
| SavedDeals.ImageSrc | src/pages/SavedDeals.tsx:135 | a present, non-empty URL of the chosen image is shown; no image, a null URL or an empty URL gives the placeholder; the source is never empty |
| SavedDeals.FirstPrimaryImageShown | src/pages/SavedDeals.tsx:123-135 | the first primary image's non-empty URL is the card's image source |
| SavedDeals.LocationOf | src/pages/SavedDeals.tsx:119-121 | "city, province" when both are present, the one present otherwise, "" for no address; city and province are read by CityNameOf and ProvinceOf, each `x || ""` through OrEmpty |
| SavedDeals.CardFor | src/pages/SavedDeals.tsx:128-139 | id, title, price and condition pass through; the location is the joined city and province; the image is the primary image's source; the rating is 0 when absent; the card is marked saved |
| SavedDeals.Cards | src/pages/SavedDeals.tsx:118-138 | one card per record, in order, passing id, title, price and condition through, marked saved, with the rating (0 when absent), the location, and the primary image's source, never empty |
| SavedDeals.Built | src/pages/SavedDeals.tsx:71-85 | the pushed record carries the row's id, title, price, condition and rating and the fetched images, and no address |
| SavedDeals.AssembledCardsHaveNoLocation | src/pages/SavedDeals.tsx:71-85 | the built records carry no address, so every card's location is "" |
| SavedDeals.SavedDealsPage.constructor | src/pages/SavedDeals.tsx:14-15 | the page starts with no listings and the spinner showing |
| SavedDeals.SavedDealsPage.FetchSavedListings | src/pages/SavedDeals.tsx:18-94 | no user changes nothing; otherwise loading ends, and the list becomes the assembled records, or stays as it was when any query fails |
| HomePage.CitiesMatching | src/pages/homePage.tsx:61-65 | the filtered list holds only offered cities; the test is MatchesInput, the lower-cased city including the lower-cased input |
| HomePage.MatchingCities | src/pages/homePage.tsx:61-65 | a city is listed iff it is offered and the lower-cased input is a substring of its lower-cased name; the list keeps the offered order |
| HomePage.SomeCityOffered | src/pages/homePage.tsx:61-65 | the list is non-empty iff some city contains the input, case aside |
| HomePage.EmptyInputAllCities | src/pages/homePage.tsx:61-65 | an empty input lists every city |
| HomePage.UpperCaseInputMatchesCity | src/pages/homePage.tsx:62-64 | "KARACHI" still lists Karachi |
| HomePage.DropdownShown | src/pages/homePage.tsx:88 | the city list is rendered exactly when the dropdown is open and the filtered list is non-empty |
| HomePage.InitialPicker | src/pages/homePage.tsx:46-49 | the initial state lists only offered cities and shows no dropdown |
| HomePage.Change | src/pages/homePage.tsx:57-66 | typing sets the input to the value and opens the dropdown, which lists some of the cities in their order |
| HomePage.Select | src/pages/homePage.tsx:68-71 | selecting sets the input to the chosen city, closes the dropdown and keeps the list |
| HomePage.SetOpen | src/pages/homePage.tsx:81-82 | focus and blur change only whether the dropdown is open |
| HomePage.ChangeShowsMatches | src/pages/homePage.tsx:57-66 | after typing, the dropdown shows iff some city contains the input, and it lists exactly the matching cities in order |
| HomePage.ClearingListsAll | src/pages/homePage.tsx:57-66 | clearing the input lists every city |
| HomePage.SelectAfterChange | src/pages/homePage.tsx:57-71 | a selection after typing keeps the typed filter's list and sets the input to the chosen city |
| HomePage.LocationPicker.constructor | src/pages/homePage.tsx:46-49 | "Islamabad" typed, all five cities listed, dropdown closed |
| HomePage.LocationPicker.HandleChange | src/pages/homePage.tsx:57-66 | the state becomes the Change state, and the list stays a subsequence of the cities |
| HomePage.LocationPicker.HandleSelect | src/pages/homePage.tsx:68-71 | the state becomes the Select state |
| HomePage.LocationPicker.HandleFocus | src/pages/homePage.tsx:81 | the dropdown opens and nothing else changes |
| HomePage.LocationPicker.HandleBlur | src/pages/homePage.tsx:82 | the dropdown closes and nothing else changes |
| Button.ButtonType | src/compoundedComponent/Button.tsx:14-20 | primary iff className contains "primary"; secondary iff not primary and it contains "secondary"; tertiary iff neither and it contains "tertiary"; gray otherwise, including no className |
| Button.ButtonClass | src/compoundedComponent/Button.tsx:25 | the class string starts with the base classes, the style and a space, and ends with the caller's className verbatim, rendered by Interpolated ("undefined" when absent) |
| Button.NotPrimaryIsPrimary | src/compoundedComponent/Button.tsx:14-15 | "notprimary" selects the primary style |
| Button.PrimaryWinsOverSecondary | src/compoundedComponent/Button.tsx:14-17 | "secondary primary" selects the primary style |
| Button.MissingClassNameRendersUndefined | src/compoundedComponent/Button.tsx:20-25 | with no className the style is gray and the class string ends in "undefined" |
| Button.ClassNameKept | src/compoundedComponent/Button.tsx:25 | the caller's className occurs in the rendered class string |

## Left out

- Supabase queries, `auth.getUser` and `authState` are not modelled. Their outcomes are parameters of the operations. Console logging is not modelled.
- Toast titles, descriptions and variants are not modelled. Only which toast is raised is recorded.
- Interleaving is not modelled. Each handler runs to completion in one step, so two clicks whose awaits overlap are not modelled. The duplicate-request guard is modelled as a check at entry.
- The paid-deal query and the listings query of the Explore page are not modelled. The fetched listings are the input of the view.
- Prices, ratings and `created_at` are integers. `created_at` is an already-parsed timestamp. Fractional values, `NaN` from an invalid date and a `NaN` comparator result are not modelled.
- The title, location and condition columns may be a string, null or missing. Number-valued columns are not modelled.
- `toLowerCase` folds only ASCII letters. Other Unicode case mappings are not modelled.
- `Array.prototype.sort` is modelled as an insertion sort that gives the same stable result. The engine's own algorithm is not modelled.
- The sort uses the comparator through its integer key. This is exact because every case of the comparator is a difference of keys (see Compare).
- The saved-ids query answering null data without an error (`saved || []`) is modelled as an empty list.
- On the Saved Deals page, `listing_images` is always the fetched array. An undefined `listing_images` cannot arise from the loop.
- The address and city queries are commented out in the source, so they are not modelled. Records carry no address.
- Star clicks (`handleStarClick` calls the `updateRating` prop) are not modelled. Neither is the star markup.
- `e.stopPropagation()` is not modelled.
- The blur handler's 100 ms timer is modelled as having fired: HandleBlur is the timer's callback. A selection that races the timer is not modelled.
- The merge-conflict regions of `homePage.tsx` are not modelled. These are `GridAlignment` and the duplicate `SearchBar` and `FilterBar`.
- Navigation and the rendering of every page are not modelled.
- ListingSection.SectionState.ToggleSaveListing: follows the corrected Toggle when the user lookup rejects, so it does not flip the membership there as the catch block at LsitingSection.tsx:115-127 does; ToggleAsWritten models that path as written (see Findings).
- SavedDeals.SavedDealsPage.FetchSavedListings: the user id is an optional value, so an empty id is treated as a user, whereas `!authState.user?.id` at SavedDeals.tsx:19 also returns early for "". Stored user ids are UUIDs, so no real user has an empty id.
- HomePage.CitiesMatching takes the city list as a parameter. LocationPicker holds the five cities as a constant field, so the proofs do not depend on the literal list.

## Findings

| source | as written | input that shows it | evidently intended | confidence | as-written member | corrected member |
|---|---|---|---|---|---|---|
| src/components/ui/Explore/LsitingSection.tsx:115-127 | when `supabase.auth.getUser()` rejects, the catch block toggles the listing's saved membership, though no optimistic update was made and no write was sent | click save on an unsaved listing while the user lookup rejects: the card shows as saved, but the server holds no row | the catch block reverts only an optimistic update that actually happened; a failed lookup leaves the saved set as it was and only shows the failure toast | low, not executed | ListingSection.ToggleAsWritten, ListingSection.AsWrittenRejectedLookupLosesSync | ListingSection.Toggle, ListingSection.ToggleKeepsInSync, ListingSection.SectionState.ToggleSaveListing |
