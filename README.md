# Rental listings: search, favorites and lease actions in Dafny

A model of the behaviour of a small client-side rental-listing app
(bill-share-circle). The app is mostly presentational. Three groups of logic
are modelled here, with what is proved about them:

- **Property search** (`src/pages/Search.tsx`). `applyFilters` narrows the
  catalog through eight guarded stages, in this order:
  1. the case-insensitive text query;
  2. location;
  3. minimum rent and maximum rent;
  4. property type;
  5. minimum bedrooms and minimum bathrooms;
  6. required amenities.

  The model keeps the stage-by-stage method. It proves that the method
  computes a single one-pass filter, `Matching`. All the search laws are
  stated on that filter: order preservation, the exact membership condition,
  idempotence, and the JavaScript truthiness quirks (an empty location or a
  rent bound of 0 is ignored, while a bedroom or bathroom threshold of 0
  counts).
- **Filter panel and favorites** (`src/components/property/SearchFilters.tsx`,
  `src/pages/Favorites.tsx`, `src/pages/Index.tsx`). These are:
  - the single-key update of the filter record;
  - the list-as-set toggle used for property types, amenities and favorites;
  - the text/number conversions of the panel's inputs;
  - the favorites projection;
  - the home page's featured selection;
  - the home page's trim guard on search.
- **Lease actions** (`src/pages/Leases.tsx`). These are:
  - the approve and sign handlers, which rewrite the lease list by id;
  - the guards that decide which buttons a lease card shows;
  - the status label and badge colour.

  Over any sequence of guarded button presses with unique ids, statuses only
  move `pending_approval` → `approved` → `signed`.

Pages that hold state (`SearchPage`, `FavoritesPage`, `HomePage`,
`LeasesPage`) are classes whose methods update their fields. On the search
and favorites pages, an effect recomputes a derived list (the results, the
favorite cards) after a state change. In the model, `SearchPage.Valid()` and
`FavoritesPage.Valid()` state that derived list, and each method keeps it
true. The home and lease pages derive nothing after a change, so they have
no `Valid()`. Pure code (filters, updates, guards, conversions) is made of functions
and lemmas.

Files:
- `rental.dfy`: the data shapes.
- `lists.dfy`: filter, toggle and subsequence laws.
- `text.dfy`: ASCII lower-casing, substring search and ECMAScript trim.
- `numerals.dfy`: integer numerals and `Number`/`toString`.
- `search.dfy`, `filter_panel.dfy`, `favorites.dfy`, `home.dfy`, `leases.dfy`:
  the pages.
- `mock_data.dfy`: the sample listings and lease, with example lemmas.

The lease page is modelled as the code has it. The code has no activate or
terminate action, and nothing rejects an illegal action or an unknown id.
The handlers set a status unconditionally, and only the buttons shown on a
card restrict what can be pressed. An unknown id leaves the list unchanged.
So the model has no activation, no termination and no error results. It
proves instead that no press ever produces
`active` or `terminated` (`Leases.NoActivationOrTermination`). It also shows
that without unique ids the guards do not confine a change to one lease
(`Leases.SharedIdApprovesDraft`).

## Model

| member | source | states |
|---|---|---|
| Rental.TypeName | src/types/rental.ts:6 | each listing category has its own non-empty name, the string of the TypeScript union |
| Rental.TypeNameInjective | src/types/rental.ts:6 | two categories have the same name exactly when they are the same category |
| Lists.Toggle | src/pages/Search.tsx:105-111 | after a toggle, an id is listed exactly when it was not before; every other listed id stays listed, and nothing new appears |
| Lists.ToggleRemovesInOrder | src/pages/Index.tsx:34-40 | toggling a listed id removes it in place: the result is a strictly shorter subsequence of the list |
| Lists.ToggleAppendsLast | src/pages/Index.tsx:34-40 | toggling an unlisted id appends it: the old list is a proper prefix and the id comes last |
| Lists.ToggleNoDuplicates | src/pages/Index.tsx:34-40 | a duplicate-free list stays duplicate-free under toggling |
| Lists.ToggleTwiceRestores | src/pages/Index.tsx:34-40 | toggling an absent id twice gives back the original list exactly |
| Lists.ToggleTwiceSameValues | src/pages/Favorites.tsx:20-26 | toggling any id twice keeps the same set of ids, even when the id was present (its duplicates and position are not restored) |
| Text.Lower | src/pages/Search.tsx:31 | lower-casing keeps the length, maps every character through the ASCII lower-case map, and leaves no upper-case letter |
| Text.LowerIdempotent | src/pages/Search.tsx:31 | lower-casing twice is lower-casing once |
| Text.TrimEmpty | src/pages/Index.tsx:23 | the trimmed query is empty exactly when every character is ECMAScript white space |
| Numerals.NumberOfShowInt | src/components/property/SearchFilters.tsx:94-95 | reading back the decimal numeral of an integer gives the integer |
| Search.Chain | src/pages/Search.tsx:26-80 | the eight guarded `filter` stages in source order, each narrowing what the previous one left: never longer than the catalog and holding only catalog entries |
| Search.FilterStage | src/pages/Search.tsx:29-80 | one stage, `if (guard) filtered = filtered.filter(keep)`: the list filtered by the callback when the guard is on, the list unchanged otherwise |
| Search.ChainIsMatching | src/pages/Search.tsx:26-83 | the eight guarded filter stages, run one after another, select exactly the one-pass filter by every active constraint |
| Search.ApplyFilters | src/pages/Search.tsx:26-83 | narrowing the list stage by stage, each stage under its own guard, returns exactly the one-pass search result |
| Search.MatchingIsSubsequence | src/pages/Search.tsx:26-82 | the search result keeps catalog order: it is a subsequence of the catalog and no longer |
| Search.MatchingMembership | src/pages/Search.tsx:26-82 | a listing is in the result exactly when it is in the catalog and satisfies every active constraint |
| Search.KeptIffPassesEveryStage | src/pages/Search.tsx:29-80 | each stage's exact condition: the lowered query in the lowered title, description, city, state, address or an amenity; the lowered location in the lowered city or state or the raw zip code; inclusive rent bounds unless 0; type membership; `>=` thresholds; every amenity listed verbatim |
| Search.SameVerdictSameResult | src/pages/Search.tsx:26-82 | two searches that accept the same catalog entries give the same result list |
| Search.NoFiltersKeepsAll | src/pages/Search.tsx:27-82 | the empty query with the empty filter record lists the whole catalog in order |
| Search.MatchingIdempotent | src/pages/Search.tsx:26-82 | searching an already searched result again with the same query and filters changes nothing |
| Search.QueryCaseInsensitive | src/pages/Search.tsx:30-39 | a query and its lower-cased form select the same listings |
| Search.EmptyLocationIgnored | src/pages/Search.tsx:43-50 | an empty location string selects exactly what no location selects |
| Search.ZeroRentBoundIgnored | src/pages/Search.tsx:53-58 | a minimum or maximum rent of 0 is skipped like an absent bound |
| Search.ZeroThresholdKeepsAll | src/pages/Search.tsx:66-73 | a bedroom or bathroom threshold of 0 keeps every listing with a non-negative count, studios included |
| Search.RaisingBedroomsNarrows | src/pages/Search.tsx:66-68 | raising the bedroom threshold can only drop listings |
| Search.MoreAmenitiesNarrows | src/pages/Search.tsx:76-80 | requiring one more amenity can only drop listings, and every listing kept has that amenity (AND, not OR) |
| Search.SearchPage.constructor | src/pages/Search.tsx:13-24 | the page opens with the `q` parameter as query (or the empty query), no filters, no favorites, and the results for that query |
| Search.SearchPage.SetSearchQuery | src/pages/Search.tsx:16-24 | typing a query replaces it, keeps the filters and favorites, and the shown results follow the new query |
| Search.SearchPage.SetFilters | src/pages/Search.tsx:19-24 | a new filter record from the panel replaces the old one, and the shown results follow it |
| Search.SearchPage.HandleSearch | src/pages/Search.tsx:85-91 | the `q` URL parameter is written exactly when the query is non-empty, untrimmed, so reopening the page restores the query |
| Search.SearchPage.IsFavorited | src/pages/Search.tsx:190 | a result card is marked exactly when its id is in the favorites list |
| Search.SearchPage.ResetFilters | src/pages/Search.tsx:99-103 | the filters and the query are cleared, favorites kept, the whole catalog is shown, and the `q` URL parameter is cleared |
| Search.SearchPage.ToggleFavorite | src/pages/Search.tsx:105-111 | the id's favorite mark flips; the query, filters and shown results do not change |
| FilterPanel.Field | src/types/rental.ts:70-78 | reading a key of the filter record gives a value of that key's declared type |
| FilterPanel.UpdateFilters | src/components/property/SearchFilters.tsx:24-26 | the updated record holds the new value under the key and every other key's old value |
| FilterPanel.FieldsDetermineRecord | src/types/rental.ts:70-78 | two filter records with the same value under every key are the same record |
| FilterPanel.UpdateSameValue | src/components/property/SearchFilters.tsx:24-26 | storing a key's own value gives the record back |
| FilterPanel.UpdateTwiceLastWins | src/components/property/SearchFilters.tsx:24-26 | of two updates of the same key, the later wins |
| FilterPanel.UpdatesCommute | src/components/property/SearchFilters.tsx:24-26 | updates of two different keys commute |
| FilterPanel.TogglePropertyType | src/components/property/SearchFilters.tsx:28-34 | the type is listed afterwards exactly when it was not (an absent list reads as empty); other types are kept; no other field changes |
| FilterPanel.ToggleAmenity | src/components/property/SearchFilters.tsx:36-42 | the same toggle on the amenities list, and no other field changes |
| FilterPanel.FirstTypeToggle | src/components/property/SearchFilters.tsx:29-33 | with no type list yet, the first toggle gives the one-element list |
| FilterPanel.TypeToggleTwiceRestores | src/components/property/SearchFilters.tsx:28-34 | toggling an unlisted type twice restores the record exactly |
| FilterPanel.TypeToggleTwiceFromAbsent | src/components/property/SearchFilters.tsx:28-34 | from an absent list, two toggles leave an empty list instead, which searches the same |
| FilterPanel.AmenityToggleTwiceRestores | src/components/property/SearchFilters.tsx:36-42 | toggling an unlisted amenity twice restores the record exactly |
| FilterPanel.PanelTogglesNoDuplicates | src/components/property/SearchFilters.tsx:28-42 | duplicate-free type and amenity lists stay duplicate-free under the panel's toggles |
| FilterPanel.PropertyTypesAreTheCategories | src/components/property/SearchFilters.tsx:18 | the type check boxes are exactly the five category names, each once |
| FilterPanel.ClickFlipsOnlyThatBox | src/components/property/SearchFilters.tsx:134-158 | the type and amenity box labels (`propertyTypes`, `amenitiesList`) do not repeat, and clicking a box flips its own tick and leaves every other box's tick as it was |
| FilterPanel.FromInput | src/components/property/SearchFilters.tsx:75 | an input value is undefined exactly when the input text is empty, a number otherwise |
| FilterPanel.RentInputText | src/components/property/SearchFilters.tsx:74 | a rent input shows a numeral, and shows nothing exactly when the bound is absent or 0 |
| FilterPanel.CountChoiceText | src/components/property/SearchFilters.tsx:94 | a count select shows nothing exactly when no threshold is set, so a threshold of 0 shows "0" |
| FilterPanel.FromInputShowInt | src/components/property/SearchFilters.tsx:75 | a non-empty numeric input gives back the number it shows |
| FilterPanel.RentInputRoundTrip | src/components/property/SearchFilters.tsx:84-85 | a rent bound survives a trip through its input, except that 0 comes back undefined |
| FilterPanel.RentInputKeepsResult | src/components/property/SearchFilters.tsx:74-75 | re-entering what the minimum-rent input shows leaves the search result unchanged |
| FilterPanel.CountChoiceRoundTrip | src/components/property/SearchFilters.tsx:94-95 | a count threshold survives a trip through its select unchanged, 0 included |
| FilterPanel.BedroomChoicesMeaning | src/components/property/SearchFilters.tsx:95-106 | the bedroom options (`BedroomChoices`, the six select items) are read so that "Any" sets no threshold, "Studio" sets 0 and "N+" sets N |
| FilterPanel.BathroomChoicesMeaning | src/components/property/SearchFilters.tsx:116-125 | the bathroom options (`BathroomChoices`, the four select items) are read so that "Any" sets no threshold and "N+" sets N |
| Favorites.Displayed | src/pages/Favorites.tsx:14-16 | every card shown is a catalog entry whose id is a favorite, so every shown card is marked favorited |
| Favorites.DisplayedMembership | src/pages/Favorites.tsx:14-16 | a catalog entry is shown exactly when its id is a favorite |
| Favorites.DisplayedInCatalogOrder | src/pages/Favorites.tsx:14-16 | the cards follow catalog order: a subsequence of the catalog |
| Favorites.DisplayedIgnoresFavoritesOrder | src/pages/Favorites.tsx:14-16 | the order and repetition of the favorite ids do not change what is shown |
| Favorites.ToggledOffNotDisplayed | src/pages/Favorites.tsx:12-26 | after a favorite id is toggled off, no card with that id is shown |
| Favorites.ToggledOnDisplayed | src/pages/Favorites.tsx:12-26 | after an id is toggled on, its catalog entries are shown and every card shown before still is |
| Favorites.FavoritesPage.constructor | src/pages/Favorites.tsx:10-18 | the page opens with the favorites `InitialFavorites`, the ids '1' and '3', and their cards |
| Favorites.FavoritesPage.IsFavorited | src/pages/Favorites.tsx:60 | the mark on a card is favorites membership, and every card the page shows carries it |
| Favorites.FavoritesPage.ToggleFavorite | src/pages/Favorites.tsx:20-26 | the id's mark flips, the cards follow, and a toggled-off id has no card |
| Home.Featured | src/pages/Index.tsx:18 | at most three listings are featured, each a featured catalog entry |
| Home.FeaturedIsFirstThree | src/pages/Index.tsx:18 | the selection is the first min(3, n) of the n featured listings, in catalog order, and all of them when n is at most three |
| Home.ShouldSearch | src/pages/Index.tsx:23 | the trim guard holds exactly when some character of the query is not white space |
| Home.HomePage.constructor | src/pages/Index.tsx:12-20 | the page opens with the featured selection, an empty query and no favorites |
| Home.HomePage.SetSearchQuery | src/pages/Index.tsx:13 | typing replaces the query and nothing else |
| Home.HomePage.HandleSearch | src/pages/Index.tsx:22-26 | a search target exists exactly when the query has a non-white-space character, and it is the untrimmed query |
| Home.HomePage.IsFavorited | src/pages/Index.tsx:181 | a featured card is marked exactly when its id is in the favorites list |
| Home.HomePage.ToggleFavorite | src/pages/Index.tsx:34-40 | the id's mark flips, every other id's mark is kept, and a duplicate-free list stays so |
| Leases.StatusColor | src/pages/Leases.tsx:17-34 | terminated is destructive, draft is secondary, and exactly the other four are default |
| Leases.StatusText | src/pages/Leases.tsx:36-53 | every status has a non-empty label |
| Leases.StatusTextDistinct | src/pages/Leases.tsx:36-53 | two statuses share a label exactly when they are the same status |
| Leases.ApproveLease | src/pages/Leases.tsx:83-89 | every lease with the id gets status approved and keeps every other field; every other lease and the length are unchanged |
| Leases.SignLease | src/pages/Leases.tsx:91-104 | every lease with the id gets status signed and the tenant signature (signed, signed at now) in one update; the landlord signature, other fields, other leases and the length are unchanged |
| Leases.UnknownIdChangesNothing | src/pages/Leases.tsx:83-104 | approving or signing an id no lease carries leaves the list unchanged |
| Leases.Offered | src/pages/Leases.tsx:232-281 | the button guards: View always shows, no other button shows on an active or terminated lease, and Sign never shows once the tenant has signed |
| Leases.Perform | src/pages/Leases.tsx:71-104 | a button press keeps the length of the lease list |
| Leases.LoggingActionsChangeNothing | src/pages/Leases.tsx:71-81 | view, edit and download leave the lease list unchanged |
| Leases.NoActivationOrTermination | src/pages/Leases.tsx:83-104 | no button press makes a lease active or terminated that was not already |
| Leases.GuardedPress | src/pages/Leases.tsx:241-281 | with unique ids, a press on a shown button changes only its own lease, by at most one step forward; a signed-by-tenant lease stays so, and a sign press produces one |
| Leases.Replay | src/pages/Leases.tsx:232-281 | a session of presses keeps the length of the lease list |
| Leases.CanReachTransitive | src/pages/Leases.tsx:83-104 | the forward moves the buttons allow compose |
| Leases.ReplayOnlyAdvances | src/pages/Leases.tsx:232-281 | over any session with unique ids, ids stay put, each status only moves along pending approval, approved, signed, and a lease the tenant signed never shows Sign again |
| Leases.SharedIdApprovesDraft | src/pages/Leases.tsx:86-88 | with a shared id, approving a pending lease also approves a draft, so the guards alone do not confine the change |
| Leases.LeasesPage.constructor | src/pages/Leases.tsx:11-15 | the page loads the lease list |
| Leases.LeasesPage.HandleApproveLease | src/pages/Leases.tsx:83-89 | the list becomes the approved rewrite of the old list by the lease's id |
| Leases.LeasesPage.HandleSignLease | src/pages/Leases.tsx:91-104 | the list becomes the signed rewrite of the old list by the lease's id, at the clock reading passed in |
| MockData.HomeFeaturesDowntown | src/data/mockData.ts:28-117 | with the sample listings, the home page features only listing '1' |
| MockData.FavoritesPageOpensWithTwo | src/data/mockData.ts:28-117 | the favorites page opens showing listings '1' and '3', in that order |
| MockData.RentRangeKeepsDowntown | src/data/mockData.ts:28-117 | rent between 2000 and 3000 keeps only listing '1' |
| MockData.StudioThresholds | src/data/mockData.ts:28-117 | a bedroom threshold of 0 keeps all three samples, and 1 drops the studio |
| MockData.GardenFindsHouse | src/data/mockData.ts:28-117 | requiring the amenity "Garden" keeps only listing '3' |
| MockData.LowerCaseGardenFindsNothing | src/data/mockData.ts:28-117 | requiring "garden" keeps nothing: amenities match case-sensitively |
| MockData.SampleLeaseWalkthrough | src/data/mockData.ts:119-138 | the sample lease offers View and Approve only; approving then signing leaves it signed by the tenant, with Download offered and the landlord's signature untouched |

## Left out

- Rendering is not modelled: JSX, CSS classes, icons, card layout and `PropertyCard` (image fallback, the first-three amenity badges, price formatting).
- Currency and date formatting (`formatCurrency`, `formatDate`) are not modelled. They are locale library calls.
- Navigation and URL handling are reduced to the value passed on. This covers `window.location`, `encodeURIComponent` and `useSearchParams`: `Home.HomePage.HandleSearch`, `Search.SearchPage.HandleSearch` and `Search.SearchPage.ResetFilters` return the `q` parameter that would be written (none for a cleared one), and the search page's constructor takes the `q` parameter as an argument.
- `console.log` in the view, edit, download, approve and sign handlers is not modelled. It is output only.
- The clock in `handleSignLease` (`new Date().toISOString()`) is the `now` parameter.
- React scheduling is not modelled. Each `useEffect` that recomputes a derived list is folded into the method that changes its inputs, and the result is stated by `Valid()`. The empty lists a page holds before its first effect runs are not modelled; the constructors build the state after the effect.
- Search.ApplyFilters: `toLowerCase` is modelled as ASCII lower-casing only. Non-ASCII letters are left unchanged, where JavaScript would map them too.
- Search.ApplyFilters: the rent, bedroom and bathroom values are integers. JavaScript numbers can also be fractions or NaN; both are outside this model.
- FilterPanel.FromInput: only an empty string or an optionally signed decimal integer is accepted as input text. Other strings that `Number` accepts (fractions, exponents, white space, "0x" forms) are left out, as is NaN.
- FilterPanel.UpdateFilters: the `any`-typed `value` is required to have the type of the key's field (string, number or string list). JavaScript would store a value of any type.
- Leases.StatusColor: the `default` branches of `getStatusColor` and `getStatusText` (`'secondary'`, `'Unknown'`) are absent. The status datatype has exactly six values, so those branches cannot be reached.
- The signature badges and dates shown on a lease card are not modelled. They are presentation only.
- No example lemma runs a text query (such as "austin") over the sample listings. Refuting a substring in the long sample descriptions is beyond what the prover checks cheaply. The text stage is covered for all inputs by `Search.KeptIffPassesEveryStage`.
- The static design-editor mock (`src/components/figma/FigmaUI.tsx`) and the route table (`src/App.tsx`) have no logic and are not modelled.
