# Drone marketplace — a verified model of its client-side logic

This project models, in Dafny, the logic behind a used-drone marketplace web
front end. It covers:

- the home page's listing filter and the search page's text search;
- the filter panel's reset, labels and range tables;
- the advertising data: the three ad pools, the per-category ads, random ad
  selection and the revenue/view/click statistics;
- the rotating banner;
- the community board's category filter, its stable sorts and the inline-ad
  slot;
- the session: login, logout, sign-up and restore from storage;
- favourites: add, remove, query, and syncing with the session;
- the my-page and sales views: favourites, own listings, status tabs and
  counts, status change, delete;
- the sign-up form's validation;
- the sell form's field edits and image list.

Everything is modelled as pure functions over immutable datatypes. A React
state update becomes a function from the old state to the new one. An effect
becomes a function of its inputs. Anything the program reads from outside is
a parameter:

- the drone catalogue and the post list;
- `Math.random()`, a real in [0, 1);
- `Date.now()` and today's date;
- what `localStorage` holds.

Modules, one per source file, plus four shared ones:

- `Wrappers` — `Option`.
- `Seqs` — a generic `Filter` (JavaScript's `Array.prototype.filter`), a
  subsequence relation and the filter algebra: composition, extensionality,
  append, split, monotonicity, and the multiset a filter keeps.
- `Text` — ASCII lower-casing and `String.prototype.includes`.
- `ListingFilters` — the brand, level and price criteria that the home and
  search pages both apply.
- `DroneTypes` — `src/types/drone.ts`.
- `HomePage` and `SearchPage` — the listing pages.
- `FilterSection` — the filter panel.
- `Ads` and `AdBanner` — ads.
- `Community` — the community board.
- `Auth` and `Favorites` — the two contexts.
- `MyPage`, `Sales`, `Signup` and `Sell` — the remaining pages.

The staged filters of the listing pages are each proved equal to a single
filter by the conjunction of their conditions. The community sort is proved
to be a sorted, stable permutation. The banner is proved to cycle through the
slides and to come back to its start after one full cycle. The statistics are
computed for the shipped ad data, and each total is tied to the ads' own
fields. The session is proved to stay consistent over any sequence of
events. Favourites keep their drone ids unique through every add and remove.
The favourites provider is modelled as a whole: session, list in memory and
storage. As written, its sync can leave one user's favourites in memory and
in storage under another user. With the corrected sync, and starting from
storage in which each list belongs to its key's user, every sequence of
session changes, adds and removes keeps each list in memory and in storage
owned by its user (see Findings).

## Model

| member | source | states |
|---|---|---|
| DroneTypes.ParseLevel | src/types/drone.ts:1-3 | a string parses to a level exactly when it is that level's name |
| DroneTypes.LevelNameRoundTrip | src/types/drone.ts:1 | level names parse back to their level and no two levels share a name |
| DroneTypes.DroneLevels | src/types/drone.ts:3 | the level list has four distinct entries and contains every level |
| DroneTypes.DroneBrands | src/types/drone.ts:4 | the brand list has five distinct, non-empty names |
| DroneTypes.PriceRanges | src/types/drone.ts:33-39 | the price bands start with the unbounded "all" band from 0; the remaining bands are ascending and contiguous, each starting where the previous one ends, and the last is unbounded |
| DroneTypes.FlightDistanceRanges | src/types/drone.ts:41-47 | the flight-distance bands have the same shape: "all" first, then ascending contiguous bands ending in an unbounded one |
| ListingFilters.NarrowsImpliesMatches | src/app/page.tsx:27-37 | a drone passing a narrower set of criteria passes any wider one |
| HomePage.InitialListing | src/app/page.tsx:13-15 | the first listing holds exactly the active drones, each as often as in the catalogue, in catalogue order |
| HomePage.HandleFilterChange | src/app/page.tsx:20-40 | the result holds exactly the active drones that match brand, level and the inclusive price range; an inverted range yields nothing |
| HomePage.HandleFilterChangeIsConjunction | src/app/page.tsx:25-37 | the staged filters equal one filter by the conjunction of their conditions, so catalogue order is kept |
| HomePage.InitialAgreesWithDefaultFilter | src/app/page.tsx:13-18 | when every active price lies in the default range [0, 10000000], the initial list equals filtering with the default criteria |
| SearchPage.Search | src/app/search/page.tsx:19-45 | the result holds exactly the active drones that match the query and the filters, and it is never longer than the catalogue |
| SearchPage.SearchIsConjunction | src/app/search/page.tsx:20-42 | the staged search equals one filter by the conjunction of all its conditions and is a subsequence of the active drones |
| SearchPage.SearchNarrowing | src/app/search/page.tsx:32-42 | narrowing brand, level or price only drops results; it never adds or reorders any |
| SearchPage.EmptyQueryIsHomeFilter | src/app/search/page.tsx:22-30 | with an empty query the search page lists exactly what the home page's filter lists |
| SearchPage.QueryOkIff | src/app/search/page.tsx:22-29 | a non-empty query matches a drone if and only if its lower-cased form occurs at some position of the lower-cased name, brand, description or location |
| Text.LowerChar | src/app/search/page.tsx:22 | lower-casing a character leaves no upper-case letter, keeps every other character and shifts A-Z by 32 |
| Text.Lower | src/app/search/page.tsx:22-28 | lower-casing keeps the length, turns each capital A-Z into the letter 32 code points above it, leaves no upper-case letter and changes nothing else |
| Text.IncludesIff | src/app/search/page.tsx:25-28 | the recursive substring test holds exactly when the needle occurs at some index |
| Text.IncludesEmpty | src/app/search/page.tsx:23-29 | the empty needle is found in every string |
| Text.LowerIdempotent | src/app/search/page.tsx:22-28 | lower-casing twice gives the same as lower-casing once |
| FilterSection.ResetFilters | src/components/FilterSection.tsx:57-64 | after a reset no filter is active, and both range indices select the unbounded "all" band |
| FilterSection.HasActiveFilters | src/components/FilterSection.tsx:64 | with non-negative range indices, no filter is active exactly in the reset state |
| FilterSection.ResetIdempotent | src/components/FilterSection.tsx:57-64 | a second reset changes nothing; a state with non-negative indices has no active filter exactly when it is the reset state |
| FilterSection.LevelLabel | src/components/FilterSection.tsx:27-40 | a level name gets a label different from itself; any other string is passed through unchanged |
| FilterSection.LevelLabelsDistinct | src/components/FilterSection.tsx:27-40 | different levels get different labels |
| FilterSection.PriceRangeOptions | src/components/FilterSection.tsx:66-72 | five options numbered from the "all" option 0, with the same captions as the price bands |
| FilterSection.FlightDistanceRangeOptions | src/components/FilterSection.tsx:74-80 | five options numbered from the "all" option 0, with the same captions as the flight-distance bands |
| Ads.BannerAds | src/data/ads.ts:18-55 | three ads, all of banner type |
| Ads.SidebarAds | src/data/ads.ts:58-96 | three ads, all of sidebar type |
| Ads.InlineAds | src/data/ads.ts:99-139 | three ads, all of inline type |
| Ads.Pool | src/data/ads.ts:181-187 | the pool for each type is non-empty and holds only ads of that type |
| Ads.AdsByCategory | src/data/ads.ts:142-177 | exactly the categories "beginner" and "professional" get one inline ad; every other category gets none |
| Ads.DrawIndex | src/data/ads.ts:188 | the index is `floor(x * n)`: the unique k with k <= x * n < k + 1, which for x in [0, 1) is a valid index when n > 0 and 0 when n = 0 |
| Ads.DrawIndexEvenSplit | src/data/ads.ts:188 | for n > 0 and k < n the draw gives index k exactly when x lies in [k/n, (k+1)/n), so every slot of a pool is chosen by an interval of equal width |
| Ads.Pick | src/data/ads.ts:187-189 | drawing from a pool yields nothing exactly when the pool is empty, and otherwise yields a member of the pool |
| Ads.RandomAd | src/data/ads.ts:180-190 | the random ad is always a member of the requested type's pool and has that type |
| Ads.DrawReachesEveryIndex | src/data/ads.ts:188 | every index below n is drawn by some value in [0, 1) |
| Ads.RandomAdReachesEveryAd | src/data/ads.ts:180-190 | every ad of a pool can be the random choice |
| Ads.ComputeStats | src/data/ads.ts:193-206 | the ad count is the list length; the CTR is absent exactly when total views are not positive, and otherwise it is clicks / views × 100 |
| Ads.AllAds | src/data/ads.ts:194 | the combined list is as long as the three pools together |
| Ads.SumAppend | src/data/ads.ts:195-197 | the sums are additive over concatenation |
| Ads.StatsOfConcatenation | src/data/ads.ts:193-203 | each total of a concatenation is the sum of the parts' totals |
| Ads.StatsOfOneAd | src/data/ads.ts:195-197 | no ads give zero totals and no CTR; one ad contributes its own price, views and clicks, an absent figure counting as 0 |
| Ads.GetAdStats | src/data/ads.ts:193-206 | the shipped statistics are the banner, sidebar and inline pools' totals added together |
| Ads.ClicksBoundedByViews | src/data/ads.ts:196-197 | when no ad has more clicks than views, total clicks lie between 0 and total views |
| Ads.CtrIsPercentage | src/data/ads.ts:204 | under the same condition the CTR lies between 0 and 100 |
| Ads.PoolTotals | src/data/ads.ts:18-139 | the revenue, view and click totals of each shipped pool |
| Ads.ShippedStats | src/data/ads.ts:193-206 | the shipped data gives 9 ads, revenue 3850000, 156000 views, 5865 clicks, CTR 5865/156000 × 100 |
| Ads.ShippedAdsWellFormed | src/data/ads.ts:18-139 | the shipped ads have distinct ids and none has more clicks than views |
| AdBanner.JsRem | src/components/AdBanner.tsx:23 | JavaScript's `%`: the remainder left after the quotient truncated toward zero (a = trunc(a / n) * n + r); it takes the sign of the dividend and is smaller in magnitude than the divisor |
| AdBanner.Tick | src/components/AdBanner.tsx:21-27 | a timer tick keeps visibility, gives NaN when there are no ads, and otherwise leaves the cursor on a real slide |
| AdBanner.GoToSlide | src/components/AdBanner.tsx:30-32 | manual selection sets the cursor to the chosen index and keeps visibility |
| AdBanner.Close | src/components/AdBanner.tsx:34-36 | closing hides the banner and keeps the cursor |
| AdBanner.Render | src/components/AdBanner.tsx:38-57 | a hidden banner renders nothing; a visible one renders one slide per ad, exactly the cursor's slide opaque, or none opaque when the cursor is out of range |
| AdBanner.Init | src/components/AdBanner.tsx:17-18 | the banner starts visible on the first slide, a slide of every non-empty ad list |
| AdBanner.TicksWrap | src/components/AdBanner.tsx:21-27 | k ticks from slide i land on slide (i + k) mod n |
| AdBanner.FullCycle | src/components/AdBanner.tsx:21-27 | n ticks bring the banner back to where it started |
| AdBanner.TickAfterGoTo | src/components/AdBanner.tsx:23-31 | the tick after choosing slide j shows slide j + 1, wrapping round |
| AdBanner.ClosedStaysClosed | src/components/AdBanner.tsx:34-38 | once closed, no sequence of ticks, selections or closes shows the banner again |
| AdBanner.InitShowsFirstSlide | src/components/AdBanner.tsx:17-18 | with at least one ad, the first render shows only the first slide |
| Community.ByCategory | src/app/community/page.tsx:29-31 | "all" keeps every post; any other selection keeps exactly the posts in that category, each as often as it occurs, in order; an `undefined` selection keeps none |
| Community.Insert | src/app/community/page.tsx:34-44 | insertion adds exactly the new post, grows the list by one and keeps it sorted in descending key order |
| Community.SortDesc | src/app/community/page.tsx:34-44 | sorting gives a permutation in descending key order |
| Community.InsertKeepsKeyOrder | src/app/community/page.tsx:34-44 | insertion keeps the relative order of posts with equal keys |
| Community.SortIsStable | src/app/community/page.tsx:34-44 | among posts with equal keys, the sort keeps the original order |
| Community.FilteredPosts | src/app/community/page.tsx:25-47 | the list holds exactly the posts of the selection, as a permutation of the category filter, sorted on the chosen key |
| Community.FilteredPostsStable | src/app/community/page.tsx:25-47 | posts with equal keys appear in their original order |
| Community.CategoryButtonEmptiesBoard | src/app/community/page.tsx:84-87 | after clicking any button of the category list the board lists no post, whatever the posts |
| Community.FixedButtonShowsCategory | src/app/community/page.tsx:29-31 | with buttons that store their own category, a click lists exactly that category's posts; the "all" button lists every post |
| Community.Cards | src/app/community/page.tsx:131-133 | one post card per post |
| Community.PostsOfAppend | src/app/community/page.tsx:120-134 | the posts shown by two block lists together are the posts of each, in order |
| Community.PostsOfCards | src/app/community/page.tsx:131-133 | the cards show exactly the posts they were made from |
| Community.Layout | src/app/community/page.tsx:120-134 | the page shows every post once, in order; the inline ad appears exactly when running on the client with more than two posts, and then it sits directly after the first post |
| Community.ClientLayout | src/app/community/page.tsx:19-22 | on the client, where the mount effect draws the ad with `getRandomAd('inline')`, the block after the first post is an ad of the inline pool |
| Auth.Initial | src/contexts/AuthContext.tsx:17-18 | the session starts logged out and consistent |
| Auth.Restore | src/contexts/AuthContext.tsx:21-27 | a stored user becomes the logged-in user; with none stored nothing changes; consistency is kept |
| Auth.Login | src/contexts/AuthContext.tsx:29-54 | login succeeds exactly for the fixed test credentials, then logs in user "1"; a failure leaves the session unchanged |
| Auth.Logout | src/contexts/AuthContext.tsx:56-60 | logout clears the user and the logged-in flag |
| Auth.Signup | src/contexts/AuthContext.tsx:62-83 | sign-up always succeeds and logs in a fresh, unverified user with rating 0 and the given e-mail, name and phone |
| Auth.AlwaysConsistent | src/contexts/AuthContext.tsx:17-83 | from a consistent session, any sequence of restores, logins, logouts and sign-ups keeps the logged-in flag in step with the user |
| Favorites.AddFavorite | src/contexts/FavoriteContext.tsx:33-54 | logged out: a login notice and no change; already favourited: a duplicate notice and no change; otherwise the list grows by one entry for the current user at the end; drone ids stay unique and a list owned by the user stays owned by them |
| Favorites.RemoveFavorite | src/contexts/FavoriteContext.tsx:56-58 | exactly the entries for that drone go, every other entry stays as often as it was, order kept, and a no-op when none exists; uniqueness and ownership are kept |
| Favorites.SomeFavorite | src/contexts/FavoriteContext.tsx:60-62 | the front-to-back scan holds exactly when some entry refers to the drone |
| Favorites.FavoritesCount | src/contexts/FavoriteContext.tsx:64-66 | the count is zero exactly when no drone is a favourite |
| Favorites.RemoveCount | src/contexts/FavoriteContext.tsx:56-66 | with unique drone ids, removing a drone lowers the count by one exactly when it was a favourite |
| Favorites.SubseqKeepsUnique | src/contexts/FavoriteContext.tsx:56-58 | dropping entries cannot create duplicate drone ids |
| Favorites.SubseqMembers | src/contexts/FavoriteContext.tsx:56-58 | each entry of a subsequence occurs in the original list |
| Favorites.AddThenRemove | src/contexts/FavoriteContext.tsx:33-66 | adding a new drone makes it a favourite, raises the count by one, and removing it restores the original list |
| Favorites.SyncWithSession | src/contexts/FavoriteContext.tsx:15-24 | logged out: the list empties; a saved list for the user replaces the list; otherwise the list is kept |
| Favorites.SwitchUserKeepsPreviousFavorites | src/contexts/FavoriteContext.tsx:15-24 | a concrete case where another user's favourites survive a direct user switch |
| Favorites.SyncWithSessionFixed | src/contexts/FavoriteContext.tsx:15-24 | corrected sync: every entry after the sync belongs to the current user |
| Favorites.FixedSyncDiffersOnlyWithoutSavedList | src/contexts/FavoriteContext.tsx:15-24 | the corrected sync agrees with the code except for a logged-in user with no saved list, who starts with an empty list |
| Favorites.Save | src/contexts/FavoriteContext.tsx:27-31 | logged in, the list is stored under the user's key; every other key, and everything when logged out, is left as it was |
| Favorites.SaveKeepsOwned | src/contexts/FavoriteContext.tsx:27-31 | saving a list that belongs to the logged-in user keeps every saved list owned by its key's user |
| Favorites.StepFixed | src/contexts/FavoriteContext.tsx:15-58 | one provider event under the corrected sync keeps the session consistent; only session events change the session |
| Favorites.StepFixedKeepsOk | src/contexts/FavoriteContext.tsx:15-58 | every event keeps storage owned by key and the list in memory equal to the logged-in user's saved list (empty when logged out); a session event that leaves the session as it was changes nothing |
| Favorites.FreshProviderOk | src/contexts/FavoriteContext.tsx:11-12 | a fresh page over storage owned by key satisfies that invariant |
| Favorites.FixedProviderOkAfterAnyEvents | src/contexts/FavoriteContext.tsx:15-58 | under the corrected sync the invariant holds after any sequence of session changes, adds and removes |
| Favorites.StepAsWritten | src/contexts/FavoriteContext.tsx:15-58 | one provider event as written; only session events change the session |
| Favorites.AsWrittenSwitchStoresForeignList | src/contexts/FavoriteContext.tsx:15-31 | as written, signing up a new user while a user with favourites is logged in stores those favourites under the new user's key, so storage is no longer owned by key |
| MyPage.FavoriteDrones | src/app/mypage/page.tsx:13 | exactly the catalogue drones some favourite refers to, each as often as in the catalogue, in catalogue order |
| MyPage.OrphanFavoriteShowsNothing | src/app/mypage/page.tsx:13 | a favourite whose drone is not in the catalogue adds nothing to the page |
| MyPage.MySales | src/app/mypage/page.tsx:16 | exactly the drones sold by the current user, each as often as in the catalogue, in order; with no user, the drones with no seller id |
| MyPage.MySalesAppend | src/app/mypage/page.tsx:16 | a user's sales in two catalogues together are their sales in each, in order |
| MyPage.SalesOfDifferentUsersDisjoint | src/app/mypage/page.tsx:16 | two users with different ids, or a user and the signed-out view, share no listing |
| MyPage.SalesPreview | src/app/mypage/page.tsx:77 | the preview is the first three sales, or all of them when there are fewer |
| Sales.LoadMyDrones | src/app/mypage/sales/page.tsx:14-20 | with a user, exactly that user's listings, each as often as in the catalogue, in catalogue order; with none, the list is left as it was |
| Sales.Shown | src/app/mypage/sales/page.tsx:22-25 | the "all" tab shows everything; a status tab shows exactly the listings with that status, each as often as in the list, in order |
| Sales.ChangeStatus | src/app/mypage/sales/page.tsx:40-48 | the listings with the id take the new status and change in nothing else; all other listings are untouched |
| Sales.Delete | src/app/mypage/sales/page.tsx:50-54 | exactly the listings with the id go, every other listing stays as often as it was, and the order is kept |
| Sales.DeleteCount | src/app/mypage/sales/page.tsx:50-54 | the deleted listings and the survivors together are the whole list |
| Sales.DeleteIdempotent | src/app/mypage/sales/page.tsx:50-54 | deleting the same id a second time changes nothing |
| Sales.CountsAddUp | src/app/mypage/sales/page.tsx:82-86 | the "all" count is the listing count, and it is the sum of the three status counts when every status is known |
| Sales.StatusChangeKeepsTotals | src/app/mypage/sales/page.tsx:190-213 | a status change keeps the total and the premium count |
| Signup.InitialForm | src/app/signup/page.tsx:11-19 | every text field starts empty and both boxes unticked |
| Signup.HandleInputChange | src/app/signup/page.tsx:23-29 | the named field takes the input's value or checked state, and no other field changes |
| Signup.Validate | src/app/signup/page.tsx:37-53 | `handleSubmit`'s checks: the mismatch check comes first, then the 8-character minimum, then the terms; they pass exactly when all three hold |
| Signup.ValidationIgnoresOptionalFields | src/app/signup/page.tsx:37-53 | only the passwords and the terms box decide `handleSubmit`'s checks |
| Signup.Submit | src/app/signup/page.tsx:31-67 | once `handleSubmit` runs, an invalid form is rejected with its first failure, and a valid one logs in a new user with the form's e-mail, name and phone |
| Signup.PageSubmit | src/app/signup/page.tsx:91-190 | the browser blocks the submission exactly when a `required` field is empty, the terms box is unticked or the e-mail is malformed; otherwise only a password failure can reject, the terms check never fires, and a sign-up has a non-empty e-mail and name |
| Sell.InitialSellForm | src/app/sell/page.tsx:10-23 | the condition and contact selects start on one of their options ("good", "kakao"); the level starts on the name "intermediate", which matches none of the level select's option values; the other fields are empty and there are no images |
| Sell.HandleInputChange | src/app/sell/page.tsx:27-33 | the named field takes the value; the other fields and the images are untouched |
| Sell.ChoosingLevelLosesLevel | src/app/sell/page.tsx:198-209 | choosing any option of the level select leaves a form level that names no level |
| Sell.FixedLevelOptionRoundTrip | src/app/sell/page.tsx:198-209 | with options valued by level name, choosing a level stores a name that parses back to it, and different options store different values |
| Sell.HandleImageChange | src/app/sell/page.tsx:35-43 | no file list: no change; otherwise the chosen files follow the existing images, each in its own order |
| Sell.DropAtRemovesOne | src/app/sell/page.tsx:45-50 | dropping a position in range closes the gap; any other index leaves the list as it is |
| Sell.RemoveImage | src/app/sell/page.tsx:45-50 | only the image list changes, by removing the given position |
| Sell.AddThenRemoveLast | src/app/sell/page.tsx:35-50 | attaching one file and then removing the last image restores the form |

## Left out

- Rendering, styling, navigation, `alert` and `confirm` dialogs, and the
  timers' delays are not modelled. Each handler is modelled as the state
  change it makes once its timer or dialog resolves in the handler's
  favour. Deletion is modelled as the confirmed branch only.
- The catalogue (`sampleDrones`) and the posts (`samplePosts`) are
  parameters, because their data files are not part of this model.
- Favourites storage is a map from user id to list. The JSON round trip is
  taken to give back the list. In the commit that changes the user, the save
  effect first writes the previous list under the new key, and the
  re-render's save then writes the synced list over it. `Favorites.StepFixed`
  and `Favorites.StepAsWritten` keep only that final write.
- Signup.Validate / Signup.Submit: they model `handleSubmit`'s checks. On the
  page the browser's `required` and `type="email"` constraints run first, as
  `Signup.PageSubmit` states. Whether an e-mail has the format
  `type="email"` demands is a parameter, because that address grammar is not
  modelled.
- Auth.Restore: a stored value that parses to `null` is not modelled. The
  stored value is taken to be a user or absent.
- Ads.ComputeStats: `toFixed(2)` string formatting of the CTR is dropped.
  The CTR is kept as an exact real, and the "0" string for no views is
  modelled as `NoViews`.
- Ads.AdsByCategory: keys inherited from `Object.prototype` (such as
  "constructor") are not modelled. Every category other than the two listed
  yields an empty list.
- Signup.Validate: password length counts characters, not UTF-16 code units.
- Text.Lower: lower-casing covers ASCII letters only, not the full Unicode
  case mapping of `toLowerCase`.
- The drone record keeps only the fields the modelled logic reads. The seller
  id and the status are not among the fields `src/types/drone.ts` declares,
  though the pages read them. The seller id is optional, so a missing id
  compares equal to a missing user, as `undefined === undefined` does.
- Community: post dates are compared as integers (the `getTime()`
  values). `views`, which the pages sort on, is modelled as an integer.
- The filter panel's props do not match what the home and search pages pass
  to it (`onFilterChange` versus `onBrandChange` and the rest). Each file is
  modelled as written, and the wiring between them is not modelled. As
  wired, the panel's change callbacks are `undefined`, so clicking a control
  or the reset button throws, and no control ever reaches the pages'
  `handleFilterChange`: the home page keeps showing `HomePage.InitialListing`
  and the search page filters with its default criteria. The panel's price
  and distance indices are not connected to the pages' `[min, max]` price
  pair.
- The home page's first listing is the active drones without the price
  filter. `HomePage.InitialAgreesWithDefaultFilter` states when that agrees
  with the default filter.
- The community comment says the inline ad goes in the third position. The
  code puts it directly after the first post, and `Community.Layout`
  follows the code.
- The banner timer racing a manual selection is modelled by interleaving
  events. Each tick takes the cursor as it stands at that moment.
- Favorites.AddFavorite: the favourite's id is `Date.now()` and is modelled
  as the integer parameter `now`, not its string form.
- The sell form's submit only simulates an upload and navigates away, so it
  is not modelled. Which option the level select displays is rendering and
  is not modelled; what choosing an option stores is (see Findings).
- The search page's displayed count (`src/app/search/page.tsx:61`) is the
  length of `SearchPage.Search`'s result and has no member of its own.
- Admin, login and detail pages, and the other components, are not part of
  this model.

## Findings

| source | as written | input that shows it | evidently intended | confidence | as-written member | corrected member |
|---|---|---|---|---|---|---|
| src/app/community/page.tsx:84-87 | each category button stores `category.value`, but the categories are plain strings (src/types/community.ts:14-19), so it stores `undefined` and no post matches | a board with a post in category "구인", then a click on the "구인" button | a click lists the posts of that category | high, not executed | Community.CategoryButton, Community.CategoryButtonEmptiesBoard | Community.FixedCategoryButton, Community.FixedButtonShowsCategory |
| src/app/sell/page.tsx:205-209 | the level options read `level.value`, `level.label` and `level.description` on plain strings, so each option has no value attribute and stores its text "-" | choose "beginner" in the level select | choosing a level stores its name, which parses back to the level | medium, not executed | Sell.LevelOptionValue, Sell.ChoosingLevelLosesLevel | Sell.FixedLevelOptionValue, Sell.FixedLevelOptionRoundTrip |
| src/contexts/FavoriteContext.tsx:15-24 | when the logged-in user changes to one with no saved list, the previous user's favourites stay in state (and the save effect then writes them under the new user's key) | user "1" with one favourite, then sign-up (no logout) as a new user with no saved list | a new user starts with only their own favourites, empty if none are saved | medium, not executed | Favorites.SwitchUserKeepsPreviousFavorites, Favorites.AsWrittenSwitchStoresForeignList | Favorites.SyncWithSessionFixed, Favorites.FixedProviderOkAfterAnyEvents |
