# Admin console state model (my-movie-list frontend)

This project models the state logic behind the admin dashboard of a social
movie-watchlist application (`src/pages/Dashboard/dashboard.tsx`). The
console loads three collections from the backend: accounts, watchlists and
comments. Each watchlist gets a poster from a lookup of its first title. The
operator can search each collection, ban or unban an account, and delete a
comment. A moderation action changes local state only after the backend
confirms it.

Layout, one module per concern:

- `records.dfy` (`Records`): the `CommentData`, `UserData` and
  `WatchlistData` records, the two fallback image paths, and `Option`.
- `seqs.dfy` (`Seqs`): order-preserving `Filter` (JavaScript `filter`) and
  `Take` (`slice(0, n)`), and the subsequence predicate they are proved against.
- `text.dfy` (`Text`): ASCII `toLowerCase`/`toUpperCase`, `includes` proved
  against an explicit occurrence predicate, and header capitalisation.
- `enrichment.dfy` (`Enrichment`): per-watchlist poster resolution with its
  fallback policy.
- `moderation.dfy` (`Moderation`): the new-state computations inside
  `setUsers(prev => prev.map(...))` and
  `setComments(prev => prev.filter(...))`.
- `search.dfy` (`Search`): the three search filters.
- `views.dfy` (`Views`): the admin avatar lookup, the preview sizes and
  the section header.
- `dashboard.dfy` (`Dashboard`): the component's state cells as the class
  `Console`, with `FetchData`, `HandleBanToggle`, `HandleDeleteComment`,
  the confirmation gate, section and search-term changes, and three small
  client scenarios.

Backend calls appear as parameters that give their settled outcome:

- A listing call is a `Response`: it threw, it resolved to a falsy value,
  or it carried `data`.
- A title lookup is a function `(position, titleId) -> Lookup`. It gives
  each watchlist's own request its own outcome.
- The ban-status update and the comment delete are functions from the
  request to "accepted or not".
- The admin's id is a parameter `Option<string>`. It is None when the
  stored token does not decode.

The model follows the code in these places, where a reader might expect it to behave otherwise:

- Comment removal removes every comment with the id, not exactly one.
  `Moderation.RemoveCommentUnique` proves "exactly one fewer" only for
  unique ids.
- A successful lookup whose response has no `poster` field leaves
  `posterUrl` absent. So "posterUrl is always defined after enrichment" is
  not true of the code. `Enrichment.EnrichedPosterAbsentOnlyIfMissing`
  proves that this is the only way it can be absent.
  `Enrichment.EnrichedThumbnail` proves the card still shows the fallback
  image (line 273).
- The load is all-or-nothing. If the watchlist response is missing,
  `Promise.all` receives `undefined` and throws. That ends in the same
  "state unchanged" outcome as the explicit gate on line 106.
- The ban flag written is the negation of the flag the caller passes, not
  of the stored one.

## Model

| member | source | states |
|---|---|---|
| Seqs.Filter | src/pages/Dashboard/dashboard.tsx:157-167 | the result is a subsequence of the input (order and contents kept) whose elements all satisfy the predicate and which contains every element that does |
| Seqs.FilterKeepsMultiplicity | src/pages/Dashboard/dashboard.tsx:157-167 | filtering keeps every copy of each passing element: its multiplicity in the result equals that in the input |
| Seqs.FilterKeepsAll | src/pages/Dashboard/dashboard.tsx:145-147 | filtering with a predicate every element passes returns the input unchanged |
| Seqs.FilterDropsOne | src/pages/Dashboard/dashboard.tsx:145-147 | filtering when exactly one element fails shortens the sequence by exactly one |
| Seqs.FilterCongruent | src/pages/Dashboard/dashboard.tsx:157-167 | two predicates that agree on the elements give the same filtered sequence |
| Seqs.Take | src/pages/Dashboard/dashboard.tsx:217 | `slice(0, n)` is a prefix of length min(n, length) |
| Text.LowerChar | src/pages/Dashboard/dashboard.tsx:158 | upper-case ASCII letters map to their lower-case letter; every other character is kept |
| Text.UpperChar | src/pages/Dashboard/dashboard.tsx:200 | lower-case ASCII letters map to their upper-case letter; every other character is kept |
| Text.ToLower | src/pages/Dashboard/dashboard.tsx:158 | `toLowerCase` keeps the length and lower-cases each character |
| Text.ToLowerIdempotent | src/pages/Dashboard/dashboard.tsx:158 | lower-casing twice is lower-casing once |
| Text.Contains | src/pages/Dashboard/dashboard.tsx:158 | `includes` is true iff the needle occurs at some position of the string |
| Text.ContainsEmpty | src/pages/Dashboard/dashboard.tsx:158 | every string includes the empty string |
| Text.Capitalize | src/pages/Dashboard/dashboard.tsx:200 | same length; the first character is upper-cased and the rest is kept |
| Text.CapitalizeIgnoringCase | src/pages/Dashboard/dashboard.tsx:200 | capitalising leaves the string equal ignoring case |
| Search.Matches | src/pages/Dashboard/dashboard.tsx:158 | an item's field matches iff the lower-cased term occurs in the lower-cased field; the empty term matches everything |
| Search.SearchFilter | src/pages/Dashboard/dashboard.tsx:157-167 | the search view is an order-preserving subsequence of the items whose field matches the term, keeping every copy of each matching item |
| Search.SearchEmptyTerm | src/pages/Dashboard/dashboard.tsx:157-167 | an empty term returns the collection unchanged |
| Search.SearchCaseInsensitive | src/pages/Dashboard/dashboard.tsx:157-167 | terms equal up to case give the same view |
| Search.SearchLowerCasedTerm | src/pages/Dashboard/dashboard.tsx:157-167 | searching a term and its lower-cased form give the same view |
| Search.FilterUsers | src/pages/Dashboard/dashboard.tsx:157-159 | accounts kept in order are exactly those whose username matches the term, every copy kept |
| Search.FilterWatchlists | src/pages/Dashboard/dashboard.tsx:161-163 | watchlists kept in order are exactly those whose name matches the term, every copy kept |
| Search.FilterComments | src/pages/Dashboard/dashboard.tsx:165-167 | comments kept in order are exactly those whose text matches the term, every copy kept |
| Enrichment.EnrichOne | src/pages/Dashboard/dashboard.tsx:79-103 | only `posterUrl` changes; no titles gives the fallback; a failed lookup of the first title gives the fallback; a successful one gives the returned poster (possibly absent) |
| Enrichment.Enrich | src/pages/Dashboard/dashboard.tsx:78-104 | the listing keeps its length and order, and each item is enriched from its own first-title lookup as above |
| Enrichment.EnrichReadsOnlyFirstTitles | src/pages/Dashboard/dashboard.tsx:80-85 | enrichment depends only on each watchlist's lookup of its first title, and for a watchlist with no titles on no lookup at all |
| Enrichment.EnrichFailureIsolated | src/pages/Dashboard/dashboard.tsx:90-96 | making one watchlist's lookup fail gives it the fallback and leaves every other enriched watchlist unchanged |
| Enrichment.EnrichedPosterAbsentOnlyIfMissing | src/pages/Dashboard/dashboard.tsx:86-89 | an enriched watchlist lacks a poster only if its lookup succeeded without a `poster` field |
| Enrichment.Thumbnail | src/pages/Dashboard/dashboard.tsx:271-275 | the card image is never empty: the poster when non-empty, else the fallback |
| Enrichment.EnrichedThumbnail | src/pages/Dashboard/dashboard.tsx:78-104 | an enriched card shows the fallback or the poster its lookup returned, and the fallback when it had no titles or its lookup failed |
| Moderation.StatusToSend | src/pages/Dashboard/dashboard.tsx:124 | the status sent is "unbanned" iff the caller says the account is currently banned |
| Moderation.SetBanned | src/pages/Dashboard/dashboard.tsx:128-134 | same length; every account with the id gets the given flag and nothing else changes on it; other accounts are untouched |
| Moderation.SetBannedAbsent | src/pages/Dashboard/dashboard.tsx:128-134 | patching an id no account has is a no-op |
| Moderation.ToggleTwiceRestores | src/pages/Dashboard/dashboard.tsx:124-131 | toggling an account twice, passing its current flag each time, restores it, and restores all accounts when those sharing its id had the same flag |
| Moderation.RemoveComment | src/pages/Dashboard/dashboard.tsx:145-147 | no comment with the id remains; every other comment remains with all its copies, in order and unchanged |
| Moderation.RemoveCommentAbsent | src/pages/Dashboard/dashboard.tsx:145-147 | removing an absent id is a no-op |
| Moderation.RemoveCommentUnique | src/pages/Dashboard/dashboard.tsx:145-147 | with unique ids, removing a present id drops exactly one comment |
| Views.FindUser | src/pages/Dashboard/dashboard.tsx:153 | finds an account iff the admin id is known and some account has it, and then it is the first such account |
| Views.AvatarOrDefault | src/pages/Dashboard/dashboard.tsx:222-224 | the picture is never empty: the signed URL when non-empty, else the default profile image |
| Views.AdminProfilePicture | src/pages/Dashboard/dashboard.tsx:153-155 | never empty; the default when no account has the admin id; otherwise the picture of the first account with that id |
| Views.SectionName | src/pages/Dashboard/dashboard.tsx:19 | each section identifier is a non-empty lower-case string |
| Views.HeaderTitle | src/pages/Dashboard/dashboard.tsx:200 | the header starts with an upper-case letter and equals the section name ignoring case |
| Views.HeaderTitleIsSidebarLabel | src/pages/Dashboard/dashboard.tsx:178-193 | each section's header equals its sidebar label |
| Dashboard.LoadedSnapshot | src/pages/Dashboard/dashboard.tsx:106-110 | a snapshot is installed iff all three listing responses are present, and it is the listings with the watchlists enriched |
| Dashboard.Console.constructor | src/pages/Dashboard/dashboard.tsx:57-63 | the console starts with empty collections, the overview section and an empty search |
| Dashboard.Console.FetchData | src/pages/Dashboard/dashboard.tsx:70-114 | the three collections are replaced together when every response is present and left unchanged otherwise (a thrown call included) |
| Dashboard.Console.HandleBanToggle | src/pages/Dashboard/dashboard.tsx:119-138 | sends the inverse status of the caller's flag; on acceptance applies the ban patch, on failure leaves the accounts unchanged |
| Dashboard.Console.HandleDeleteComment | src/pages/Dashboard/dashboard.tsx:140-151 | on a confirmed deletion removes every comment with the id; on failure leaves the comments unchanged |
| Dashboard.Console.DeleteClicked | src/pages/Dashboard/dashboard.tsx:342-353 | deletion happens only when the operator confirms and the backend accepts |
| Dashboard.Console.SetSection | src/pages/Dashboard/dashboard.tsx:65-67 | selects the section; the search term is cleared when the section actually changes and kept when the shown section is re-selected |
| Dashboard.Console.SetSearchTerm | src/pages/Dashboard/dashboard.tsx:204-205 | the search box sets the term |
| Dashboard.Console.FilteredUsers | src/pages/Dashboard/dashboard.tsx:157-159 | the view is the subsequence of the accounts whose username matches the current term, with every copy of each match, and all of them when the term is empty |
| Dashboard.Console.FilteredWatchlists | src/pages/Dashboard/dashboard.tsx:161-163 | the view is the subsequence of the watchlists whose name matches the current term, with every copy of each match, and all of them when the term is empty |
| Dashboard.Console.FilteredComments | src/pages/Dashboard/dashboard.tsx:165-167 | the view is the subsequence of the comments whose text matches the current term, with every copy of each match, and all of them when the term is empty |
| Dashboard.Console.Previews | src/pages/Dashboard/dashboard.tsx:217-305 | the overview shows prefixes of at most three accounts, three watchlists and four comments |

## Left out

- Rendering: JSX, CSS classes, the user popup and its `users.find` calls
  (lines 235, 315, 399, 499), and the ban button hidden for admins (line 437).
  These are presentation.
- Concurrency: the `Promise.all` fan-out and fan-in (lines 72-76, 78-104).
  Listings and lookups are given as settled outcomes. Enrichment is
  computed before the gate, as in the code.
- Transport: HTTP through `axios` and `utils/databaseCalls`. These
  are parameters. `utils/databaseCalls` is not part of this model.
- The session: reading the token from `localStorage` and `decodeToken`
  (lines 16-17). The admin id is a parameter.
- Side effects and formatting: `console.error` logging and
  `Date.toLocaleString` (line 309).
- Text.ToLower: models ASCII lower-casing only, not full Unicode
  `toLowerCase`. Text.UpperChar does the same for `toUpperCase`.
- Dashboard.LoadedSnapshot: a listing response whose `data` field is
  missing is not modelled. A response is either absent or carries data.
- Enrichment.EnrichOne: a lookup response without a `data` object (the
  `res.data.poster` access throws and the catch gives the fallback) is
  covered by `Failed`, not separately.
- `src/App.tsx`: the route table and providers only; it has no state
  logic.
