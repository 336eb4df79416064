# MyMedia client core in Dafny

MyMedia is a personal catalogue of movies and TV shows. This project models the client-side logic of its React web client:

- the Dashboard page's list controller: page loading with image-URL normalisation, load-more, delete, and the reload after a successful form submission;
- the Dashboard's local search and type filter;
- the standalone infinite-scroll `MediaList`, with its `loading` guard and first-empty-page exhaustion;
- the session store, with its two `localStorage` keys, `token` and `user`, and the storage side effects of the authentication service;
- the card's poster rule;
- the create/edit form: its state, its multipart payload, and what a submission does.

Each event handler is one atomic transition. It takes the old state and the settled outcome of its remote call, `Ok(value)` or `Failed`, and returns the new state. It also returns the requests it sent, and for the session store, whether the rejection reached the caller. The browser's inputs become parameters:

- the `confirm()` answer is a boolean;
- the near-the-bottom scroll test is a boolean;
- the FileReader's data URL is a string;
- `import.meta.env.VITE_API_URL` is a string.

Strings are `seq<char>`. Optional strings are `Option<string>`. JavaScript truthiness of a string is "present and non-empty" (`Types.Truthy`).

Files:

- `text.dfy`: `toLowerCase` (ASCII), `trim`, `startsWith`, `includes`.
- `seqs.dfy`: `Array.prototype.filter` (`Keep`) and the order-preserving subsequence relation.
- `types.dfy`: `Media`, `User`, the type-filter domain, outcomes, the page response.
- `media_filter.dfy`, `dashboard.dfy`, `media_list.dfy`, `auth_service.dfy`, `auth_store.dfy`, `media_card.dfy`, `media_form.dfy`: one module per source concern.

Behaviours of the code worth knowing:

- **Delete is not optimistic.** Both delete handlers remove records only after the server accepted the delete. A failed delete in the Dashboard leaves the list as it was. In `MediaList` the failure escapes the handler, also with the list unchanged.
- **`isAuthenticated == (token != null)` does not always hold.** A stored empty token gives an initial session that holds the token `""` while `isAuthenticated` is false (`AuthStore.EmptyStoredToken`). A stored token without a stored user gives an initial session that is authenticated while `user` is null, until a successful `checkAuth` fills the user in (`AuthStore.StoredTokenWithoutUser`). A stored user without a token gives a user with no token; the service's `logout`, which removes only the token, leaves exactly that behind (`AuthStore.ServiceLogoutLeavesUser`). The store does keep a weaker invariant, `AuthStore.Consistent`, under every action, starting from storage in which a truthy token comes with a user.
- **Only `MediaList` has a single-flight guard.** The Dashboard's `loadMedia` sends its request whatever `isLoading` is.
- **The two lists decide `hasMore` differently.** The Dashboard uses `totalPages`. `MediaList` uses the first empty page.

## Model

| member | source | states |
|---|---|---|
| `Text.TrimStart` | src/pages/Dashboard.tsx:69 | drops exactly the maximal whitespace prefix: the result is a suffix, everything dropped is whitespace, and the result does not start with whitespace |
| `Text.TrimEnd` | src/pages/Dashboard.tsx:69 | drops exactly the maximal whitespace suffix |
| `Text.TrimEmptyIffBlank` | src/pages/Dashboard.tsx:69 | `searchQuery.trim()` is empty iff the query is whitespace only, so trimming decides only whether the search runs |
| `Text.ContainsIffOccurs` | src/pages/Dashboard.tsx:73-74 | the left-to-right `includes` scan is true iff the query occurs at some position of the string |
| `Text.ContainsLower` | src/pages/Dashboard.tsx:70-74 | lower-casing both sides keeps every occurrence |
| `Seqs.Keep` | src/pages/Dashboard.tsx:71-75 | `filter` keeps only elements satisfying the predicate and every element that does, as an order-preserving subsequence |
| `Seqs.KeepMultiplicity` | src/pages/Dashboard.tsx:71-75 | `filter` keeps every copy of a passing element and none of a failing one, so duplicates are neither merged nor dropped |
| `Seqs.KeepConcat` | src/pages/Dashboard.tsx:71-75 | filtering distributes over concatenation |
| `Seqs.KeepKeep` | src/pages/Dashboard.tsx:71-80 | two consecutive filters equal one filter by the conjunction |
| `Types.WithoutId` | src/pages/Dashboard.tsx:113 | removing an id keeps exactly the records with another id, in order and with their multiplicities |
| `MediaFilter.FilterMedia` | src/pages/Dashboard.tsx:66-82 | the filtered view is an order-preserving subsequence of the cached list |
| `MediaFilter.FilterIsConjunction` | src/pages/Dashboard.tsx:69-80 | the two-step filter equals one filter by "blank query or search match" AND "type matches" |
| `MediaFilter.FilterMembership` | src/pages/Dashboard.tsx:69-80 | a record is shown iff it is cached and passes both tests |
| `MediaFilter.FilterIdentity` | src/pages/Dashboard.tsx:67-69 | a blank or whitespace-only query with `"all"` shows the whole list unchanged |
| `MediaFilter.FilterSearchThenType` | src/pages/Dashboard.tsx:69-80 | searching and then type-filtering with an empty query gives the Dashboard's result |
| `MediaFilter.FilterTypeThenSearch` | src/pages/Dashboard.tsx:69-80 | the steps commute: type-filtering first and then searching gives the same result |
| `MediaFilter.FilterIdempotent` | src/pages/Dashboard.tsx:66-83 | filtering the filtered view again changes nothing |
| `MediaFilter.FilterAppend` | src/pages/Dashboard.tsx:66-83 | filtering an appended list is filtering each part |
| `MediaFilter.SearchIgnoresQueryCase` | src/pages/Dashboard.tsx:70-74 | queries that differ only in letter case give the same result |
| `MediaFilter.TitleOccurrenceMatches` | src/pages/Dashboard.tsx:70-73 | a query occurring verbatim in the title always finds the record |
| `MediaFilter.UntrimmedQueryMatters` | src/pages/Dashboard.tsx:69-70 | the untrimmed query is matched: a query containing a space never matches a record with no space in its title or director |
| `MediaFilter.MissingCharExcludes` | src/pages/Dashboard.tsx:72-75 | a query character absent from both lower-cased title and director excludes the record |
| `MediaFilter.SearchScenario` | src/pages/Dashboard.tsx:69-76 | "incep" over Inception and Breaking Bad keeps only Inception |
| `MediaFilter.TypeScenario` | src/pages/Dashboard.tsx:78-80 | an empty query with "TV Show" keeps only Breaking Bad |
| `Dashboard.NormaliseImage` | src/pages/Dashboard.tsx:36-43 | a falsy `imageUrl` becomes null, an `http` one is kept, anything else gets `BASE_URL` in front, all other fields are copied, and the result is absolute or absent |
| `Dashboard.NormaliseIdempotent` | src/pages/Dashboard.tsx:36-43 | normalising a normalised record changes nothing |
| `Dashboard.TotalPages` | src/pages/Dashboard.tsx:50 | the reported page count when present and non-zero, and 1 otherwise |
| `Dashboard.LoadMedia` | src/pages/Dashboard.tsx:30-58 | reset replaces the list and otherwise appends the normalised page; `hasMore` is `pageNum < totalPages` with a missing or zero count read as 1; a failure changes only `isLoading`; `isLoading` ends false; the request is sent with no guard |
| `Dashboard.Mount` | src/pages/Dashboard.tsx:61-63 | the first load requests page 1 and replaces the empty list with the normalised page, `hasMore` from the page count; a failure leaves the list empty with `hasMore` true |
| `Dashboard.SinglePageEndsList` | src/pages/Dashboard.tsx:47-51 | a first page reporting at most one page in all leaves `hasMore` false |
| `Dashboard.LoadMore` | src/pages/Dashboard.tsx:85-89 | `page` becomes `page+1` and that page is requested and appended |
| `Dashboard.FullPagesGrowCache` | src/pages/Dashboard.tsx:48 | load-mores that each return a full page of L records grow the cache by exactly L per load |
| `Dashboard.LoadMoreExtendsView` | src/pages/Dashboard.tsx:85-89 | after load-more, the filtered view is the old filtered view followed by the filtered new page |
| `Dashboard.HandleDelete` | src/pages/Dashboard.tsx:109-118 | declined means no request and no change; a failed delete changes nothing; success removes every record with that id |
| `Dashboard.DeleteRemovesExactlyId` | src/pages/Dashboard.tsx:113 | after a successful delete the list is a subsequence holding exactly the records with another id, each as often as before |
| `Dashboard.DeleteIdempotent` | src/pages/Dashboard.tsx:113 | deleting the same id twice equals deleting it once |
| `Dashboard.DeleteCommutesWithFilter` | src/pages/Dashboard.tsx:113 | after a delete, the filtered view is the old filtered view without that id |
| `Dashboard.HandleFormSuccess` | src/pages/Dashboard.tsx:120-122 | requests page 1 and on success replaces the whole list by it, recomputing `hasMore`; a failure keeps the list; `page` is left unchanged and `isLoading` ends false |
| `Dashboard.RunInvariants` | src/pages/Dashboard.tsx:85-122 | over any sequence of user events, every cached image URL stays absolute or absent, and `page` equals its start plus the number of load-mores, so the form-success reload never rewinds it |
| `MediaList.FetchMedia` | src/components/MediaList.tsx:16-32 | while `loading` it does nothing and sends nothing; otherwise an empty page sets `hasMore` false and keeps `media`, a non-empty page is appended with `hasMore` untouched, and a failure keeps both |
| `MediaList.Mount` | src/components/MediaList.tsx:34-36 | the first fetch requests page 1; a non-empty page becomes the list, an empty one ends it, and a failure leaves it empty with `hasMore` true |
| `MediaList.HandleScroll` | src/components/MediaList.tsx:40-48 | requests `page+1` and increments `page` exactly when near the bottom, with `hasMore` true and `loading` false; otherwise nothing happens |
| `MediaList.HandleDelete` | src/components/MediaList.tsx:54-59 | declined means nothing happens; success removes every record with that id; a rejected delete keeps the list and the error escapes |
| `MediaList.OnFormSuccess` | src/components/MediaList.tsx:99-103 | clears `media`, sets `page` to 1 and fetches page 1 through the guard, with `hasMore` set only by an empty page |
| `MediaList.ExhaustionIsPermanent` | src/components/MediaList.tsx:24 | once `hasMore` is false, no sequence of events makes it true again |
| `MediaList.LoadingSuppressesFetches` | src/components/MediaList.tsx:17 | while `loading` is true, scrolling, fetching and the form reset send no request |
| `MediaList.LoadingNeverObserved` | src/components/MediaList.tsx:16-32 | every fetch that sets `loading` clears it in `finally`, so with atomic handlers no event sequence from a settled list reaches a loading state |
| `AuthService.Signup` | src/services/authService.ts:11-21 | writes `token` only on success with a truthy token, never writes `user`, and passes the outcome on |
| `AuthService.Login` | src/services/authService.ts:23-34 | writes `token` only on success with a truthy token and passes the outcome on |
| `AuthService.Logout` | src/services/authService.ts:37-44 | removes `token` whether or not the POST succeeded, keeps `user`, and passes a failure on |
| `AuthService.LogoutDropsCredentials` | src/services/authService.ts:38-44 | after `logout`, succeeded or not, there is no token, `isAuthenticated` is false, the media header is empty and `getMe` would send `Bearer null`; the stored user stays |
| `AuthService.GetToken` | src/services/authService.ts:54-56 | returns the stored token, absent when the key is absent |
| `AuthService.IsAuthenticated` | src/services/authService.ts:58-60 | true iff a non-empty token is stored |
| `AuthService.MeAuthorization` | src/services/authService.ts:45-51 | the header is `"Bearer "` followed by the stored token, or by `null` when none is stored |
| `AuthService.MediaAuthorization` | src/services/mediaService.ts:6-13 | the media header is empty iff no truthy token is stored, and otherwise equals the `getMe` header |
| `AuthService.HeadersDisagreeOnlyWithoutToken` | src/services/mediaService.ts:10 | the two header builders agree iff a truthy token is stored |
| `AuthStore.Init` | src/store/authStore.ts:17-20 | token and user are read from storage, `isAuthenticated` iff the stored token is non-empty, and `isLoading` is false |
| `AuthStore.Register` | src/store/authStore.ts:22-41 | success clears both keys and signs out; failure keeps user, token, flag and storage and is rejected; `isLoading` ends false |
| `AuthStore.RegisterNeverSignsIn` | src/store/authStore.ts:28-37 | whatever the server returns, register never leaves the session authenticated |
| `AuthStore.Login` | src/store/authStore.ts:44-54 | success writes both keys and sets user, token and `isAuthenticated`; failure keeps them and storage and is rejected; `isLoading` ends false |
| `AuthStore.FailedLoginChangesNothing` | src/store/authStore.ts:44-54 | a rejected login leaves identity and storage as they were and ends not loading |
| `AuthStore.Logout` | src/store/authStore.ts:56-60 | clears both keys and all identity fields, makes no call, and keeps `isLoading` |
| `AuthStore.MeUser` | src/store/authStore.ts:78 | the nested `user` when the response has one, else the bare response |
| `AuthStore.CheckAuth` | src/store/authStore.ts:61-97 | with no truthy token it signs out with no call and keeps storage; otherwise it sends `Bearer <token>`; success keeps the token and stores `response.user` or else `response`; failure clears state and storage; `isLoading` ends false |
| `AuthStore.InitConsistent` | src/store/authStore.ts:17-20 | storage in which a token comes with a user yields a consistent initial session |
| `AuthStore.RunKeepsConsistent` | src/store/authStore.ts:16-97 | every action sequence keeps the session settled, with `isAuthenticated` only alongside a token and user equal to the stored ones |
| `AuthStore.InitAgreesWithService` | src/store/authStore.ts:18-19 | the store's initial token and flag are the service's `getToken` and `isAuthenticated` |
| `AuthStore.ServiceLogoutLeavesUser` | src/services/authService.ts:38-44 | a store initialised after the service's `logout` is unauthenticated with no token but still holds the stored user |
| `AuthStore.StoredTokenWithoutUser` | src/store/authStore.ts:17-19 | a stored token with no stored user gives an authenticated session with a null user; a successful `checkAuth` then stores and sets the user and the session becomes consistent |
| `AuthStore.EmptyStoredToken` | src/store/authStore.ts:18-19 | a stored empty token gives a session holding `""` that is not authenticated; `checkAuth` then nulls the fields but leaves storage |
| `MediaCard.DisplayImage` | src/components/MediaCard.tsx:34-38 | null iff both paths are falsy; the path is `poster` when truthy, else `imageUrl`; it is unprefixed when either path starts with `http`, and otherwise prefixed with the API URL |
| `MediaCard.RelativePosterShownUnprefixed` | src/components/MediaCard.tsx:35-36 | a relative poster is shown unprefixed when only `imageUrl` is absolute |
| `MediaCard.NormalisedRecordShownAsIs` | src/pages/Dashboard.tsx:209 | a card given a Dashboard-normalised record as both poster and `imageUrl` shows exactly that URL |
| `MediaForm.ResetForm` | src/components/MediaFormModal.tsx:63-75 | all text fields are empty, the type is Movie, there is no file, and the preview is empty |
| `MediaForm.Populate` | src/components/MediaFormModal.tsx:44-61 | with a record it copies title, type and director, previews `imageUrl` or `""`, and keeps any chosen file; without one it resets |
| `MediaForm.HandleFileChange` | src/components/MediaFormModal.tsx:77-87 | no file leaves the form unchanged; a file is stored and previews as its data URL |
| `MediaForm.PickedFileIsSent` | src/components/MediaFormModal.tsx:77-104 | a picked file is uploaded as `poster` by the next submission with the text fields untouched; an empty selection leaves the payload unchanged |
| `MediaForm.Payload` | src/components/MediaFormModal.tsx:94-104 | seven text entries in fixed order, then a poster entry exactly when a file was chosen |
| `MediaForm.PayloadWireKeys` | src/components/MediaFormModal.tsx:94-104 | the wire keys are title, type, director, budget, location, duration, year, then poster iff a file was chosen |
| `MediaForm.PayloadRoundTrip` | src/components/MediaFormModal.tsx:94-104 | decoding the payload gives back every field, empty ones included, and the chosen file |
| `MediaForm.UntouchedEditResendsRecord` | src/components/MediaFormModal.tsx:44-54 | submitting an untouched edit form sends the record's fields, with missing optional fields as empty strings |
| `MediaForm.Submit` | src/components/MediaFormModal.tsx:89-123 | one update with the edited id or one create; loading while in flight and not afterwards; success calls `onSuccess` then `onClose` then resets; failure keeps the input and calls nothing |
| `MediaForm.FailedSaveKeepsInput` | src/components/MediaFormModal.tsx:117-122 | after a failed save the fields and file remain, and resubmitting sends the same request |
| `MediaForm.SuccessfulSaveClearsPayload` | src/components/MediaFormModal.tsx:114-116 | after a successful save the next payload decodes to the blank form with no file |

## Left out

- Asynchrony is not modelled. Interleaving of overlapping requests, React state batching and stale closures (for example `loading` read by `fetchMedia` in `MediaList`) are absent: every handler is one atomic step.
- `MediaList.LoadingSuppressesFetches`: because handlers are atomic, `loading` is false in every state reachable from the mounted list (`MediaList.LoadingNeverObserved`). The lemma and the `loading` branches of `FetchMedia` and `OnFormSuccess` therefore speak only of states this model never reaches; the guard matters only for the overlapping requests left out above.
- HTTP, axios, JSON parsing and serialisation, toasts, console output, animation and markup are absent. The user stored under the `user` key is kept as a value. A `JSON.stringify(undefined)` that stores the string `"undefined"` is not modelled.
- `localStorage` is reduced to its two keys, `token` and `user`.
- `totalPages` is an integer. Non-numeric values such as `NaN` are not modelled.
- The scroll geometry and the `confirm()` dialog are booleans. The FileReader's data URL is a given string, and the preview update happens in the same step as the file selection.
- When the Dashboard's infinite-scroll widget calls `loadMore` belongs to a third-party component and is not modelled. `LoadMore` can be applied in any state.
- `Text.ToLower` maps only ASCII letters; Unicode case mapping is not modelled. `Text.IsWhitespace` is the exact ECMAScript trim set.
- Required-field checks are HTML `required` attributes, not code, so `MediaForm.Submit` has no guard for them.
- The type select can only produce the two media types, so `Fields.kind` is a `MediaType` and not a free string.
- `src/pages/Auth.tsx` is not part of this model: it is form handling and navigation around the store actions.
- `src/App.tsx` and `src/pages/Index.tsx` are not part of this model: their route gating is a plain branch on `isLoading` and `isAuthenticated`.
- `src/components/Navbar.tsx`, `src/components/SearchFilters.tsx` and `src/components/ThreeBackground.tsx` are not part of this model: they are view code. The filter's three values appear as `Types.TypeFilter`.
- `src/services/mediaService.ts` is not part of this model apart from its header helper: the rest are request wrappers.
- The Dashboard's `handleLogout`, `handleAddNew` and `handleEdit` are not modelled: they only toggle modal state or call the store's `logout`.
