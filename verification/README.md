# AventuraLocal client state, modelled in Dafny

This project models the client-side state layer of the AventuraLocal front
end: the Pinia session store (`auth`), the permission flags derived from the
signed-in user's role, the router's navigation guard with its route table,
and the six domain stores (destinations, routes, events, communities, tours,
categories).

Every store action is a pure function of the store's state and the
responses it meets, if any. It gives the next state, paired with the
action's return value (`Lifecycle.Step`) when the action returns one. The
HTTP client is replaced by `Http.Response`: an answer
`Ok(success, payload, message)`, an `HttpError(message)` rejection, or a
`NetworkError`. Each action's payload type is the part of the envelope
it reads. Local storage's `token` entry is the `storage` field of the session
state.

Facts of the code that shape the contracts:

- The message an action records is `error.response?.data?.message || fallback`.
  On `success:false` the action throws a fresh `Error`, which has no
  `response`, so the backend's message is dropped and the fallback is used.
  Only an HTTP-error rejection with a non-empty message surfaces the backend's
  text (`Http.ErrorMessage`).
- `login` returns `true` whenever the login answer succeeds, even when the
  chained profile fetch fails. That failure records its own message, and the
  forced logout then clears the token (`Session.Login`).
- `joinCommunity` changes no slice data: no local copy of a community learns
  of the membership, and there is no `leaveCommunity`.
- No failure message depends on the HTTP status: every failure uses the same
  message rule.

The modules, one per source file plus shared pieces:

- `Wrappers` holds `Option`.
- `Http` holds the response, the error message rule and query parameters.
- `Lifecycle` holds the request lifecycle shared by all stores.
- `Paging` holds the page metadata.
- `FormData` holds the registration body.
- `Session` models `auth.ts`.
- `Permissions` models `usePermissions.ts`.
- `Navigation` models `router/index.ts`.
- `Destinations`, `TravelRoutes`, `Events`, `Communities`, `Tours` and
  `Categories` model the six domain stores.

## Model

| member | source | states |
|---|---|---|
| Http.ErrorMessage | src/stores/destinations.ts:124-128 | A failure's message is the fallback unless the rejection is an HTTP error with a non-empty message, which is then used verbatim. A `success:false` answer or a network failure always gives the fallback. The message is never empty when the fallback is not. |
| Http.ListQueryLookup | src/stores/destinations.ts:106-110 | A list request carries `page` and `per_page`. It carries the search text under its key exactly when the text is non-empty. |
| Http.ListQueryOtherKeys | src/stores/routes.ts:69-73 | A list request carries no parameter other than page, page size and search. |
| Http.PairQueryOtherKeys | src/stores/destinations.ts:235 | A request built from two parameters carries no other. |
| Http.LimitQuery | src/stores/events.ts:61-66 | A popular-list request carries only `limit`, which is the caller's value or the store's default. |
| Paging.PaginationOf | src/stores/destinations.ts:115-123 | The stored links are the backend's links, or `[]` when it sent none. |
| Paging.PaginationIsVerbatim | src/stores/destinations.ts:115-123 | Stored page metadata is the backend's, field by field, and does not depend on the items of the page. |
| Paging.PaginationRoundTrip | src/stores/routes.ts:79-87 | Reading stored metadata back through a page built from it gives the same metadata. |
| FormData.Build | src/stores/auth.ts:64-71 | The loop that appends the user's fields builds exactly the entries of the set fields, in order, one per set field. |
| FormData.PresentExactlySetFields | src/stores/auth.ts:67-71 | The body has an entry for a key and value exactly when the user's data has that field with that non-null value. |
| FormData.PresentCountsSetFields | src/stores/auth.ts:67-71 | The body has exactly one entry per field that carries a value, and no more entries than fields. |
| FormData.PresentAppend | src/stores/auth.ts:67-71 | The body of concatenated fields is the concatenation of the bodies, so field order is kept. |
| Session.IsAuthenticated | src/stores/auth.ts:28 | Authenticated only with a usable token and a user. In a whole session the token alone decides. |
| Session.UserRole | src/stores/auth.ts:29 | The role is present exactly when a user is, is that user's role, and is always present once authenticated. |
| Session.Hydrate | src/stores/auth.ts:20-25 | At startup the token is read back from storage and there is no user. A token without a user is not authenticated. |
| Session.Logout | src/stores/auth.ts:116-132 | The backend is called exactly when a non-empty token is held. User, token and storage always end cleared, and the error is left alone. |
| Session.LogoutIdempotent | src/stores/auth.ts:119-131 | A second logout ends in the same state and does not call the backend. |
| Session.GetUserProfile | src/stores/auth.ts:92-114 | Without a token nothing changes and `null` is returned. On success the user is installed and returned. On failure the message is recorded, user, token and storage are all cleared, and `null` is returned. The session is never left half-authenticated. |
| Session.Login | src/stores/auth.ts:33-57 | Returns `true` exactly when the login answer succeeds. On failure, token, user and storage are unchanged and the login message is recorded. On success with a usable token, the session is authenticated with that token in memory and storage if the profile fetch succeeds, and anonymous with the profile message if it fails. An empty or missing token is stored without fetching a profile. |
| Session.Register | src/stores/auth.ts:59-90 | Returns `true` exactly on success and never touches user, token or storage. |
| Session.UpdateProfile | src/stores/auth.ts:134-153 | On success the user becomes the backend's copy and `true` is returned. On failure the user is untouched and `false` is returned. The token is never touched. |
| Session.UpdateProfilePhoto | src/stores/auth.ts:155-183 | On success only the photo of an existing user changes, and `true` is returned even without a user. On failure nothing but the error changes. |
| Session.Apply | src/stores/auth.ts:33-183 | Every session action keeps the session whole, that is, no usable token without a user. Storage stays in step with the token unless a successful login answer lacks a token. |
| Session.RunKeepsSessionWhole | src/stores/auth.ts:92-131 | Through any sequence of session actions, a whole session stays whole. |
| Session.HydratedSessionBecomesWhole | src/stores/auth.ts:20-114 | A session hydrated from storage is whole after its first profile fetch, whatever that fetch returns, and stays whole afterwards. |
| Session.RunKeepsStorageInSync | src/stores/auth.ts:40-43 | Storage and in-memory token agree through any sequence of actions whose successful logins carry a token. |
| Session.MissingTokenDesyncsStorage | src/stores/auth.ts:41-43 | A successful login answer without a token stores the text "undefined", holds no token in memory, and still returns `true`. On the next start the stored text comes back as a usable token. |
| Permissions.ParseRole | src/composables/usePermissions.ts:7-11 | A role string names a known role exactly when it equals that role's literal. |
| Permissions.ParseRoleName | src/composables/usePermissions.ts:7-11 | Every role's literal is recognised as that role. |
| Permissions.Derive | src/composables/usePermissions.ts:7-21 | Each role flag holds exactly for its literal, so at most one is set and none for an unknown or absent role. Managing events is for admins, entrepreneurs and organisers. Registering for events is for travellers and participants. Viewing is always allowed. Managing and registering are never both allowed. |
| Permissions.ForSession | src/composables/usePermissions.ts:4-21 | With nobody signed in there is no role flag and no managing or registering, but viewing is allowed. Otherwise the flags are those of the user's role. |
| Navigation.AnyCarries | src/router/index.ts:129-130 | A target requires a session, or is a guest page, exactly when some matched record carries that flag. |
| Navigation.Decide | src/router/index.ts:132-139 | A protected target without a session redirects to `login` with the full path as `redirect`, even on a guest page. Otherwise a guest page with a session redirects `home`. Navigation proceeds exactly when neither rule applies. |
| Navigation.Title | src/router/index.ts:126 | The title is the route's title when non-empty, else `AventuraLocal`, and never empty. |
| Navigation.BeforeEach | src/router/index.ts:124-141 | The guard sends to the login page only visitors who are not authenticated. |
| Navigation.TableFlags | src/router/index.ts:20-109 | In the active table only `login` and `register` are guest pages, no page requires a session, and every page has a title. |
| Navigation.AnonymousNeverRedirected | src/router/index.ts:20-64 | Any navigation within the active table proceeds for a visitor without a session. |
| Navigation.AuthenticatedSentHomeFromGuestPages | src/router/index.ts:135-137 | With a session, a table page redirects home exactly when it is the login or the register page. |
| Destinations.Normalize | src/stores/destinations.ts:165-171 | The detail copy keeps every field of the record, with missing media and tags turned into empty lists. |
| Destinations.NormalizeRoundTrip | src/stores/destinations.ts:165-171 | Normalising loses nothing on a record that carries both lists, and changes nothing on a normalised destination. |
| Destinations.ListParams | src/stores/destinations.ts:101-110 | The list request sends page (default 1) and per_page (default 6), plus `search` only when non-empty, and no other parameter. |
| Destinations.PopularParams | src/stores/destinations.ts:135-140 | The popular request sends only `limit`, default 6. |
| Destinations.NearbyParams | src/stores/destinations.ts:230-235 | The nearby request sends only the destination id and `radius`, default 50. |
| Destinations.FetchDestinations | src/stores/destinations.ts:101-133 | Ends not loading, with the error cleared on success and the failure message otherwise. On success the list is `data.data` and the pagination is the page metadata verbatim. On failure the list is empty and the pagination kept. Nothing else changes. |
| Destinations.FetchPopularDestinations | src/stores/destinations.ts:135-152 | The popular list becomes the payload, or empty on failure. Nothing else but the lifecycle fields changes. |
| Destinations.FetchDestinationById | src/stores/destinations.ts:154-190 | The detail view is what is returned: the normalised destination on success, `null` on failure. Nothing else changes. |
| Destinations.FetchDestinationReviews | src/stores/destinations.ts:192-209 | Returns the payload, or `[]` on failure. No data field changes. |
| Destinations.ToggleFavoriteDestination | src/stores/destinations.ts:211-228 | Returns the payload exactly on success, `null` otherwise. No data field changes. |
| Destinations.FetchNearbyDestinations | src/stores/destinations.ts:230-247 | Returns `data.results`, or `[]` on failure. No data field changes. |
| Destinations.FetchDestinationsReplaces | src/stores/destinations.ts:113-129 | A list fetch replaces rather than merges. A failed fetch after a successful one keeps the earlier page metadata. |
| Destinations.FetchDestinationByIdForgets | src/stores/destinations.ts:158 | A detail fetch forgets what the previous one installed. |
| Destinations.Apply | src/stores/destinations.ts:101-247 | Every action ends not loading, with the error cleared on success and the action's own message on failure. The list and page metadata are written only by `fetchDestinations`, the popular list only by `fetchPopularDestinations`, and the detail view only by `fetchDestinationById`. |
| Destinations.RunSettlesOnLast | src/stores/destinations.ts:101-247 | After any non-empty sequence of actions the store is not loading, and its error is exactly the last action's outcome, whatever earlier actions left. |
| Destinations.RunKeepsUnwrittenFields | src/stores/destinations.ts:101-247 | Through any sequence of actions, a data field keeps its value unless some action in the sequence writes it. |
| TravelRoutes.ListParams | src/stores/routes.ts:64-73 | The list request sends page and per_page, and the search text under `name`, never under `search`, only when non-empty. No other parameter is sent. |
| TravelRoutes.PopularParams | src/stores/routes.ts:99-106 | The popular request sends only `limit`, default 4. |
| TravelRoutes.FetchRoutes | src/stores/routes.ts:64-96 | On success the list and page metadata are replaced, with links defaulting to `[]`. On failure the list is emptied and the metadata kept. Ends not loading, with the error set only on failure. |
| TravelRoutes.FetchPopularRoutes | src/stores/routes.ts:99-116 | The popular list becomes the payload, or empty on failure. |
| TravelRoutes.FetchRouteById | src/stores/routes.ts:119-139 | The detail view is cleared, then holds and returns the route on success, or stays empty and returns `null`. |
| TravelRoutes.CreateRoute | src/stores/routes.ts:141-159 | Returns the created route exactly on success. No data field changes. |
| TravelRoutes.UpdateRoute | src/stores/routes.ts:161-182 | The viewed route changes only on success, and only when it has the updated id, in which case it becomes the payload. Returns the payload or `null`. |
| TravelRoutes.ToggleFavoriteRoute | src/stores/routes.ts:184-202 | Returns the payload exactly on success. No data field changes. |
| TravelRoutes.UpdateRouteStatus | src/stores/routes.ts:204-222 | Returns the payload exactly on success. No data field changes. |
| TravelRoutes.FetchRoutesReplaces | src/stores/routes.ts:77-93 | A list fetch replaces rather than merges. A failed fetch empties the list but keeps the last successful page metadata. |
| TravelRoutes.FetchRouteByIdForgets | src/stores/routes.ts:122 | A detail fetch forgets what the previous one installed. |
| TravelRoutes.UpdateAfterFetch | src/stores/routes.ts:168-172 | After viewing a route, an update reaches the view only when the ids agree and the update succeeds. |
| TravelRoutes.Apply | src/stores/routes.ts:64-222 | Every action ends not loading, with the error cleared on success and the action's own message on failure. The list and page metadata are written only by `fetchRoutes`, the popular list only by `fetchPopularRoutes`, and the viewed route only by `fetchRouteById` and `updateRoute`. |
| TravelRoutes.RunSettlesOnLast | src/stores/routes.ts:64-222 | After any non-empty sequence of actions the store is not loading, and its error is exactly the last action's outcome, whatever earlier actions left. |
| TravelRoutes.RunKeepsUnwrittenFields | src/stores/routes.ts:64-222 | Through any sequence of actions, a data field keeps its value unless some action in the sequence writes it. |
| Events.PopularParams | src/stores/events.ts:61-66 | The popular request sends only `limit`, default 4. |
| Events.FetchEvents | src/stores/events.ts:41-59 | The list becomes the payload, or empty on failure. Ends not loading, with the error set only on failure. |
| Events.FetchPopularEvents | src/stores/events.ts:61-79 | The popular list becomes the payload, or empty on failure. |
| Events.FetchUpcomingEvents | src/stores/events.ts:81-99 | The upcoming list becomes the items of the paginated answer, or empty on failure. |
| Events.FetchEventById | src/stores/events.ts:101-121 | The detail view is cleared, then holds and returns the event, or stays empty and returns `null`. |
| Events.AttendEvent | src/stores/events.ts:123-141 | Returns the payload exactly on success. No data field changes. |
| Events.CancelAttendance | src/stores/events.ts:143-161 | Returns `true` exactly on success, that is, exactly when no error is recorded. No data field changes. |
| Events.GetEventAttendees | src/stores/events.ts:163-181 | Returns the payload, or `[]` with the failure message. No data field changes. |
| Events.FetchesReplace | src/stores/events.ts:48-117 | List fetches do not depend on the previous list and repeat idempotently. A detail fetch forgets the previous one. |
| Events.Apply | src/stores/events.ts:41-181 | Every action ends not loading, with the error cleared on success and the action's own message on failure. The list is written only by `fetchEvents`, the popular list only by `fetchPopularEvents`, the upcoming list only by `fetchUpcomingEvents`, and the viewed event only by `fetchEventById`. |
| Events.RunSettlesOnLast | src/stores/events.ts:41-181 | After any non-empty sequence of actions the store is not loading, and its error is exactly the last action's outcome, whatever earlier actions left. |
| Events.RunKeepsUnwrittenFields | src/stores/events.ts:41-181 | Through any sequence of actions, a data field keeps its value unless some action in the sequence writes it. |
| Communities.PopularParams | src/stores/communities.ts:54-59 | The popular request sends only `limit`, default 4. |
| Communities.FetchCommunities | src/stores/communities.ts:34-52 | The list becomes the payload, or empty on failure. Ends not loading, with the error set only on failure. |
| Communities.FetchPopularCommunities | src/stores/communities.ts:54-72 | The popular list becomes the payload, or empty on failure. |
| Communities.FetchCommunityById | src/stores/communities.ts:74-94 | The detail view is cleared, then holds and returns the community, or stays empty and returns `null`. |
| Communities.JoinCommunity | src/stores/communities.ts:96-114 | Returns the payload exactly on success. Neither the list nor the viewed community changes. |
| Communities.GetCommunityEvents | src/stores/communities.ts:116-134 | Returns the payload, or `[]` with the failure message. No data field changes. |
| Communities.GetCommunityRoutes | src/stores/communities.ts:136-154 | Returns the payload, or `[]` with the failure message. No data field changes. |
| Communities.JoinKeepsViewedCommunity | src/stores/communities.ts:96-114 | Joining the community being viewed leaves the viewed copy exactly as fetched. |
| Communities.Apply | src/stores/communities.ts:34-154 | Every action ends not loading, with the error cleared on success and the action's own message on failure. The list is written only by `fetchCommunities`, the popular list only by `fetchPopularCommunities`, and the viewed community only by `fetchCommunityById`. |
| Communities.RunSettlesOnLast | src/stores/communities.ts:34-154 | After any non-empty sequence of actions the store is not loading, and its error is exactly the last action's outcome, whatever earlier actions left. |
| Communities.RunKeepsUnwrittenFields | src/stores/communities.ts:34-154 | Through any sequence of actions, a data field keeps its value unless some action in the sequence writes it. |
| Tours.FetchTours | src/stores/tours.ts:35-53 | The list becomes the payload, or empty on failure. Ends not loading, with the error set only on failure. |
| Tours.FetchTourById | src/stores/tours.ts:55-75 | The detail view is cleared, then holds and returns the tour, or stays empty and returns `null`. |
| Tours.CreateTour | src/stores/tours.ts:77-95 | Returns the created tour exactly on success. No data field changes. |
| Tours.UpdateTour | src/stores/tours.ts:97-118 | The viewed tour changes only on success and only on an id match. The message is the fallback unless an HTTP error carries a non-empty one. |
| Tours.FetchAndUpdate | src/stores/tours.ts:42-108 | List and detail fetches replace. An update reaches the viewed tour only when the ids agree. |
| Tours.Apply | src/stores/tours.ts:35-118 | Every action ends not loading, with the error cleared on success and the action's own message on failure. The list is written only by `fetchTours`, and the viewed tour only by `fetchTourById` and `updateTour`. |
| Tours.RunSettlesOnLast | src/stores/tours.ts:35-118 | After any non-empty sequence of actions the store is not loading, and its error is exactly the last action's outcome, whatever earlier actions left. |
| Tours.RunKeepsUnwrittenFields | src/stores/tours.ts:35-118 | Through any sequence of actions, a data field keeps its value unless some action in the sequence writes it. |
| Categories.FetchCategories | src/stores/categories.ts:27-45 | The list becomes the payload, or empty on failure. Ends not loading, with the error set only on failure. |
| Categories.FetchCategoryById | src/stores/categories.ts:47-67 | The detail view is cleared, then holds and returns the category, or stays empty and returns `null`. |
| Categories.FetchCategoryDestinations | src/stores/categories.ts:69-87 | Returns the payload, or `[]`. No data field changes. |
| Categories.ErrorReflectsLastAction | src/stores/categories.ts:29-40 | The one-step case of Categories.RunSettlesOnLast, for `fetchCategories`: the error after the fetch depends only on that action's response, and is a non-empty message after any failure. |
| Categories.Apply | src/stores/categories.ts:27-87 | Every action ends not loading, with the error cleared on success and the action's own message on failure. The list is written only by `fetchCategories`, and the viewed category only by `fetchCategoryById`. |
| Categories.RunSettlesOnLast | src/stores/categories.ts:27-87 | After any non-empty sequence of actions the store is not loading, and its error is exactly the last action's outcome, whatever earlier actions left. |
| Categories.RunKeepsUnwrittenFields | src/stores/categories.ts:27-87 | Through any sequence of actions, a data field keeps its value unless some action in the sequence writes it. |

## Left out

- The HTTP client, request URLs, headers and request bodies other than the registration form are not modelled, apart from query parameters and default limits. The id argument of by-id actions only shapes the URL, so those actions take just the response.
- Query parameters are ordered key/value pairs. Percent-encoding and number-to-decimal rendering are not modelled.
- Payloads are typed: every successful answer is taken to carry the fields its action reads. A missing top-level field, such as `response.data.user` in `getUserProfile` or `response.data.data` in a list fetch, would install `undefined` without any error; only a read one level deeper, such as `destinationData.latitude`, would throw a `TypeError` caught as a fallback-message failure. Neither case is modelled. Missing `links`, `media`, `tags` and login `token` are modelled as optional fields.
- Session.Apply: the session stays whole only if every successful `/auth/me` and `PUT /users/{id}` answer carries a user. An answer `{success: true}` without one would leave the token in place with `user` undefined, a half-authenticated session. The same assumption underlies Session.GetUserProfile, Session.UpdateProfile, Session.RunKeepsSessionWhole and Session.HydratedSessionBecomesWhole.
- Session.MissingTokenDesyncsStorage: a `null` token and a missing one are both `None`; `setItem` would store "null" for the first, the model stores "undefined" for both.
- Destinations.Normalize: the `latitude`/`longitude` `toString()` calls are taken as identity, because the coordinates are kept as the text they render to; number formatting is not modelled.
- Overlapping actions and the un-awaited `logout()` inside `getUserProfile`: this is asynchronous interleaving. The model runs logout to completion within the call, so `isLoading` races are not modelled. In the code, when `getUserProfile` returns `null`, or `login` returns `true` after a failed profile fetch, the token, its stored copy and any earlier user are still held; they clear only once the `/auth/logout` request settles. So the `Whole` state that Session.GetUserProfile, Session.Login and Session.Apply promise at return holds only under this abstraction.
- `console.log`/`console.error` calls, the DOM write of `document.title` (only the chosen string is modelled), and `scrollBehavior`.
- The router's own path matching and meta merging: a `Navigation.Location` arrives with its matched records and meta already resolved.
- `src/composables/useAlert.ts` is a thin UI wrapper, `src/i18n/index.ts` a static translation table, `src/main.ts` app bootstrap, and `src/types/index.ts` type declarations only. None of them is part of this model.
