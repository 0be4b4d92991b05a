# Aletheia core, modelled in Dafny

Aletheia is a property-management application for Nigerian landlords and
tenants. A hash-routed browser client talks to a Go JSON API backed by
Supabase. This project models the core of both halves and proves properties
of the model.

- **Client** (`web/js`):
  - the router: registering patterns, matching `:param` segments and
    navigating on a hash;
  - the session kept in `localStorage`, with its guards;
  - the request gate of the API client and the endpoint wrappers;
  - the formatting helpers;
  - the page controllers' state and the route registrations.
- **Server** (`tools/internal`):
  - the bearer-token middleware with its role check and context getters;
  - the handlers for sign-up, login and invitation acceptance;
  - the handlers for buildings and units, invitations, maintenance
    requests, payments, the two dashboards, and documents.

Files and modules:

| file | module | models |
|---|---|---|
| `common.dfy` | `Common` | `Option`, parsed JSON, `split`/`join`, `filter`, `slice`, upper-casing, decimal rendering |
| `query.dfy` | `Query` | `Object.fromEntries(new URLSearchParams(q))` |
| `router.dfy` | `Router` | `web/js/router.js` |
| `session.dfy` | `Auth` | `web/js/auth.js` |
| `api.dfy` | `Api` | `web/js/api.js` |
| `utils.dfy` | `Utils` | `web/js/utils.js` |
| `pages.dfy` | `Pages` | the parts of `web/js/pages.js` that compute or keep state, and the thirteen route registrations |
| `tables.dfy` | `Tables` | row types, the `Store` of Supabase tables, ordering, `.Eq`/`.Update` filters |
| `middleware.dfy` | `Middleware` | `tools/internal/middleware/auth.go` |
| `auth_handlers.dfy` | `AuthHandlers` | `tools/internal/handlers/auth.go` |
| `buildings.dfy` | `Buildings` | `tools/internal/handlers/buildings.go` |
| `invitations.dfy` | `Invitations` | `tools/internal/handlers/invitations.go` |
| `maintenance.dfy` | `Maintenance` | `tools/internal/handlers/maintenance.go` |
| `payments.dfy` | `Payments` | `tools/internal/handlers/payments.go` |
| `dashboard.dfy` | `Dashboard` | `tools/internal/handlers/dashboard.go` |
| `documents.dfy` | `Documents` | `tools/internal/handlers/documents.go` |

How the model stands in for the runtime:

- **Client objects.** The router's `routes` object becomes the class
  `Router.RouteTable`. The `auth` object and the browser state it touches
  (the token, the user and `window.location.hash`) become the class
  `Auth.Session`. The page objects' mutable fields become the class
  `Pages.PageState`. Their methods update these fields in place.
- **Database.**
  - The database is the class `Tables.Store`. It holds one sequence field
    per table.
  - A clock field `now` stamps `created_at`, so "newest first" is a real
    order on rows.
  - A handler that writes takes the `Store` and changes only the tables it
    names.
  - A handler that only reads is a function of the tables.
- **Failures.** A request's database failures are a parameter
  `faults: map<nat, string>`, read as "the k-th database call of this
  request fails with this message".
  - A handler that checks `err` answers with its error reply.
  - A handler that ignores `err` sees no rows, the same as an empty
    decode.
- **Pure code.** Code that only computes a value, such as matching,
  splitting, encoding or the helpers, becomes functions with lemmas.
- **Loops.** Loops stay loops, in methods proved against a specification
  function:
  - `matchRoute` and the route search in `navigate`;
  - the `getHashParams` copy;
  - the building-id loops of the two listings;
  - the patch building of `UpdateBuilding`;
  - the counting and summing loops of both dashboards.

## Model

| member | source | states |
|---|---|---|
| Common.Split | web/js/router.js:52-53 | `split` on a one-character separator always gives at least one piece, and no piece contains the separator |
| Common.JoinSplit | web/js/router.js:52-53 | joining the pieces of a split with the same separator gives back the original text |
| Common.SplitJoin | web/js/router.js:52-53 | splitting the join of separator-free pieces gives back exactly those pieces |
| Common.SplitInjective | web/js/router.js:52-53 | two texts that split into the same pieces are equal |
| Common.SplitNoSep | web/js/router.js:52-53 | a text without the separator splits into itself alone |
| Common.Field | web/js/api.js:24 | a property read finds a value iff the value is an object holding that key |
| Common.SplitFirst | web/js/router.js:12 | the text before the first separator contains no separator, and the text is rebuilt from before + separator + rest |
| Common.RemoveFirst | web/js/router.js:12 | `replace` with a one-character string removes exactly the first occurrence of the character, and changes nothing when there is none |
| Common.Filter | web/js/pages.js:390 | `filter` keeps exactly the elements satisfying the predicate and never lengthens the sequence |
| Common.FilterCount | web/js/pages.js:390 | a filter keeps each passing element exactly as often as it occurs and drops every other |
| Common.FilterAppend | web/js/pages.js:390 | filtering distributes over concatenation, so relative order is kept |
| Common.FilterFilter | web/js/pages.js:390 | filtering by p and then by q is filtering by their conjunction |
| Common.FilterAll | web/js/pages.js:390 | a filter that every element passes keeps the whole sequence |
| Common.FilterCongruent | web/js/pages.js:390 | predicates that agree on every element select the same elements |
| Common.Take | web/js/utils.js:34 | `slice(0, n)` has length min(n, length) and is a prefix |
| Common.Upper | web/js/utils.js:34 | upper-casing keeps the length and maps each character through the ASCII upper-case map |
| Common.UpperChar | web/js/utils.js:34 | a lower-case ASCII letter becomes its own capital (32 code points lower), and every other character is kept |
| Common.NatToString | web/js/pages.js:250 | a rendered number is a non-empty string of decimal digits that reads back as the number, with no leading zero |
| Query.FromEntries | web/js/utils.js:73 | the keys of the object are exactly the keys of the entries |
| Query.FromEntriesLastWins | web/js/utils.js:73 | a key takes the value of its last entry |
| Query.FromEntriesSnoc | web/js/utils.js:73 | one more entry overwrites or adds its key and nothing else |
| Query.EntryOf | web/js/router.js:13 | a query piece splits at its first `=`: the name holds no `=` and name, `=` and value rebuild the piece; a piece without `=` is a name with the empty value |
| Query.Entries | web/js/router.js:13 | exactly the non-empty `&`-separated pieces become entries |
| Query.EntriesAppend | web/js/router.js:13 | the entries keep the pieces' order: consecutive runs of pieces give consecutive runs of entries |
| Query.ParseQuery | web/js/router.js:13 | a key is parsed iff it is the name of a non-empty piece of the query |
| Query.ParseQueryValue | web/js/router.js:13 | a key holds the value of the last non-empty piece with that name |
| Query.SingleKey | web/js/router.js:13 | a bare name is parsed as one key with an empty value |
| Router.Bindings | web/js/router.js:58-64 | the parameter assignments of the match loop number at most one per segment |
| Router.RouteMatch | web/js/router.js:51-66 | segment counts that differ never match, and on a match every literal pattern segment equals the path segment |
| Router.BindingsLastWins | web/js/router.js:58-64 | a `:name` segment binds `name` to the path segment at its index when no later segment uses the same name |
| Router.MatchBindsParams | web/js/router.js:59-60 | on a match, each `:name` of the pattern maps to the path segment at the same index |
| Router.NoParamBindings | web/js/router.js:58-64 | a pattern without parameters binds nothing |
| Router.LiteralMatch | web/js/router.js:51-66 | a pattern without parameters matches exactly the identical path, with no bindings |
| Router.BindingsStep | web/js/router.js:58-64 | one more segment keeps the match iff it is a parameter or the same text, and adds a binding only for a parameter |
| Pages.ParamMatch | web/js/router.js:51-66 | a pattern `<a>/<b>/:name` matches any path with the same first two segments, binding `name` to the third |
| Router.MatchRoute | web/js/router.js:51-66 | the loop with its early `return null` computes the match function |
| Router.Patterns | web/js/router.js:19 | `Object.entries` of a table none of whose keys is an array index (`IndexKey`) lists the patterns in table order |
| Router.Lookup | web/js/router.js:7 | a lookup misses exactly when the pattern was never registered |
| Router.Registered | web/js/router.js:6-8 | a new pattern goes last, a registered one keeps its place and gets the new handler, and every other entry is unchanged |
| Router.RegisterThenLookup | web/js/router.js:6-8 | after registering, lookup of the pattern finds the new handler and the keys stay distinct |
| Router.LookupFinds | web/js/router.js:7 | with distinct keys, the pattern at index k finds the handler at k |
| Router.RegisterFresh | web/js/router.js:6-8 | registering distinct patterns one by one lays the table out in registration order |
| Router.FirstMatch | web/js/router.js:19-26 | the chosen index matches and every earlier pattern does not; no index means no pattern matches |
| Router.Merge | web/js/router.js:41 | `{...routeParams, ...params}` has both key sets, and a query value overrides a route value |
| Router.MergeNothing | web/js/router.js:41 | with no query parameters the route's bindings pass through unchanged |
| Router.HashPath | web/js/router.js:12 | the routed path never contains `?` |
| Router.NavigationOf | web/js/router.js:10-49 | a handler runs only for a matching path or the landing fallback; the dashboard redirect only for a signed-in user; divergence only for a signed-out user with no `''` route; an invoked page's toast is its init error |
| Router.NavigatesToMatch | web/js/router.js:19-47 | a hash whose path first matches pattern k runs k's `init` with the merged parameters |
| Router.QueryParamsWin | web/js/router.js:13-41 | a query parameter reaches the page controller even when a route parameter has the same name |
| Router.RouteTable.Register | web/js/router.js:6-8 | the table becomes the registration function of the old table, and the new handler is found |
| Router.RouteTable.constructor | web/js/router.js:2-3 | the table starts empty |
| Router.RouteTable.FindRoute | web/js/router.js:19-26 | the loop with `break` finds the first matching route and its bindings |
| Router.RouteTable.Navigate | web/js/router.js:10-49 | navigation is the outcome function above, and only a dashboard redirect changes the hash |
| Auth.RoleOf | web/js/auth.js:9 | `user?.role \|\| ''` is the empty role without a user and the stored role otherwise |
| Auth.DashboardHash | web/js/auth.js:23-29 | only a landlord goes to `#/dashboard`; every other role, the empty one included, goes to `#/tenant` |
| Auth.RoleGuard | web/js/auth.js:40-47 | the guard passes iff signed in with the wanted role; a failure always sets a hash: login when signed out, the dashboard otherwise |
| Auth.GuardKeepsSignedInUsersOffLogin | web/js/auth.js:40-47 | a signed-in user is never sent to the login page by a guard |
| Auth.Session.constructor | web/js/auth.js:2-9 | the session reads back whatever token, user and hash the browser holds |
| Auth.Session.Save | web/js/auth.js:11-14 | the token and user are stored together, so the session counts as signed in iff the token is non-empty, with the saved role |
| Auth.Session.Logout | web/js/auth.js:16-20 | both keys are removed, the session is signed out with the empty role, and the hash is the login page |
| Auth.Session.RedirectToDashboard | web/js/auth.js:23-29 | the hash becomes the current role's dashboard |
| Auth.Session.RequireAuth | web/js/auth.js:32-38 | passes iff signed in; otherwise sends the browser to login |
| Auth.Session.RequireRole | web/js/auth.js:40-47 | result and hash are exactly the guard decision's |
| Api.Prepare | web/js/api.js:5-20 | a private call without a token never reaches `fetch`; a sent request carries the JSON content type, a bearer header iff the call is private, and a body iff the body is truthy |
| Api.ErrorOf | web/js/api.js:24 | a `null` body makes reading `.error` throw; otherwise the error is the truthy `error` field, and `Request failed` when the field is absent or falsy |
| Api.Receive | web/js/api.js:20-26 | the data comes back iff the response is ok and parsed; a non-ok parsed body throws what `ErrorOf` gives for it; a rejected fetch or an unparsed body throws an engine error |
| Api.ServerErrorThrown | web/js/api.js:23-25 | a non-ok `{"error": message}` reply, the handlers' error shape, throws that message, or `Request failed` when it is empty |
| Api.Request | web/js/api.js:5-27 | a gated call redirects to login and throws `Not authenticated`; a sent call leaves the hash alone and returns what the response gives |
| Api.HexUpper | web/js/api.js:61 | a nibble is written as an upper-case hexadecimal digit |
| Api.HexUpperValue | web/js/api.js:61 | exactly the upper-case hexadecimal digits have a value, below 16 |
| Api.HexUpperRoundTrip | web/js/api.js:61 | a written digit reads back as its nibble, and a digit character is written only by its own value |
| Api.Utf8 | web/js/api.js:61 | a character encodes to one to four bytes whose lead byte gives their number and which decode to the character's code point |
| Api.PercentBytes | web/js/api.js:61 | each byte becomes three characters: `%` and two upper-case hexadecimal digits |
| Api.PercentDecode | web/js/api.js:61 | a run of `%XY` triples decodes to one byte per triple |
| Api.PercentRoundTrip | web/js/api.js:61 | the triples of a byte sequence decode back to it |
| Api.EncodeURIComponent | web/js/api.js:61 | the encoding only contains unreserved characters and `%`, and is never shorter than the input |
| Api.DecodeEscaped | web/js/api.js:61 | the `%`-escapes of one character's UTF-8 bytes decode to that character, whatever follows |
| Api.DecodeEncodeURI | web/js/api.js:61 | decoding the encoding of any text gives the text back |
| Api.EncodeInjective | web/js/api.js:61 | distinct texts encode differently, so distinct file URLs give distinct upload queries |
| Api.EncodeUnreservedIdentity | web/js/api.js:61 | text made of unreserved characters is left unchanged |
| Api.CallOf | web/js/api.js:30-62 | every wrapper's path starts with `/`, and a GET never carries a body |
| Api.PublicEndpoints | web/js/api.js:30-53 | exactly sign-up, login, accept-invite and verify-invite go out without a token |
| Api.GateStopsPrivateCalls | web/js/api.js:8-15 | without a token only the public wrappers reach `fetch` |
| Api.GetsCarryNoBody | web/js/api.js:17-18 | a GET request is sent without a body |
| Api.ListPaymentsPath | web/js/api.js:48 | no filter asks for `/payments`; any filter is appended after one `?` |
| Api.UploadQuery | web/js/api.js:61 | the upload path's query is the single parameter `file_url` carrying the encoded location |
| Api.SingleParam | web/js/api.js:61 | `file_url=` followed by encoded text parses to one parameter holding that text |
| Utils.FirstLetters | web/js/utils.js:34 | the letters come from the non-empty words, one per word at most |
| Utils.FirstLettersLength | web/js/utils.js:34 | there is exactly one letter per non-empty word |
| Utils.GetInitialsShape | web/js/utils.js:32-35 | a falsy name gives `?`; any other name gives at most two characters, each an upper-cased first letter of a word; this also models the identical `getInitials` at web/js/pages.js:43-46 |
| Utils.TwoWordInitials | web/js/utils.js:34 | `first last` gives the upper-cased first letters of the two words |
| Utils.TimeAgo | web/js/utils.js:20-29 | each bucket holds exactly its elapsed-time range: under a minute, minutes, hours, days, then the formatted date from 30 days on or for an invalid date |
| Utils.TimeAgoMonotone | web/js/utils.js:23-28 | more elapsed time never gives a more recent bucket |
| Utils.AgoText | web/js/utils.js:24-28 | `Just now`, the formatted date, or the bucket's count in decimal followed by `m ago`, `h ago` or `d ago` |
| Utils.AgoTextInjective | web/js/utils.js:24-28 | two relative times with the same text are the same bucket and count |
| Utils.TimeAgoText | web/js/utils.js:23-28 | an elapsed time from a minute to under 30 days reads as its whole minutes, hours or days followed by the unit and ` ago` |
| Utils.OccupancyPercent | web/js/utils.js:61-64 | a zero total gives 0 |
| Utils.OccupancyBounds | web/js/utils.js:61-64 | with 0 <= occupied <= total the percentage lies in [0, 100] |
| Utils.OccupancyEnds | web/js/utils.js:61-64 | all units occupied is 100 and none is 0 |
| Utils.OccupancyMonotone | web/js/utils.js:61-64 | more occupied units never lower the percentage |
| Utils.StatusBadge | web/js/utils.js:84-99 | a known status gets its badge from the table; any other status gets a gray badge showing the raw status |
| Utils.StatusFallbackInjective | web/js/utils.js:98 | two unknown statuses with the same badge are the same status |
| Utils.StatusFallbackCollides | web/js/utils.js:90-98 | the unknown status `Vacant` renders exactly like the known `vacant` |
| Utils.PriorityBadge | web/js/utils.js:102-110 | a known priority gets its badge; an unknown one comes back as raw text |
| Utils.PriorityBadgeWraps | web/js/utils.js:102-110 | exactly the four known priorities (and text already starting with `<span`) come back as markup |
| Utils.GetHashParams | web/js/utils.js:67-75 | the copying loop returns the parameters of the text after the first `?` |
| Utils.CopyEntries | web/js/utils.js:73 | `obj[k] = v` over the entries builds the entries' object, the last entry winning |
| Utils.HashParamsSource | web/js/utils.js:69-71 | no `?` gives no parameters; otherwise only the text after the first `?` is parsed |
| Pages.AvatarColor | web/js/pages.js:48-49 | the colour is the palette entry at the index modulo four |
| Pages.AvatarColorCycle | web/js/pages.js:48-49 | rows four apart share a colour and neighbouring rows never do |
| Pages.BuildingOccupancy | web/js/pages.js:253 | a missing or zero total shows 0; otherwise the occupancy percentage of the occupied count, a missing count read as 0 |
| Pages.BuildingOccupancyBounds | web/js/pages.js:253 | a card whose occupied count lies within its total shows 0 to 100 percent |
| Pages.TierOf | web/js/pages.js:257 | Healthy iff at least 80, Fair iff from 50 to under 80, Low iff under 50; `Tier.Label`, `Tier.TagClass` and `Tier.BarClass` give the tier's tag text, tag class and bar colour |
| Pages.TierDisplay | web/js/pages.js:257-267 | the status tag's class and text and the progress bar's colour are the card's 80/50 choices for the occupancy |
| Pages.TierDisplayDistinct | web/js/pages.js:257-267 | different tiers differ in tag text, tag class and bar colour |
| Pages.TierMonotone | web/js/pages.js:257 | a fuller building never shows a lower tier |
| Pages.TierEnds | web/js/pages.js:253-267 | an empty building is Low and a full one is Healthy |
| Pages.TruncateDescription | web/js/pages.js:434 | the cell shows the first 50 characters, followed by `...` exactly when the description was longer |
| Pages.PaymentStatusLabel | web/js/pages.js:401 | `successful` and `pending` get their labels; any other status reads `Failed` |
| Pages.PaymentStatusClass | web/js/pages.js:401 | the danger class goes with exactly the `Failed` label |
| Pages.PropertiesWord | web/js/pages.js:250 | `property` iff the count is 1 |
| Pages.PageRoutes | web/js/pages.js:692-704 | there are thirteen registrations |
| Pages.PatternSplit | web/js/pages.js:692-704 | each pattern splits on `/` into its listed segments, whose second segment is never a parameter |
| Pages.RoutesDisjoint | web/js/pages.js:692-704 | no path matches two registered patterns, so registration order never decides between them |
| Pages.PageRoutesDistinct | web/js/pages.js:692-704 | the thirteen patterns are distinct |
| Pages.PageRoutesInOrder | web/js/pages.js:692-704 | no registered pattern is an array-index key, so `Object.entries` tries the routes in registration order |
| Pages.RegisterPages | web/js/pages.js:692-704 | the load-time registrations leave the table equal to the thirteen routes in order |
| Pages.RoutedTo | web/js/pages.js:692-704 | a path that pattern k matches is routed to pattern k |
| Pages.LandingNavigation | web/js/pages.js:692 | the empty hash opens the landing page with no parameters |
| Pages.FallbackReachesLanding | web/js/router.js:28-36 | for a signed-out user, a path no pattern matches ends on the landing page instead of diverging |
| Pages.LiteralNavigation | web/js/pages.js:693-703 | `#` followed by a literal pattern opens that pattern's page with no parameters |
| Pages.LiteralRoute | web/js/pages.js:693-703 | a literal pattern's own text is routed to it and binds nothing |
| Pages.NavigatesPlain | web/js/router.js:10-47 | a `?`-free path routed to pattern k runs k's handler with exactly the route's bindings |
| Pages.AuthRoutes | web/js/pages.js:693-694 | `#/login` and `#/signup` open the sign-in form in its two modes |
| Pages.ParamNavigation | web/js/pages.js:697 | `#/<word>/<value>` opens the parameter page, binding its parameter to the raw segment |
| Pages.BuildingRoute | web/js/pages.js:697 | `#/buildings/<id>` opens the building page with `id` bound to the segment |
| Pages.InviteRoute | web/js/pages.js:704 | `#/invite/<token>` opens the invitation page with `token` bound to the segment |
| Pages.PageState.constructor | web/js/pages.js:55-56 | the sign-in form starts in login mode with the landlord role selected, and no building or payments are held |
| Pages.PageState.RunInit | web/js/pages.js:693-697 | the login route clears sign-up mode, the sign-up route sets it, the building route stores `params.id` (`undefined`, kept as `None`, when absent), the payments route replaces the cache with a successful fetch and keeps it on a failed one, and the selected role never changes |
| Pages.PageState.SelectRole | web/js/pages.js:63-64 | only the selected role changes |
| Pages.PageState.ToggleMode | web/js/pages.js:101 | only the sign-up flag flips |
| Pages.PageState.LoadPayments | web/js/pages.js:380-382 | a successful fetch replaces the cache; a failed one keeps it |
| Pages.PageState.FilterPayments | web/js/pages.js:388-392 | the empty filter shows every cached payment; any other shows exactly the cached payments with that status |
| Pages.FilterPaymentsIdempotent | web/js/pages.js:390 | filtering the filtered list by the same status changes nothing |
| Pages.AfterSignIn | web/js/pages.js:118-123 | only a tenant goes to `#/tenant`; everyone else, including no stored user, goes to `#/dashboard` |
| Pages.AfterSignInVersusDashboard | web/js/pages.js:118-123 | the form agrees with `redirectToDashboard` on landlord and tenant, and sends any other role the opposite way |
| Pages.SignupBody | web/js/pages.js:113-114 | as written: the sign-up body carries the name under `name` and has no `full_name` key |
| Pages.SignupNameLost | web/js/pages.js:114 | as written: every sign-up body decodes with an empty name, so the server answers 400 "Email, password, full_name, and role are required" |
| Pages.CorrectedSignupBody | web/js/pages.js:114 | corrected: the name goes under `full_name` |
| Pages.CorrectedSignupDecodes | web/js/pages.js:114 | corrected: the form's four fields decode as typed, and the field checks pass iff all are filled in and the role is landlord or tenant |
| Pages.InvitePhone | web/js/pages.js:683 | an empty phone stays empty; any other gets the `+234` prefix |
| Pages.AcceptBody | web/js/pages.js:683 | as written: the acceptance body carries the name under `name` and has no `full_name` key |
| Pages.AcceptNameLost | web/js/pages.js:683 | as written: every acceptance body decodes with an empty name, which `AcceptInvite` answers with the missing-field 400 |
| Pages.CorrectedAcceptBody | web/js/pages.js:683 | corrected: the name goes under `full_name` |
| Pages.CorrectedAcceptDecodes | web/js/pages.js:683 | corrected: every field of the acceptance form decodes as typed |
| Tables.InsertBy | tools/internal/handlers/buildings.go:25 | inserting into a sorted sequence keeps it sorted and adds exactly that element |
| Tables.SortBy | tools/internal/handlers/buildings.go:25 | `.Order` returns a sorted permutation of the rows |
| Tables.NewestFirst | tools/internal/handlers/buildings.go:25 | `created_at` descending is a permutation in which no row is newer than an earlier one |
| Tables.NewestKept | tools/internal/handlers/dashboard.go:67 | after a newest-first order, `.Limit(n)` leaves a row out only when n rows are kept, each at least as new as it |
| Tables.NewestTake | tools/internal/handlers/dashboard.go:67 | `.Order(created_at desc).Limit(n)` keeps min(n, rows) of the rows, newest first, and any row left out is no newer than every row kept |
| Tables.NewestIsFirst | tools/internal/handlers/buildings.go:25 | a row strictly newer than every other comes first |
| Tables.ByUnitNumber | tools/internal/handlers/buildings.go:176 | units ordered by unit number are a permutation sorted by character order |
| Tables.LexTotal | tools/internal/handlers/buildings.go:176 | character order on unit numbers compares every pair |
| Tables.LexTransitive | tools/internal/handlers/buildings.go:176 | character order on unit numbers is transitive |
| Tables.FirstWhere | tools/internal/handlers/auth.go:139 | the first selected row exists iff some row passes the filters, and passes them |
| Tables.UpdateWhere | tools/internal/handlers/auth.go:187 | `.Update` patches every selected row and keeps every other row in place |
| Tables.UpdateNothing | tools/internal/handlers/buildings.go:134 | an update selecting nothing leaves the table unchanged |
| Tables.BuildingIds | tools/internal/handlers/maintenance.go:103-106 | the id list has one id per building, in order |
| Tables.CollectBuildingIds | tools/internal/handlers/maintenance.go:103-106 | the `ids[i] = b.ID` loop builds the id list |
| Tables.BuildingIdsMembership | tools/internal/handlers/maintenance.go:103-106 | an id is collected iff some building has it |
| Tables.OwnedBy | tools/internal/handlers/buildings.go:25 | `.Eq("landlord_id", caller)` keeps exactly the caller's buildings |
| Tables.OwnedIds | tools/internal/handlers/maintenance.go:96-106 | the ids collected from the caller's buildings are exactly the ids of buildings they own |
| Tables.LandlordBuildingIds | tools/internal/handlers/maintenance.go:96-106 | a failed building read gives no ids, an answered one exactly the caller's building ids |
| Tables.QueryCall | tools/internal/handlers/maintenance.go:92-111 | a role-scoped listing query is the first database call for a tenant and the second, after the building read, for anyone else |
| Tables.Store.AddBuilding | tools/internal/handlers/buildings.go:88 | the row is appended stamped with the clock, which advances, keeping every row older than the clock |
| Tables.Store.AddUnit | tools/internal/handlers/buildings.go:225 | the row is appended stamped with the clock, which advances |
| Tables.Store.AddRequest | tools/internal/handlers/maintenance.go:69 | the row is appended stamped with the clock, which advances |
| Tables.Store.AddPayment | tools/internal/handlers/payments.go:70 | the row is appended stamped with the clock, which advances |
| Tables.Store.AddDocument | tools/internal/handlers/documents.go:52 | the row is appended stamped with the clock, which advances |
| Tables.Store.AddInvitation | tools/internal/handlers/invitations.go:75 | the row is appended stamped with the clock, which advances |
| Middleware.TrimPrefix | tools/internal/middleware/auth.go:30 | a present prefix is removed once; otherwise the text is unchanged |
| Middleware.TrimChanges | tools/internal/middleware/auth.go:30-31 | `token == authHeader` holds exactly when the header lacks the `Bearer ` prefix |
| Middleware.Authenticate | tools/internal/middleware/auth.go:24-70 | an empty header and a header without `Bearer ` get their 401s; a token the client rejects gets "Invalid token", one it cannot resolve "Invalid or expired token", and a user whose profile read fails or is empty "User profile not found"; the handler runs iff the token identifies a user with a profile row, with that id and the first row's role in the context |
| Middleware.BearerToken | tools/internal/middleware/auth.go:30-48 | `Bearer t` hands exactly `t` to the identity lookup; each lookup failure gets its own 401, and a user with no profile row gets "User profile not found" |
| Middleware.ClientHeaderAccepted | tools/internal/middleware/auth.go:24-34 | every private request the web client sends passes the header checks, and is admitted iff its stored token identifies a user with a profile |
| Middleware.RequireRole | tools/internal/middleware/auth.go:79-84 | the next handler runs iff the context role is the wanted one; otherwise 403 `Insufficient permissions` |
| Middleware.GetUserID | tools/internal/middleware/auth.go:90-95 | the stored id, or `""` when none was stored |
| Middleware.GetUserRole | tools/internal/middleware/auth.go:98-103 | the stored role, or `""` when none was stored |
| Middleware.RoleRouteAdmits | tools/internal/middleware/auth.go:68-84 | behind the middleware, a role route runs iff the caller's first profile row has that role, and the getters return the caller's id and role |
| AuthHandlers.SignupError | tools/internal/handlers/auth.go:28-36 | the field checks pass iff all four fields are present and the role is landlord or tenant; a missing field gives the "required" message |
| AuthHandlers.StringMember | tools/internal/handlers/auth.go:22-26 | a string member of the request is "" for an absent key or `null`, the string for a string, and a failed decode for any other value |
| AuthHandlers.DecodeSignup | tools/internal/models/requests.go:5-11 | a body decodes only as an object; an absent `full_name` gives the empty name; an object of strings decodes to the values under the five tags |
| AuthHandlers.DecodeAcceptInvite | tools/internal/models/requests.go:24-30 | a body decodes only as an object; an absent `full_name` gives the empty name; an object of strings decodes to the values under the five tags |
| AuthHandlers.Signup | tools/internal/handlers/auth.go:21-77 | each error path replies with its status and message and stores nothing; success appends the profile and answers 201 with the tokens and the profile |
| AuthHandlers.SignupRoles | tools/internal/handlers/auth.go:33-36 | an accepted sign-up has role landlord or tenant |
| AuthHandlers.Login | tools/internal/handlers/auth.go:80-123 | a missing body or field is a 400, rejected credentials a 401, and a failed profile read the 500 "Failed to fetch profile"; success answers 200 with the session's tokens and the caller's profile row, or the zero-valued profile when the row is missing |
| AuthHandlers.PendingInvite | tools/internal/handlers/auth.go:139 | the lookup finds a pending invitation with the token iff one exists |
| AuthHandlers.Occupied | tools/internal/handlers/auth.go:173-188 | the unit gets the tenant and status `occupied`, and every other field is kept |
| AuthHandlers.Accepted | tools/internal/handlers/auth.go:190-193 | the invitation's status becomes `accepted`, and every other field is kept |
| AuthHandlers.AcceptInvite | tools/internal/handlers/auth.go:126-209 | a missing body or field is a 400, a failed lookup the 500 "Failed to lookup invitation", no pending invitation the 404, and a refused sign-up the 400 "Signup failed: " with the message; each refusal changes nothing; success creates the tenant profile, occupies the invited unit and accepts the invitation, each write happening only if it succeeds, and answers 201 |
| AuthHandlers.AcceptanceTransition | tools/internal/handlers/auth.go:173-193 | after the writes, only the invited unit changes (occupied by the tenant) and only the invitation changes (accepted, no longer pending) |
| AuthHandlers.AcceptOnce | tools/internal/handlers/auth.go:139-156 | once accepted, the same token finds no pending invitation, so it cannot be accepted twice |
| Buildings.ListBuildings | tools/internal/handlers/buildings.go:22-38 | a failed query is a 500; otherwise exactly the caller's buildings, newest first |
| Buildings.GetBuilding | tools/internal/handlers/buildings.go:41-63 | a 404 iff the caller owns no building with that id; with no read failure, a building found is answered with 200 and that row |
| Buildings.CreateBuilding | tools/internal/handlers/buildings.go:66-102 | each refusal stores nothing; success appends the caller's new building and answers 201 with it |
| Buildings.CreatedListedFirst | tools/internal/handlers/buildings.go:25-88 | a building just created heads its landlord's list |
| Buildings.PatchOf | tools/internal/handlers/buildings.go:115-127 | the patch holds exactly the fields the request carries, with their values |
| Buildings.BuildPatch | tools/internal/handlers/buildings.go:115-127 | the field-by-field assignments build that patch |
| Buildings.EmptyPatch | tools/internal/handlers/buildings.go:129-132 | the patch is empty iff the request names no field |
| Buildings.Patched | tools/internal/handlers/buildings.go:134 | patching never changes a building's id, owner or creation time |
| Buildings.PatchSemantics | tools/internal/handlers/buildings.go:115-134 | the request's fields replace the row's, and absent fields keep their value |
| Buildings.UpdateBuilding | tools/internal/handlers/buildings.go:105-153 | an empty patch is a 400; otherwise exactly the caller's building with that id is patched, a 404 iff there is none, and a found building is answered with 200 and the patched row |
| Buildings.ListUnits | tools/internal/handlers/buildings.go:156-189 | the units are listed iff the caller owns the building and neither read fails; a failed unit read is the 500 "Failed to fetch units"; the list is all of that building's units, ordered by unit number |
| Buildings.CreateUnit | tools/internal/handlers/buildings.go:192-239 | a missing body or field is a 400; a unit is added only to a building the caller owns (403 otherwise), vacant and without a tenant; a failed insert is the 500 "Failed to create unit: " with the database message, and stores nothing |
| Invitations.HexDigit | tools/internal/handlers/invitations.go:144 | a nibble is written as a lower-case hexadecimal digit |
| Invitations.HexValue | tools/internal/handlers/invitations.go:144 | a character has a value iff it is a lower-case digit, and that value writes back as the character |
| Invitations.DigitRoundTrip | tools/internal/handlers/invitations.go:144 | reading back a written digit gives its nibble |
| Invitations.HexEncode | tools/internal/handlers/invitations.go:144 | two lower-case hexadecimal digits per byte |
| Invitations.HexDecode | tools/internal/handlers/invitations.go:144 | a decoded text has half as many bytes as characters |
| Invitations.DecodeEncode | tools/internal/handlers/invitations.go:144 | decoding an encoded token gives back its bytes |
| Invitations.EncodeInjective | tools/internal/handlers/invitations.go:141-145 | distinct random bytes give distinct tokens |
| Invitations.GenerateToken | tools/internal/handlers/invitations.go:141-145 | a token is 32 lower-case hexadecimal digits that decode to the 16 random bytes |
| Invitations.OwnerOf | tools/internal/handlers/invitations.go:39-61 | the joined building's landlord exists iff a building has that id |
| Invitations.JoinedUnit | tools/internal/handlers/invitations.go:39-61 | the unit found has that id and a building; none is found iff no such unit has one |
| Invitations.UnitRefusal | tools/internal/handlers/invitations.go:39-61 | a refusal is either the 403 for a unit outside the caller's buildings or the 400 for an occupied unit |
| Invitations.RefusalMeans | tools/internal/handlers/invitations.go:39-61 | an invitation is allowed iff the unit has a building, the caller owns it, and the unit is not occupied |
| Invitations.SendInvite | tools/internal/handlers/invitations.go:24-92 | a missing body or field is a 400, a failed unit read the 500 "Failed to verify unit", a unit not owned or occupied its 403 or 400, and a failed insert the 500 "Failed to create invitation: " with the database message; each refusal stores nothing; success appends a pending invitation with a fresh token and answers 201 with it |
| Invitations.GetInviteByToken | tools/internal/handlers/invitations.go:95-120 | an empty token is a 400; a 200 returns a pending invitation with that token |
| Invitations.PageShowsAcceptedInvite | tools/internal/handlers/invitations.go:104 | the verification page shows exactly the invitation that accepting the same token consumes |
| Invitations.SentInviteIsShown | tools/internal/handlers/invitations.go:64-104 | a freshly sent invitation is what its token shows, when no other pending one shares the token |
| Invitations.ListInvitations | tools/internal/handlers/invitations.go:123-139 | exactly the caller's invitations, each as often as in the table, newest first |
| Maintenance.PriorityOf | tools/internal/handlers/maintenance.go:59-62 | the stored priority is the given one, or a non-empty default |
| Maintenance.TenantUnit | tools/internal/handlers/maintenance.go:42-52 | a unit found is assigned to the caller; none is found iff no unit is |
| Maintenance.FileRequest | tools/internal/handlers/maintenance.go:22-83 | a missing body or field is a 400, a failed unit read a 500, no assigned unit a 404, and a failed insert the 500 "Failed to create request: " with the database message; each refusal stores nothing; success appends an open request against the caller's unit and its building, and answers 201 |
| Maintenance.RequestsListing | tools/internal/handlers/maintenance.go:86-124 | as written: a tenant sees their requests; anyone else sees the requests of their buildings, or every request when no building id was read; each listed request appears as often as in the table, newest first |
| Maintenance.ListRequests | tools/internal/handlers/maintenance.go:86-124 | the handler with its id-collecting loop answers the listing function |
| Maintenance.TenantSeesOwnRequests | tools/internal/handlers/maintenance.go:92-93 | a tenant sees exactly their own requests |
| Maintenance.LandlordSeesOwnBuildings | tools/internal/handlers/maintenance.go:94-107 | a landlord who owns a building sees exactly the requests of their buildings |
| Maintenance.NoBuildingsSeesAll | tools/internal/handlers/maintenance.go:102-108 | as written, a landlord with no building read sees every request |
| Maintenance.NoBuildingsLeakExample | tools/internal/handlers/maintenance.go:102-108 | a landlord owning nothing is shown the request filed in another landlord's building |
| Maintenance.ScopedRequestsListing | tools/internal/handlers/maintenance.go:94-108 | corrected: a non-tenant sees only requests of buildings whose ids were read |
| Maintenance.ScopedSeesOnlyOwn | tools/internal/handlers/maintenance.go:94-108 | corrected: a non-tenant never sees a request outside their buildings, whatever fails |
| Maintenance.ScopesAgree | tools/internal/handlers/maintenance.go:102-108 | the corrected and the as-written listings agree whenever the landlord owns a building and its read succeeds |
| Maintenance.FiledRequestListedFirst | tools/internal/handlers/maintenance.go:69-93 | a request just filed heads its tenant's list |
| Maintenance.Owned | tools/internal/handlers/maintenance.go:144-158 | the ownership check passes iff the caller owns the request's building |
| Maintenance.UpdateRequestStatus | tools/internal/handlers/maintenance.go:127-178 | a missing request is a 404; a request of a building the caller does not own, or whose ownership read fails, is the 403 "Not your building"; a failed update is the 500 "Failed to update request"; the status changes only when the caller owns the building, and only for that request id |
| Maintenance.StatusUpdateEffect | tools/internal/handlers/maintenance.go:160-168 | the update changes the status of the rows with that id and nothing else |
| Payments.AssignedUnit | tools/internal/handlers/payments.go:37-55 | the unit charged has that id and is assigned to the caller; none iff no such unit |
| Payments.InitializePayment | tools/internal/handlers/payments.go:22-93 | a missing body or field is a 400, a failed unit read a 500, a unit not assigned to the caller a 404, and a failed insert the 500 "Failed to create payment record"; each refusal stores nothing; success appends a pending NGN payment of the unit's rent and answers 201 with its reference |
| Payments.PaystackWebhook | tools/internal/handlers/payments.go:96-108 | a body that decodes as a JSON object or `null` gets 200, anything else 400 |
| Payments.PaymentsListing | tools/internal/handlers/payments.go:111-159 | as written: role scope, then the optional status and building filters, newest first, with every payment when no building id was read; each listed payment appears as often as in the table |
| Payments.ListPayments | tools/internal/handlers/payments.go:111-159 | the handler with its id-collecting loop answers the listing function |
| Payments.FiltersNarrow | tools/internal/handlers/payments.go:138-144 | a filtered listing is the unfiltered one with the filters applied |
| Payments.TenantSeesOwnPayments | tools/internal/handlers/payments.go:117-118 | a tenant sees only their own payments, whatever the filters |
| Payments.NoBuildingsSeesAllPayments | tools/internal/handlers/payments.go:128-135 | as written, a landlord with no building read sees every payment passing the filters |
| Payments.ScopedPaymentsListing | tools/internal/handlers/payments.go:119-144 | corrected: a non-tenant sees only payments of buildings whose ids were read |
| Payments.ScopedSeesOnlyOwnPayments | tools/internal/handlers/payments.go:119-144 | corrected: a non-tenant never sees a payment outside their buildings |
| Payments.PaymentScopesAgree | tools/internal/handlers/payments.go:128-135 | the corrected and the as-written listings agree whenever the landlord owns a building and its read succeeds |
| Payments.StartedPaymentListedFirst | tools/internal/handlers/payments.go:70-140 | a payment just started heads its tenant's `pending` listing |
| Dashboard.TotalAppend | tools/internal/handlers/dashboard.go:57-63 | a sum over two parts is the sum of the parts |
| Dashboard.TotalPermutation | tools/internal/handlers/dashboard.go:57-63 | a sum does not depend on the order of the rows |
| Dashboard.TotalMonotone | tools/internal/handlers/dashboard.go:57-63 | a pointwise larger weight gives a larger sum |
| Dashboard.TotalLinear | tools/internal/handlers/dashboard.go:57-63 | a sum over a weight that splits into two parts is the sum of the two parts |
| Dashboard.TotalFilter | tools/internal/handlers/dashboard.go:57-63 | summing over the selected rows is summing a weight that is zero on the others |
| Dashboard.CountAllIsLength | tools/internal/handlers/dashboard.go:39 | counting one per row is the length |
| Dashboard.TotalZero | tools/internal/handlers/dashboard.go:57-63 | a weight that is zero on every row sums to zero |
| Dashboard.Reads | tools/internal/handlers/dashboard.go:33-34 | there is one read per building |
| Dashboard.SumTotalsMonotone | tools/internal/handlers/dashboard.go:33-63 | a pointwise larger weight never lowers the sum over all reads |
| Dashboard.ReadsAreTotal | tools/internal/handlers/dashboard.go:33-63 | when every per-building read succeeds, summing the reads sums each row of those buildings once |
| Dashboard.BuildingsRead | tools/internal/handlers/dashboard.go:26-28 | a failed read gives no buildings; otherwise exactly the caller's |
| Dashboard.OwnedDistinct | tools/internal/handlers/dashboard.go:26 | the caller's buildings have distinct ids when the table's ids are distinct |
| Dashboard.RecentPayments | tools/internal/handlers/dashboard.go:67 | at most five successful payments, newest first; a successful payment left out means five are shown, each at least as new as it |
| Dashboard.RecentCount | tools/internal/handlers/dashboard.go:67 | the recent list holds min(5, n) of the n successful payments |
| Dashboard.LandlordRecent | tools/internal/handlers/dashboard.go:67 | a failed read gives no recent payments |
| Dashboard.LandlordView | tools/internal/handlers/dashboard.go:22-85 | the building count is the number of buildings returned, which are the caller's, and 0 <= occupied <= total units |
| Dashboard.CountUnits | tools/internal/handlers/dashboard.go:39-44 | the loop counts every unit and the occupied ones |
| Dashboard.SumPayments | tools/internal/handlers/dashboard.go:57-63 | the loop sums successful amounts into collected and pending amounts into pending |
| Dashboard.SumUnitReads | tools/internal/handlers/dashboard.go:33-45 | the building loop adds up the unit counts of every read |
| Dashboard.SumPaymentReads | tools/internal/handlers/dashboard.go:50-64 | the building loop adds up the payment sums of every read |
| Dashboard.LandlordDashboard | tools/internal/handlers/dashboard.go:22-85 | the handler with its loops answers the dashboard function |
| Dashboard.LandlordFigures | tools/internal/handlers/dashboard.go:31-64 | without failures, the unit figures count each unit of the caller's buildings once, and the money figures sum each successful (pending) payment of those buildings once |
| Dashboard.RecentIgnoresOwner | tools/internal/handlers/dashboard.go:67 | as written, another landlord's successful payment appears in the caller's recent payments |
| Dashboard.SuccessfulIn | tools/internal/handlers/dashboard.go:67 | exactly the successful payments of the given buildings, newest first |
| Dashboard.ScopedRecentPayments | tools/internal/handlers/dashboard.go:67 | corrected: at most five successful payments, each of one of the caller's buildings, newest first; a successful payment of those buildings left out means five are shown, each at least as new as it |
| Dashboard.UnitPayments | tools/internal/handlers/dashboard.go:127 | the caller's payments for the unit, newest first, or none when the read fails |
| Dashboard.TenantDashboard | tools/internal/handlers/dashboard.go:88-155 | a 404 iff no profile is read; no unit gives the no-unit view; otherwise the unit, its building, the successful total, the newest payment and the rent |
| Dashboard.TotalPaidIsPaidBy | tools/internal/handlers/dashboard.go:131-137 | the total shown counts each successful payment of the tenant for the unit exactly once |
| Dashboard.LastPaymentIsNewest | tools/internal/handlers/dashboard.go:138-140 | the last payment shown is one of the tenant's payments for the unit, and none of them is newer |
| Dashboard.StartedPaymentAddsNothing | tools/internal/handlers/payments.go:60-74 | starting a payment records it as pending, which adds nothing to the tenant's total paid |
| Documents.UploadDocument | tools/internal/handlers/documents.go:22-66 | each refusal stores nothing; success appends the caller's document with the file URL and answers 201 with it |
| Documents.ListedUnit | tools/internal/handlers/documents.go:75-88 | a failed unit read gives no unit; otherwise the caller's assigned unit |
| Documents.ListDocuments | tools/internal/handlers/documents.go:69-106 | a tenant without a unit gets an empty list; a tenant sees their unit's documents and anyone else what they uploaded, newest first |
| Documents.DocumentRows | tools/internal/handlers/documents.go:73-91 | the scoped query returns exactly the visible documents, each as often as in the table, newest first |
| Documents.TenantSeesUnitDocuments | tools/internal/handlers/documents.go:75-88 | a tenant sees every document of their unit, whoever uploaded it, and nothing else |
| Documents.UploaderSeesOwnDocuments | tools/internal/handlers/documents.go:89-91 | a non-tenant sees exactly what they uploaded |
| Documents.UploadedListedFirst | tools/internal/handlers/documents.go:52-91 | a document just recorded heads its uploader's listing |
| Documents.UploadReachesTenant | tools/internal/handlers/documents.go:52-88 | a document recorded against a tenant's unit is in that tenant's listing |

## Left out

Scope:
- The DOM rendering of every page is not modelled: markup, `showPage`/`showView`, toasts and form reading. Only the values the pages compute and the fields they keep are.
- `formatMoney`, `formatDate`, `getCurrentPeriod`, `showLoading` and `toast` are not modelled. They depend on locale formatting and the clock. `timeAgo` takes the elapsed seconds as a parameter and its date text as an argument.
- The page controllers that only fetch and render are not modelled. That is everything in `web/js/pages.js` other than the auth page state, the building id, the payments cache and filter, the occupancy and status cells, and the route registrations.

Runtime and external services:
- `fetch`, `res.json()`, `JSON.stringify`/`JSON.parse`, `localStorage` and the `hashchange` listener are not modelled:
  - the outcome of `fetch` and `res.json()` is a parameter;
  - storage is the fields of `Auth.Session`;
  - `router.init` is not modelled.
- Supabase Auth and PostgREST are not modelled:
  - sign-up and sign-in answers and the identity lookup are parameters;
  - query results are computed from the `Store` tables;
  - joins (`profiles!…`, `buildings(name)`, `units(unit_number)`) are not modelled and rows come back without the embedded fields;
  - row-level security is not modelled.
- `tools/internal/handlers/helpers.go` is not modelled: `respondJSON`, `respondError` and the path-parameter plumbing. Ids arrive as parameters and replies are `Reply` values. `tools/cmd/server/main.go` is not part of this model either: the mux, the `/api/v1` prefix and which middleware wraps which route.
- Paystack is not modelled. The authorization URL is always empty and the payment id is the reference, as in the handler.
- The webhook stores nothing, so a started payment stays `pending`.
- Randomness (`crypto/rand`), the clock and new row ids are parameters. `created_at` is the store's counter.

Data representation:
- `updated_at` columns, `file_size` and the `amount_naira` float are not modelled.
- Nullable building and unit ids on documents and requests are modelled as `""`.
- The `units.status` column default is the constant `vacant`.
- Asynchronous interleavings are not modelled: two `navigate` calls in flight at once, and concurrent requests against the same rows.

Weakened or narrowed contracts:
- Router.RouteTable.Navigate: a hash that matches nothing while signed out re-enters `navigate('')`, which in this application always reaches the landing route. A table without a `''` route would recurse forever, which is modelled as the outcome `Diverges` rather than run.
- Query.ParseQuery: `URLSearchParams` percent-decoding and `+`-as-space are not modelled, so keys and values are the raw text.
- Api.EncodeURIComponent: characters are Unicode scalar values, so the lone-surrogate `URIError` cannot arise; strings are not UTF-16 code units.
- Utils.OccupancyPercent: `Math.round` of a quotient is modelled on integers as round-half-up of `occupied * 100 / total`; floating-point error on exact halves is not modelled.
- Utils.StatusBadge, Utils.PriorityBadge: the lookup keys are only the keys of the literal table, so inherited `Object.prototype` names such as `toString` are not modelled.
- Common.Upper: only ASCII letters are upper-cased, whereas `toUpperCase` covers all of Unicode.
- Dashboard.LandlordView: the dashboard ignores every database error. A failed read is modelled as a read that returns no rows.
- Dashboard.LandlordView, Dashboard.TenantDashboard: sums are unbounded integers, so `int64` overflow of the totals is not modelled.
- Dashboard.TenantDashboard: the embedded building is looked up by the unit's `building_id` in the buildings table, rather than decoded from the join.
- Auth.Session.Save: the client never calls `auth.save`, because the sign-in form at `web/js/pages.js:105-128` only calls `api.signup`/`api.login`. The operation is modelled, but no page reaches it.
- Api.Prepare: `API_BASE` is the page origin followed by `/api`, while the server routes sit under `/api/v1`. The URL is modelled as the client builds it.
- Router.HashQueryParams: `navigate` keeps only the text between the first and second `?` as the query. `getHashParams` keeps everything after the first `?`. Both behaviours are modelled as written.
- Tables.LexLe: unit numbers are ordered by character code, not by the database collation.
- Router.Patterns: `Object.entries` lists array-index keys such as `"12"` first, in numeric order, before the others in insertion order. Patterns gives insertion order, which agrees only when no key is an array index. Pages.PageRoutesInOrder shows that no pattern this application registers is one.
- Utils.FirstLetters: `w[0]` is a UTF-16 code unit, so a word starting with a character outside the Basic Multilingual Plane yields half a surrogate pair; the model takes the whole Unicode scalar value.
- Utils.GetInitialsShape: `w[0]` and `.slice(0, 2)` count UTF-16 code units; the model counts Unicode scalar values, so a name starting with an astral character is not split mid-pair.
- Pages.TruncateDescription: `.length` and `.slice(0, 50)` count UTF-16 code units; the model counts Unicode scalar values, so the cut point differs for text with astral characters and never splits a surrogate pair.
- AuthHandlers.DecodeSignup, AuthHandlers.DecodeAcceptInvite: `encoding/json` also matches keys case-insensitively, and rejects malformed text and trailing data. The model matches keys exactly and starts from parsed JSON.

## Findings

| source | as written | input that shows it | evidently intended | confidence | as-written member | corrected member |
|---|---|---|---|---|---|---|
| tools/internal/handlers/maintenance.go:102-108 | `In("building_id", ids)` is added only when the caller has buildings, so a non-tenant with no buildings, or whose building read failed, runs the unscoped query | landlord `bob` owning nothing, with one request filed in building `b1` of landlord `alice`: `bob` is shown it | a non-tenant sees only requests of buildings they own, so none when they own none | high, not executed | Maintenance.NoBuildingsLeakExample | Maintenance.ScopedSeesOnlyOwn |
| tools/internal/handlers/payments.go:128-135 | the same guard in the payment listing: with no building ids read, the landlord query is unscoped | a landlord with no buildings and any other landlord's payment in the table: the payment is listed | a non-tenant sees only payments of buildings they own | high, not executed | Payments.NoBuildingsSeesAllPayments | Payments.ScopedSeesOnlyOwnPayments |
| tools/internal/handlers/dashboard.go:67 | the recent-payments query filters only on `status = successful`, with no building or landlord scope, unlike every other figure of the same dashboard | a successful payment in another landlord's building appears in the caller's `recent_payments` | the five newest successful payments of the caller's own buildings | high, not executed | Dashboard.RecentIgnoresOwner | Dashboard.ScopedRecentPayments |
| web/js/pages.js:114 | the sign-up form sends the name under `name`, while `SignupRequest` reads it from `full_name` (tools/internal/models/requests.go:8) and ignores unknown keys | any filled-in form, such as `{email: "a@b.ng", password: "pw", name: "Ada", role: "landlord"}`: the name decodes as "" and the reply is the 400 "Email, password, full_name, and role are required" | the form sends `full_name`, so a filled-in form for either role passes the field checks | high, not executed | Pages.SignupNameLost | Pages.CorrectedSignupDecodes |
| web/js/pages.js:683 | the acceptance form sends the name under `name`, while `AcceptInviteRequest` reads it from `full_name` (tools/internal/models/requests.go:26) | any filled-in acceptance, such as `{token: "t", name: "Ada", email: "a@b.ng", phone: "", password: "pw"}`: the name decodes as "" and `AcceptInvite` answers the 400 "Token, email, password, and full_name are required" | the form sends `full_name`, so every field arrives as typed | high, not executed | Pages.AcceptNameLost | Pages.CorrectedAcceptDecodes |
