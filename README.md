# Risk-context and user list screens

This project models the list-screen cycle of two Angular pages of a risk
management admin front end. The first is the risk-context ("konteks") page,
`KonteksComponent`. The second is the user page, `UsersComponent`. Each page
holds:

- its filter fields, with their `'ALL'` and empty-string sentinels;
- `page` and `limit`;
- the displayed list and the server's pagination record;
- on the konteks page, the three summary counts and the edit modal.

Each page issues a `GET` list request and applies the outcome.

The pages are classes (`Konteks.KonteksComponent`, `Users.UsersComponent`)
whose methods update their fields in place. An HTTP exchange is split into two
calls, as it is in the browser:

- A method that issues a request returns it (`Request`, `PatchRequest`). A
  request is the query parameters plus the bearer token.
- The caller later passes the response or the error status to a `Handle...`
  method.

The value-level logic lives in modules of functions and lemmas:

- `KonteksModel`: the client-side filter, summary counts, year dropdown, edit
  draft, validation rules, PATCH payload and in-place merge.
- `UsersModel`: the users query string and the role dropdown.
- Shared modules:
  - `Text`: JavaScript `trim`, ASCII `toLowerCase` and `includes`.
  - `Decimal`: `String(n)` for natural numbers.
  - `Http`: `HttpParams`, tokens and fetch error messages.
  - `Ordering`: sorting a set.

Browser storage is a `TokenStore` parameter. An HTTP status is a `nat`, where
0 stands for an error that carries no status.

Two places where the code does less than a reader might expect:

- **Konteks list query.** The konteks `buildParams` sends only `page` and
  `limit`. Its filter parameters are commented out
  (`konteks.component.ts:162-169`). The filters act only on the client, through
  `applyClientFilters`, and the model follows that.
- **Save validation.** `saveEditKonteks` checks, in this order: name, code,
  code shape, both periods, period order, matrix size, appetite level, and
  then the presence of a token. It makes no email or role checks, and the
  model has exactly these eight rules.

## Model

| member | source | states |
|---|---|---|
| Konteks.KonteksComponent.constructor | src/app/features/auth/pages/konteks/konteks.component.ts:87-130 | Initial state: not loading, no error, empty list, no pagination, every filter at its default, year options `['ALL']`, page 1, limit 10, modal closed, draft with matrix size 5 and level LOW |
| Konteks.KonteksComponent.BuildParams | src/app/features/auth/pages/konteks/konteks.component.ts:155-172 | Page becomes 1 when `resetPage`, is unchanged otherwise; the query holds `page` and `limit` as decimal numerals and no other key |
| Konteks.KonteksComponent.Fetch | src/app/features/auth/pages/konteks/konteks.component.ts:269-277 | Sets loading and clears the error; the request carries the list query and the token from `accessToken`, falling back to `access_token` |
| Konteks.KonteksComponent.BuildPeriodeOptionsFromData | src/app/features/auth/pages/konteks/konteks.component.ts:191-199 | The year options are `ALL` followed by strictly ascending years, exactly the period bounds of the items |
| Konteks.KonteksComponent.RefreshStatsClient | src/app/features/auth/pages/konteks/konteks.component.ts:230-234 | The three counts become the length, active count and inactive count of the list |
| Konteks.KonteksComponent.HandleFetchSuccess | src/app/features/auth/pages/konteks/konteks.component.ts:279-299 | Items are the client-side filter of `data ?? []`, year options are built from the raw data, counts are those of the items, pagination is the response's, loading ends |
| Konteks.KonteksComponent.HandleFetchError | src/app/features/auth/pages/konteks/konteks.component.ts:300-317 | Items empty, pagination null, all counts 0, loading ends, and the message is the 401 text or the generic text with the status |
| Konteks.KonteksComponent.ApplyFilters | src/app/features/auth/pages/konteks/konteks.component.ts:321-323 | Refetches from page 1 |
| Konteks.KonteksComponent.ClearFilters | src/app/features/auth/pages/konteks/konteks.component.ts:326-331 | All six filters are back at their defaults |
| Konteks.KonteksComponent.ResetFilters | src/app/features/auth/pages/konteks/konteks.component.ts:325-333 | All six filters at their defaults and a refetch from page 1 |
| Konteks.KonteksComponent.PrevPage | src/app/features/auth/pages/konteks/konteks.component.ts:336-340 | Without `hasPrevPage` nothing changes and no request is issued; otherwise the page goes down by one but never below 1, and the list is refetched |
| Konteks.KonteksComponent.NextPage | src/app/features/auth/pages/konteks/konteks.component.ts:342-346 | Without `hasNextPage` nothing changes and no request is issued; otherwise the page goes up by exactly one, and the list is refetched |
| Konteks.KonteksComponent.EditKonteks | src/app/features/auth/pages/konteks/konteks.component.ts:349-366 | Clears the edit error, copies the item into the draft and opens the modal |
| Konteks.KonteksComponent.CloseEditModal | src/app/features/auth/pages/konteks/konteks.component.ts:368-371 | Closes the modal and clears the edit error |
| Konteks.KonteksComponent.SaveEditKonteks | src/app/features/auth/pages/konteks/konteks.component.ts:378-436 | When a rule fails: its message is shown, no request is sent and loading is untouched. When every rule holds: a token is present, loading starts and the PATCH carries the draft's id and the trimmed payload |
| Konteks.KonteksComponent.HandlePatchSuccess | src/app/features/auth/pages/konteks/konteks.component.ts:441-457 | Items become the merge of the payload into the items with the draft's id, counts are recomputed, loading ends, the modal closes |
| Konteks.KonteksComponent.HandlePatchError | src/app/features/auth/pages/konteks/konteks.component.ts:458-463 | Loading ends and the edit error is the server's `errors`, else its `message`, else the default text; it is never empty and the modal stays open |
| Http.BearerToken | src/app/features/auth/pages/konteks/konteks.component.ts:143-152 | A token is returned exactly when one of the two stored values is non-empty; the primary wins, and the result is never empty |
| Http.SetParam | src/app/features/auth/pages/users/users.component.ts:85-87 | After `set(key, v)` the key reads `v`, every other key reads as before, and the key set gains `key` |
| Http.LookupIffKey | src/app/features/auth/pages/users/users.component.ts:82-106 | A key is in the query exactly when looking it up finds a value |
| Http.FetchErrorMessageSpec | src/app/features/auth/pages/konteks/konteks.component.ts:310-316 | The token message appears exactly for status 401; every other status gets the generic message |
| Http.FetchErrorCarriesStatus | src/app/features/auth/pages/konteks/konteks.component.ts:316 | The generic message holds the status as a numeral that parses back to it, or `unknown` when there is none |
| Decimal.ParseNatToString | src/app/features/auth/pages/konteks/konteks.component.ts:159-160 | `String(n)` parses back to `n` |
| Decimal.NatToStringInjective | src/app/features/auth/pages/konteks/konteks.component.ts:159-160 | Different page numbers give different numerals |
| Text.TrimSlice | src/app/features/auth/pages/konteks/konteks.component.ts:203-204 | `trim` returns a contiguous slice with only white space before and after it, which neither starts nor ends with white space |
| Text.TrimEmptyIffBlank | src/app/features/auth/pages/users/users.component.ts:90-91 | A string trims to empty exactly when it is all white space |
| Text.TrimIdempotent | src/app/features/auth/pages/users/users.component.ts:90-91 | Trimming twice is trimming once |
| Text.ContainsIffOccurs | src/app/features/auth/pages/konteks/konteks.component.ts:207-208 | `includes(q)` holds exactly when `q` occurs at some position |
| Ordering.StrLessIsStrictTotalOrder | src/app/features/auth/pages/users/users.component.ts:146 | The default string comparison used to sort roles is irreflexive, transitive and total |
| Ordering.SortSet | src/app/features/auth/pages/konteks/konteks.component.ts:197 | Lists a set in strictly ascending order, with exactly the set's elements, as many as the set has |
| KonteksModel.KeptIffMatches | src/app/features/auth/pages/konteks/konteks.component.ts:206-227 | The early-return predicate accepts an item exactly when every active filter is satisfied: case-insensitive substring on trimmed name and code, equal level and matrix size, the active flag, and the year inside the period |
| KonteksModel.FilterSoundComplete | src/app/features/auth/pages/konteks/konteks.component.ts:202-228 | An item is displayed iff it was fetched and satisfies every active filter |
| KonteksModel.FilterCounts | src/app/features/auth/pages/konteks/konteks.component.ts:206 | Each accepted item appears as often as in the input, each rejected one not at all |
| KonteksModel.FilterSubsequence | src/app/features/auth/pages/konteks/konteks.component.ts:206-227 | The displayed list picks the input's elements at strictly increasing positions, and those positions are exactly the accepted items |
| KonteksModel.FilterIdentity | src/app/features/auth/pages/konteks/konteks.component.ts:203-224 | With blank text queries and every selection at `ALL`, the filter returns its input unchanged |
| KonteksModel.StatsOfSpec | src/app/features/auth/pages/konteks/konteks.component.ts:230-234 | Total is the list length, active plus inactive equals total, and active equals total exactly when every item is active |
| KonteksModel.StatsOfActiveFilter | src/app/features/auth/pages/konteks/konteks.component.ts:218-219 | After filtering for ACTIVE no inactive item is counted, and after filtering for INACTIVE no active one |
| KonteksModel.BranchCount | src/app/features/auth/pages/konteks/konteks.component.ts:245 | A branch of the backend count reads `pagination.totalItems`, or 0 when the request failed or the pagination is missing |
| KonteksModel.BuildStatsParams | src/app/features/auth/pages/konteks/konteks.component.ts:175-189 | Always `page=1` and `limit=1`; `isActive` is sent exactly when an override is given, with its value |
| KonteksModel.YearsOfMembers | src/app/features/auth/pages/konteks/konteks.component.ts:192-196 | A year is collected exactly when some item has it as its start or end |
| KonteksModel.PeriodeOptionsOfSorted | src/app/features/auth/pages/konteks/konteks.component.ts:197-198 | `ALL` followed by the sorted distinct years is a valid year dropdown for the list |
| KonteksModel.EditModelFor | src/app/features/auth/pages/konteks/konteks.component.ts:352-363 | The draft copies the id, flag and periods, copies each present text field or uses `""` when it is missing, and copies a present matrix size and level or defaults them to 5 and LOW |
| KonteksModel.ValidCodeTrimmed | src/app/features/auth/pages/konteks/konteks.component.ts:373-376 | A valid code is non-blank, and validating the trimmed code agrees with validating the code |
| KonteksModel.FirstFailureSpec | src/app/features/auth/pages/konteks/konteks.component.ts:379-422 | No failure is reported exactly when every rule holds; otherwise the reported message is that of the earliest failing rule |
| KonteksModel.ValidateChain | src/app/features/auth/pages/konteks/konteks.component.ts:379-422 | Validation is the chain of early returns in the source's order, each with its own message |
| KonteksModel.BlankNameReportedFirst | src/app/features/auth/pages/konteks/konteks.component.ts:381-384 | A blank name is reported whatever else is wrong |
| KonteksModel.ValidatedPayload | src/app/features/auth/pages/konteks/konteks.component.ts:424-434 | A draft that passes validation yields a payload with a non-empty trimmed name, a valid trimmed code, ordered non-zero periods, matrix size 4 or 5 and a level |
| KonteksModel.MergePayload | src/app/features/auth/pages/konteks/konteks.component.ts:443-450 | Same length and ids; items with the id show every payload field; every other item is untouched |
| KonteksModel.MergeIdempotent | src/app/features/auth/pages/konteks/konteks.component.ts:443-450 | Merging the same payload twice equals merging it once |
| KonteksModel.EditUnchangedRoundTrip | src/app/features/auth/pages/konteks/konteks.component.ts:349-450 | Opening a complete, already trimmed item and saving the draft unchanged gives back the same item |
| KonteksModel.PatchErrorText | src/app/features/auth/pages/konteks/konteks.component.ts:460-461 | The PATCH error text is `errors`, else `message`, else the default, and is never empty |
| Users.UsersComponent.constructor | src/app/features/auth/pages/users/users.component.ts:49-67 | Initial state: not loading, no error, no users, no pagination, filters at their defaults, role options `['ALL']`, page 1, limit 10 |
| Users.UsersComponent.BuildParams | src/app/features/auth/pages/users/users.component.ts:82-106 | Page becomes 1 when `resetPage`, is unchanged otherwise; the query is the users query of the page, limit and filters |
| Users.UsersComponent.Fetch | src/app/features/auth/pages/users/users.component.ts:108-116 | Sets loading and clears the error; the request carries the users query and the token from `accessToken` only |
| Users.UsersComponent.BuildRoleOptions | src/app/features/auth/pages/users/users.component.ts:141-147 | Role options are `ALL` followed by strictly ascending roles, exactly those carried by some user |
| Users.UsersComponent.HandleFetchSuccess | src/app/features/auth/pages/users/users.component.ts:118-124 | Users are `data ?? []`, pagination is the response's, role options are rebuilt from the users, loading ends |
| Users.UsersComponent.HandleFetchError | src/app/features/auth/pages/users/users.component.ts:125-137 | Users empty, pagination null, loading ends, and the message is the 401 text or the generic text with the status |
| Users.UsersComponent.ApplyFilters | src/app/features/auth/pages/users/users.component.ts:150-152 | Refetches from page 1 with the current filters |
| Users.UsersComponent.ClearFilters | src/app/features/auth/pages/users/users.component.ts:155-159 | All five filters are back at their defaults |
| Users.UsersComponent.ResetFilters | src/app/features/auth/pages/users/users.component.ts:154-161 | All five filters at their defaults and a refetch from page 1 with the default query |
| Users.UsersComponent.PrevPage | src/app/features/auth/pages/users/users.component.ts:164-168 | Without `hasPrevPage` nothing changes and no request is issued; otherwise the page goes down by one but never below 1 |
| Users.UsersComponent.NextPage | src/app/features/auth/pages/users/users.component.ts:170-174 | Without `hasNextPage` nothing changes and no request is issued; otherwise the page goes up by exactly one |
| UsersModel.SetWhen | src/app/features/auth/pages/users/users.component.ts:90-103 | A conditional `set` changes only its own key, and only when there is a value |
| UsersModel.UsersQueryMeaning | src/app/features/auth/pages/users/users.component.ts:82-106 | The query holds page and limit as numerals, name and username trimmed and only when non-blank, role unless `ALL`, `isActive` and `isVerified` as `true`/`false` for the two non-sentinel choices, and no other key |
| UsersModel.DefaultSendsNoFilter | src/app/features/auth/pages/users/users.component.ts:90-103 | With every filter at its default no filter key is sent |
| UsersModel.DefaultQueryIsPagingOnly | src/app/features/auth/pages/users/users.component.ts:154-161 | After a reset the query holds exactly `page` and `limit` |
| UsersModel.BlankTextNotSent | src/app/features/auth/pages/users/users.component.ts:90-91 | `name` (`username`) is sent exactly when the filter is not all white space |
| UsersModel.SentTextIsTrimmed | src/app/features/auth/pages/users/users.component.ts:90-91 | The name and username sent carry no surrounding white space |
| UsersModel.RolesOfMembers | src/app/features/auth/pages/users/users.component.ts:142-145 | A role is collected exactly when some user on the page carries it |
| UsersModel.RoleOptionsOfSorted | src/app/features/auth/pages/users/users.component.ts:146 | `ALL` followed by the sorted distinct roles is a valid role dropdown for the users |
| UsersModel.RoleOptionsDistinct | src/app/features/auth/pages/users/users.component.ts:146 | No role is listed twice after the sentinel |
| UsersModel.RoleOptionsCount | src/app/features/auth/pages/users/users.component.ts:141-147 | The dropdown has one entry per distinct role, plus `ALL` |

## Left out

- HTTP transport: `HttpClient.get`/`patch`, `subscribe` and the `forkJoin` fan-out are not modelled. A response or an error status is an argument of a `Handle...` method. Two requests that race, where the last response wins, can be expressed by calling the handlers in any order. The model does not describe their timing.
- `refreshKonteksStatsFromBackend`: only its pure parts are modelled. `BuildStatsParams` builds the three count queries and `BranchCount` reads one branch's count, with a failed branch counting as 0. The `forkJoin` join is modelled only as `BranchCount` applied to each branch, and no member assigns the three results to the counts. Its call in the source is commented out, so no screen method issues the three count requests.
- `buildHeaders`: only the token choice is modelled (`BearerToken`). The `HttpHeaders` object and its `Content-Type` header are not.
- Browser storage is a `TokenStore` argument rather than a read of `localStorage`.
- `ngOnInit` is `Fetch(true, …)` and has no member of its own.
- `console.log` and `console.error` output is not modelled.
- `openKonteksDetail` (router navigation) is not modelled.
- `editUser` is not modelled; it only logs.
- `trackById`, `appetiteBadgeClass` and `matrixLabel` are view helpers used only by the templates and are not modelled. The templates themselves are not part of this model.
- `appetiteOptions` and `matrixOptions` are constant dropdown lists and are not modelled.
- Item fields that no modelled operation reads are dropped: `createdAt`, `updatedAt`, `createdBy`, `updatedBy` and `_count`. This also drops `email` and `isVerified` beyond their presence on `UserItem`.
- Text: `toLowerCase` maps ASCII letters only, because full Unicode case mapping is outside the model.
- Text: strings are sequences of characters. Role sorting compares characters, not UTF-16 code units, and the two orders differ only outside the Basic Multilingual Plane.
- JavaScript values: `null` and `undefined` are one `None`. `Number(null)` and `null <= y` read as 0. An `undefined` period, which would make the comparison false through `NaN`, is not distinguished.
- JavaScript values: a year option or a matrix size that is not a number is not representable. `String(k.matrixSize) !== String(this.fMatrixSize)` is integer equality on the selected value.
- JavaScript values: `e.error.errors` is taken to be a string or absent. A non-string truthy value, such as an array of messages, is not modelled.
- KonteksModel.EditModelFor: the `typeof … === 'number'` guard on the periods is the `Option` already present in the item, and `!!k.isActive` is the boolean itself.
- Users.UsersComponent.BuildParams: the two `isActive` ifs and the two `isVerified` ifs are folded into `ActiveParam` and `VerifiedParam`. They are equivalent because each pair's conditions exclude each other.
