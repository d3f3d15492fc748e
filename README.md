# User dashboard: store, filter and role histogram

A Dafny model of the logic in a small single-page user dashboard. The
dashboard keeps users in memory, shows them in a filterable table, and draws
a pie chart of how many users hold each role. Its two logic-bearing pieces
are modelled here:

- **The user store** (`UserService`). It holds the current snapshot of the
  user list and an id counter that starts at 1. `addUser` gives the new
  record the counter's value, increments the counter and appends the record.
  `updateUser` maps over the list and replaces the name, email and role of
  every record whose id matches. Every call replaces the snapshot as a whole.
  The snapshot is what the store broadcasts.
  - `Services` states each call as a transition on values: `StoreState`,
    `Add` and `Update`. It proves the store's invariant over every sequence
    of calls (`Run`).
  - The class `Services.UserService` carries the two fields and proves that
    its methods perform exactly those transitions.
- **The dashboard component**:
  - the table's filter predicate, which matches case-insensitively against
    name, email and role;
  - `applyFilter`, which stores the filter trimmed and lower-cased;
  - the role histogram behind the chart, a counting loop over the users that
    emits the counts in the order Admin, Editor, Viewer;
  - the dispatch of a submitted form, which calls `updateUser` when a user
    was being edited and `addUser` otherwise.

  `Dashboard` holds the pure parts as functions and lemmas. The class
  `Dashboard.UserDashboard` holds the component's fields: the table's rows,
  its filter and the chart's dataset.

The user record type lives in a file that is not part of this model. From
its uses it is `{id, name, email, role}`, with the role one of `Admin`,
`Editor`, `Viewer` (`Models.User`, `Models.Role`). The store's parameter
type for `addUser` and `updateUser`, `Omit<User, 'id'>`, is
`Models.UserFields`: a record with no id field. The form's emitter is typed
`User`, but what it emits is the form's value, which has only the fields
name, email and role. So the spreads in `addUser` and `updateUser` never
overwrite an id.

The store's broadcast is modelled as the replacement of its `users` field.
The dashboard's subscription (the `tap` in `ngOnInit`) is the method
`UserDashboard.OnUsers`. In `OnFormResult` it runs right after the store
call, because a behaviour subject delivers its new value synchronously.

`Strings` gives the three JavaScript string operations the filter uses:
`trim`, `toLowerCase` and `includes`. It works over ASCII. Whitespace is the
space and U+0009 to U+000D. Lower-casing maps `A`–`Z` to `a`–`z`.

## Model

| member | source | states |
|---|---|---|
| Services.UserService.constructor | src/app/services/user.service.ts:8-11 | A new store has an empty snapshot and an id counter of 1, and satisfies the invariant. |
| Services.UserService.AddUser | src/app/services/user.service.ts:13-19 | The new snapshot is the old one with one record appended. That record carries the counter's old value as id and the supplied fields. The counter goes up by exactly 1, and the invariant is kept. |
| Services.UserService.UpdateUser | src/app/services/user.service.ts:21-26 | The new snapshot is the old one mapped through the per-record patch. The counter is unchanged, and the invariant is kept. |
| Services.Add | src/app/services/user.service.ts:13-19 | Adding grows the list by exactly one and leaves every earlier record unchanged and in order. The last record has the old counter as id and the supplied name, email and role. The counter is incremented by one. |
| Services.Patch | src/app/services/user.service.ts:23 | The per-record callback keeps the id. A record with the given id takes the supplied name, email and role. Any other record is returned as it is. |
| Services.Updated | src/app/services/user.service.ts:22-24 | Mapping an update keeps the length, the order and every record's id. Records whose id matches get the supplied name, email and role. Every other record is unchanged. |
| Services.Update | src/app/services/user.service.ts:21-26 | Updating never changes the id counter or the length of the list. |
| Services.UpdateAbsentIsNoOp | src/app/services/user.service.ts:22-25 | Updating an id that no record carries leaves the whole state equal to the previous one. |
| Services.AddKeepsIdsOrdered | src/app/services/user.service.ts:11-19 | Adding keeps ids strictly increasing in list order, at least 1 and below the counter. |
| Services.UpdateKeepsIdsOrdered | src/app/services/user.service.ts:21-26 | Updating keeps ids strictly increasing in list order, at least 1 and below the counter. |
| Services.IdsUnique | src/app/services/user.service.ts:11-26 | Under the invariant, no two records share an id, so an update touches at most one record. |
| Services.RunShape | src/app/services/user.service.ts:8-26 | Take any sequence of add and update calls on a fresh store. Afterwards the invariant holds, and the list has one record per add. The k-th record has id k+1, so no id is ever reused. The counter is one more than the number of adds. |
| Strings.LowerChar | src/app/user-dashboard/user-dashboard.component.ts:44-46 | A lower-cased character is never upper case. Whitespace stays whitespace, and only upper-case letters change. |
| Strings.ToLower | src/app/user-dashboard/user-dashboard.component.ts:42-46 | Lower-casing keeps the length, leaves no upper-case letter, and keeps every position's whitespace status. Every character that is not an upper-case letter comes out unchanged. |
| Strings.LowerIdempotent | src/app/user-dashboard/user-dashboard.component.ts:42-46 | Lower-casing twice is the same as lower-casing once. |
| Strings.TrimStart | src/app/user-dashboard/user-dashboard.component.ts:42 | The result is a suffix of the input. Everything removed is whitespace, and the result does not start with whitespace. |
| Strings.TrimEnd | src/app/user-dashboard/user-dashboard.component.ts:42 | The result is a prefix of the input. Everything removed is whitespace, and the result does not end with whitespace. |
| Strings.Trim | src/app/user-dashboard/user-dashboard.component.ts:42 | The result is a contiguous middle part of the input, and everything cut from either end is whitespace. The result neither starts nor ends with whitespace. |
| Strings.TrimBlank | src/app/user-dashboard/user-dashboard.component.ts:42 | Trimming yields the empty string exactly when the input is all whitespace. |
| Strings.TrimIdempotent | src/app/user-dashboard/user-dashboard.component.ts:42 | Trimming twice is the same as trimming once. |
| Strings.TrimStartLower | src/app/user-dashboard/user-dashboard.component.ts:42 | Removing leading whitespace commutes with lower-casing. |
| Strings.TrimEndLower | src/app/user-dashboard/user-dashboard.component.ts:42 | Removing trailing whitespace commutes with lower-casing. |
| Strings.TrimLowerCommute | src/app/user-dashboard/user-dashboard.component.ts:42 | Trimming then lower-casing gives the same string as lower-casing then trimming. |
| Strings.Normalize | src/app/user-dashboard/user-dashboard.component.ts:42-67 | The normalised filter is no longer than the input and holds no upper-case letter. It neither starts nor ends with whitespace, and it is empty exactly when the input is all whitespace. |
| Strings.NormalizeIdempotent | src/app/user-dashboard/user-dashboard.component.ts:42-67 | Trim plus lower-case, applied twice, gives the same string as applied once. |
| Strings.NormalizeIgnoresCase | src/app/user-dashboard/user-dashboard.component.ts:42 | Lower-casing a filter before normalising it changes nothing. |
| Strings.IncludesIff | src/app/user-dashboard/user-dashboard.component.ts:44-46 | The `includes` search holds exactly when the needle occurs at some position of the haystack (both directions). |
| Strings.Includes | src/app/user-dashboard/user-dashboard.component.ts:44-46 | Every string includes the empty string, and no string includes anything longer than itself. IncludesIff gives the full characterisation. |
| Strings.IncludesChars | src/app/user-dashboard/user-dashboard.component.ts:44-46 | Every character of an included string occurs in the string that includes it. |
| Dashboard.FilterPredicate | src/app/user-dashboard/user-dashboard.component.ts:41-48 | A user passes the filter exactly when the trimmed, lower-cased filter occurs in the lower-cased name, email or role (both directions). |
| Dashboard.BlankFilterMatchesAll | src/app/user-dashboard/user-dashboard.component.ts:41-48 | An empty filter, or one made only of whitespace, matches every user. |
| Dashboard.StoredFilterSameEffect | src/app/user-dashboard/user-dashboard.component.ts:41-68 | `applyFilter` stores the normalised text, and the predicate normalises it again. That gives the same verdict as normalising the raw input once. |
| Dashboard.FilterIgnoresCase | src/app/user-dashboard/user-dashboard.component.ts:41-48 | The predicate gives the same verdict for a filter and for its lower-cased form. |
| Dashboard.CountRole | src/app/user-dashboard/user-dashboard.component.ts:104-110 | A bucket's count is never more than the number of users. |
| Dashboard.RoleCounts | src/app/user-dashboard/user-dashboard.component.ts:112-116 | The chart's dataset has exactly three entries. They are the multiplicities of Admin, Editor and Viewer among the users' roles, in that order, and they sum to the number of users. |
| Dashboard.CountRoleIsMultiplicity | src/app/user-dashboard/user-dashboard.component.ts:104-110 | Each bucket equals the number of users with that role, counted as the multiplicity of the role in the multiset of the users' roles. |
| Dashboard.BucketsSumToTotal | src/app/user-dashboard/user-dashboard.component.ts:104-110 | The Admin, Editor and Viewer buckets sum to the number of users. |
| Dashboard.ComputeChartData | src/app/user-dashboard/user-dashboard.component.ts:104-116 | The counting loop returns exactly the three counts in the order Admin, Editor, Viewer. They sum to the number of users. |
| Dashboard.ScenarioTwoAdds | src/app/services/user.service.ts:13-19 | Adding Ann (Admin) and then Bo (Editor) to a fresh store gives ids 1 and 2 and a histogram of [1, 1, 0]. |
| Dashboard.ScenarioUpdate | src/app/services/user.service.ts:13-26 | Take a fresh store, add Ann and Bo, then update user 1 to "Ann K." as Viewer. Only record 1 changes, the counter stays at 3, and the histogram shifts to [0, 1, 1]. |
| Dashboard.ScenarioFilterMatches | src/app/user-dashboard/user-dashboard.component.ts:41-48 | The filter "edit" matches Bo, through the role "Editor". |
| Dashboard.ScenarioFilterRejects | src/app/user-dashboard/user-dashboard.component.ts:41-48 | The filter "edit" matches none of the updated Ann's name, email or role. |
| Dashboard.UserDashboard.constructor | src/app/user-dashboard/user-dashboard.component.ts:40-59 | On start-up the table shows the store's current snapshot and the filter is empty. The chart holds the role counts, or no chart exists if the snapshot is empty. |
| Dashboard.UserDashboard.OnUsers | src/app/user-dashboard/user-dashboard.component.ts:50-56 | Every broadcast snapshot becomes the table's rows and is handed to the chart renderer. The filter is untouched. |
| Dashboard.UserDashboard.RenderChart | src/app/user-dashboard/user-dashboard.component.ts:95-119 | An empty list leaves the chart exactly as it was. Otherwise the chart's dataset becomes the role counts. |
| Dashboard.UserDashboard.ApplyFilter | src/app/user-dashboard/user-dashboard.component.ts:65-68 | The stored filter is the input's value, trimmed and lower-cased. |
| Dashboard.UserDashboard.OnFormResult | src/app/user-dashboard/user-dashboard.component.ts:81-88 | A form result makes exactly one store call: an update under the edited user's id when a user was being edited, an add otherwise. The table then shows the new snapshot and the chart its role counts. The filter is unchanged. |

## Left out

- The form component: its validity comes from Angular's `required` and `email` validators, whose rules are not part of this model. `OnFormResult` takes the emitted fields as already valid. The responsive column count and the teardown of its breakpoint subscription are left out too.
- Lazy loading of the form module and the chart library, module compilation, and opening and closing the dialog. These are framework calls.
- `renderChart`'s asynchrony (`await import`, `setTimeout`) and its early return when the canvas is not yet in the view. The chart is taken as updated at once with the snapshot's counts. Creating a chart and updating an existing one are merged, since both leave the dataset equal to the counts. Chart options, colours and in-place redraw are rendering only.
- The tooltip's percentage, `value / total * 100` rounded to one decimal, because it is floating-point formatting.
- Pagination, and the running of the predicate across rows, which the table data source and paginator do internally. The model gives the predicate per user.
- Subscribers, replay and `shareReplay`: only the snapshot value is modelled.
- Strings.Trim: covers ASCII whitespace only. JavaScript's `trim` also removes non-ASCII spaces and line separators, and those are not modelled.
- Strings.ToLower: maps only ASCII letters. JavaScript's `toLowerCase` also maps non-ASCII letters, and those are not modelled.
- Services.UserService.AddUser: the id counter is an unbounded integer. The source's number type loses precision above 2^53, and that is not modelled.
