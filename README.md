# Cap-table manager core, modelled in Dafny

This project models the logic at the centre of a token-issuance cap-table manager. The manager is a React front end on a hosted Postgres store. Two groups of its code are modelled.

**Referential-integrity bookkeeping.** The store holds projects, cap tables, cap-table investors, investors, subscriptions, token allocations, subscription invoices and events, redemptions, redemption approvers and investor-group links.
- `Store.Backend` is a class with one `map<Id, Row>` field per table. Every remote call is a method of it that takes a `fail` flag.
- A handler takes a failure oracle `faults: set<Call>`: a call fails exactly when it is in the set.
- A handler performs its steps in source order, and its `ensures` ties the new tables and the outcome to a specification function of the old tables (`Stage(db.State(), outcome) == …Spec(old(db.State()), …)`).
- Lemmas about those specification functions state:
  - when a handler completes;
  - what the tables are afterwards (no orphans, or which orphans remain);
  - what is and is not deleted when a given step fails;
  - which tables are never touched.

Three cascades are modelled separately because they differ:
- the project list screen (`ProjectsList`);
- the project library (`Projects`);
- the investor library (`Investors`).

**Activity-log and response helpers.**
- CSV export with field escaping, proved to round-trip through a record parser that follows section 2 of RFC 4180, with LF as the record separator.
- The activity monitor screen (`ActivityMonitor.Screen`): page ranges, client-side search, the page-count guess, option lists, the five-link page window, filters and status badges.
- The activity logger: the insert payload, and the conjunctive filter/limit query.
- The log-record helpers that bridge the two schema versions, and the snake_case to Title Case formatter.
- The all-or-nothing response wrapper.
- The key-presence type guards.

Modules: `Common` (Option, `||` defaults, filter), `Text` (ASCII lower-casing, substring search), `AuditLogs` (the `audit_logs` row), `Store`, `Projects`, `ProjectsList`, `Investors`, `Csv`, `ActivityLogHelpers`, `ActivityLogger`, `ActivityMonitor`, `SupabaseHelpers`, `TypeGuards`.

## Model

| member | source | states |
|---|---|---|
| ProjectsList.FilterProjects | src/components/projects/ProjectsList.tsx:153-169 | a project is shown iff its lower-cased name or description contains the lower-cased query and each select filter is unset, "all" or equal to the project's field; never more rows than the list |
| ProjectsList.FilterNothing | src/components/projects/ProjectsList.tsx:153-169 | with no query and no select filters the whole list is shown in order |
| ProjectsList.FilterKeepsOrder | src/components/projects/ProjectsList.tsx:153-169 | filtering keeps the list order: a matching project appended to the list is appended to the result |
| ProjectsList.ReplaceById | src/components/projects/ProjectsList.tsx:368-372 | the local list after an edit: same length, the entry with the edited id replaced in place, every other entry unchanged |
| ProjectsList.RemoveById | src/components/projects/ProjectsList.tsx:500-503 | the local list after a delete keeps exactly the entries whose id differs from the deleted one |
| ProjectsList.NewProjectRow | src/components/projects/ProjectsList.tsx:179-196 | the inserted project row: the form's name, the project type from the column field then the legacy field then "equity", description defaulting to "", status defaulting to "draft", and each of the nine optional columns (token symbol through tax id) kept when truthy and null otherwise |
| ProjectsList.AddDuplicateChangesNothing | src/components/projects/ProjectsList.tsx:200-216 | a create whose name already exists aborts before any insert and leaves every table as it was |
| ProjectsList.AddProjectCompletes | src/components/projects/ProjectsList.tsx:200-240 | create completes iff the name is free, the new keys are free and the name check, project insert and cap-table insert succeed; it then adds exactly the project and one cap table named "Cap Table - " + name pointing at it, and integrity is kept |
| ProjectsList.AddCompensates | src/components/projects/ProjectsList.tsx:242-257 | when the cap-table insert fails the create aborts with that error, no cap table is added, and the new project is deleted again unless that compensating delete fails |
| Store.PatchProject | src/components/projects/ProjectsList.tsx:292-295 | the row after the edit's update: the name and every column the submitted object carries take the submitted value, every other column keeps its stored value |
| Store.PatchProjectCases | src/components/projects/ProjectsList.tsx:326-331 | an update carrying every column writes exactly the submitted values, one carrying only the name changes only the name, and repeating an update changes nothing more |
| ProjectsList.EditKeepingNameSkipsChecks | src/components/projects/ProjectsList.tsx:305-323 | an edit that keeps the name issues neither the duplicate check nor the cap-table lookup or rename, and leaves cap tables untouched |
| ProjectsList.EditProjectCompletes | src/components/projects/ProjectsList.tsx:305-340 | an edit completes iff (when renaming) the duplicate check succeeds and finds no other project with the new name, and the update succeeds on an existing row |
| ProjectsList.Edited | src/components/projects/ProjectsList.tsx:326-331 | the update patches only the edited project's row: every other project and every other table is unchanged |
| ProjectsList.EditRenamesCapTable | src/components/projects/ProjectsList.tsx:340-366 | after a successful rename, the project row is patched, the cap table whose name is still "Cap Table - " + old name is renamed to "Cap Table - " + new name, and nothing else changes |
| ProjectsList.EditKeepsCapTables | src/components/projects/ProjectsList.tsx:340-366 | when no cap table qualifies for the rename, or the rename fails, only the project row changes, patched with the submitted columns |
| ProjectsList.EditAbortChangesNothing | src/components/projects/ProjectsList.tsx:305-340 | an aborted edit changes no table |
| ProjectsList.DeleteReadFailureChangesNothing | src/components/projects/ProjectsList.tsx:407-427 | a failed cap-table or subscription read aborts the delete before any deletion |
| ProjectsList.DeleteProjectCompletes | src/components/projects/ProjectsList.tsx:407-497 | the delete completes iff the project has at most one cap table and no call it issues fails |
| ProjectsList.DeleteProjectCallsFree | src/components/projects/ProjectsList.tsx:429-497 | the calls the delete issues: both reads and the project delete always; the allocation and subscription deletes only when the project has subscriptions; the member and cap-table deletes only when it has a cap table |
| ProjectsList.DeleteProjectCallsListed | src/components/projects/ProjectsList.tsx:429-497 | each of those calls is in the delete's call list under the same conditions |
| ProjectsList.SweepSubscriptionsClears | src/components/projects/ProjectsList.tsx:429-460 | the subscription step removes exactly the project's subscriptions and the allocations that point at them |
| ProjectsList.SweepCapTableClears | src/components/projects/ProjectsList.tsx:462-486 | the cap-table step removes exactly the project's cap table and its members |
| ProjectsList.DependantsStep | src/components/projects/ProjectsList.tsx:429-486 | when no dependant delete fails, the dependant steps complete with the subscriptions, allocations, cap table and members cleared |
| ProjectsList.DeleteProjectNoOrphans | src/components/projects/ProjectsList.tsx:429-497 | after a completed delete, the project, its subscriptions and its cap tables are gone, every remaining cap table, member, subscription, allocation, redemption, approver and group link points at an existing row, and investors, redemptions, approvers, group links, invoices and events are unchanged |
| ProjectsList.ClearedIsLinked | src/components/projects/ProjectsList.tsx:429-497 | the fully cascaded tables keep every link that the delete touches |
| ProjectsList.DeleteProjectOrphansInvoices | src/components/projects/ProjectsList.tsx:429-497 | this cascade never deletes subscription invoices: a store with one invoice of the project's subscription ends with a dangling invoice |
| ProjectsList.DeleteProjectLastStepFails | src/components/projects/ProjectsList.tsx:488-497 | when only the final project delete fails, the dependants stay deleted (no rollback) and the project row remains |
| ProjectsList.RemoveDependants | src/components/projects/ProjectsList.tsx:407-486 | performs the reads and the dependant deletes in source order, each fatal |
| ProjectsList.Screen.ResetFilters | src/components/projects/ProjectsList.tsx:531-535 | clears both select filters and the search query, so the whole list is shown |
| ProjectsList.Screen.AddProject | src/components/projects/ProjectsList.tsx:172-283 | the tables follow the create specification; on success the new project is prepended to the list and its stats set to {0, 0}; otherwise the list and stats are unchanged |
| ProjectsList.Screen.EditProject | src/components/projects/ProjectsList.tsx:285-392 | does nothing without a current project; otherwise the tables follow the edit specification, and on success the entry is replaced in place by the updated row the store returns and the current project cleared |
| ProjectsList.Screen.DeleteProject | src/components/projects/ProjectsList.tsx:394-529 | does nothing without a current project; otherwise the tables follow the delete specification, and on success only that id leaves the list and the stats map |
| Projects.AfterCapTablesEffect | src/lib/projects.ts:178-223 | the cap-table part completes iff its read succeeds and (when there are cap tables) both deletes succeed; it then removes exactly the project's cap tables and their members |
| Projects.SweepSubscriptionsEffect | src/lib/projects.ts:225-284 | the subscription part completes iff its read succeeds and (when there are subscriptions) the invoice, event and subscription deletes succeed; it then removes exactly those rows |
| Projects.DeleteProjectCallsFree | src/lib/projects.ts:177-293 | the calls the delete issues, with the cap-table and subscription sub-cascades only when their lookups return rows |
| Projects.DeleteProjectCompletes | src/lib/projects.ts:177-293 | the delete completes iff none of its calls fails, and then the project, its cap tables and members, its subscriptions and their invoices and events are removed and nothing else |
| Projects.DeleteProjectNoOrphans | src/lib/projects.ts:177-293 | after a completed delete nothing of the project remains, every link the cascade covers still resolves, and allocations, investors, redemptions, approvers and group links are unchanged |
| Projects.CascadedIsLinked | src/lib/projects.ts:177-293 | the cascaded tables keep every link except those of token allocations |
| Projects.DeleteProjectFrame | src/lib/projects.ts:177-293 | whatever fails, the delete never touches allocations, investors, redemptions, approvers or group links |
| Projects.SweepSubscriptionsFrame | src/lib/projects.ts:225-284 | the subscription part leaves the same tables untouched |
| Projects.SweepCapTablesFrame | src/lib/projects.ts:178-223 | the cap-table part leaves every table but cap tables and members untouched |
| Projects.DeleteProjectOrphansAllocations | src/lib/projects.ts:177-293 | this cascade never deletes token allocations: a store with one allocation of the project's subscription ends with a dangling allocation |
| Projects.SubscriptionReadFailureKeepsCapTableDeletes | src/lib/projects.ts:211-237 | subscriptions are read after cap tables are deleted, so a failed subscription read leaves the cap tables and members already removed |
| Projects.RemoveCapTables | src/lib/projects.ts:178-223 | performs the cap-table read and deletes in source order |
| Projects.DeleteProject | src/lib/projects.ts:177-293 | performs the whole delete in source order, each step fatal |
| Projects.TotalAllocationRemove | src/lib/projects.ts:341-343 | the total allocation is one row's amount (a missing amount counts 0) plus the total of the others |
| Projects.TotalAllocationAdd | src/lib/projects.ts:341-343 | adding a row adds its amount, 0 when missing |
| Projects.TotalAllocationOfMissing | src/lib/projects.ts:341-343 | rows with no amount total 0 |
| Projects.StatisticsWithoutCapTable | src/lib/projects.ts:304-313 | with no cap table the statistics are {0, 0}, and a failed cap-table read is reported |
| Projects.ProjectStatisticsOf | src/lib/projects.ts:296-350 | the accumulating loop computes the statistics specification: member count and total allocation of the single cap table |
| Projects.GetProjects | src/lib/projects.ts:33-43 | a backend error is thrown; otherwise the call returns iff every row maps, the result being each row's mapped value in row order, and a mapping failure throws one failing row's message |
| Projects.GetProject | src/lib/projects.ts:54-65 | a backend error or a mapping error gives null; otherwise the mapped row |
| Projects.ListThrowsSingleReturnsNull | src/lib/projects.ts:33-43 | on the same failure the list call throws while the single call returns null |
| Projects.CreatedRow | src/lib/projects.ts:74-116 | the created project keeps the form's name, status and type, keeps the description only when non-empty, stores token symbol, target raise, authorized shares and share price as given, and stores valuation, funding round, legal entity, jurisdiction and tax id as null unless truthy |
| Projects.CreateProject | src/lib/projects.ts:74-116 | inserts the created row, or reports the failure and changes nothing |
| Investors.FatalCallsListed | src/lib/investors.ts:144-183 | the fatal calls: the subscription read, the cap-table-link delete and the investor delete always; the allocation and subscription deletes only when the investor has subscriptions |
| Investors.AfterSubscriptionsEffect | src/lib/investors.ts:144-183 | the subscription part ignores non-blocking failures, completes iff its fatal calls succeed, and then removes exactly the investor's subscriptions and their allocations |
| Investors.SweepRedemptionsClears | src/lib/investors.ts:191-226 | when its calls succeed the redemption part removes exactly the investor's redemptions and their approvers |
| Investors.DeleteInvestorOutcome | src/lib/investors.ts:136-273 | the outcome is the first failing fatal step, in source order, or completion |
| Investors.DeleteInvestorCompletes | src/lib/investors.ts:136-273 | the delete completes iff no fatal call fails; non-blocking failures never change the outcome |
| Investors.DeleteInvestorEffect | src/lib/investors.ts:136-273 | a completed delete without non-blocking failures removes the investor, its subscriptions, their allocations, its redemptions, their approvers, its cap-table links and its group links |
| Investors.CascadedNoOrphans | src/lib/investors.ts:136-273 | that cascade leaves no row of the investor and keeps every link except invoices and events |
| Investors.DeleteInvestorNoOrphans | src/lib/investors.ts:136-273 | after such a completed delete, the investor and its subscriptions are gone and every covered link resolves |
| Investors.RedeemingDbIntact | src/lib/investors.ts:191-226 | the example store with one redemption satisfies integrity |
| Investors.NonBlockingFaultOrphansRedemption | src/lib/investors.ts:214-226 | a failed redemption delete is only logged: the investor is still deleted and its redemption is left dangling |
| Investors.InvoicedDbIntact | src/lib/investors.ts:136-273 | the example store with one invoice satisfies integrity |
| Investors.DeleteInvestorOrphansInvoices | src/lib/investors.ts:136-273 | this cascade never deletes subscription invoices, which then point at a deleted subscription |
| Investors.MembershipFailureKeepsEarlierDeletes | src/lib/investors.ts:230-241 | a failed cap-table-link delete aborts, keeping the investor but with its subscriptions and allocations already removed |
| Investors.RemoveSubscriptions | src/lib/investors.ts:144-183 | performs the subscription read and the allocation and subscription deletes in source order |
| Investors.RemoveRedemptions | src/lib/investors.ts:191-226 | performs the redemption steps, none of them fatal |
| Investors.DeleteInvestor | src/lib/investors.ts:136-273 | performs the whole delete in source order, fatal and non-blocking steps as marked |
| Investors.DeleteSubscriptionEffect | src/lib/investors.ts:656-681 | allocations go first: if their delete fails nothing changes; the delete completes iff both deletes succeed, and then the subscription and its allocations are gone with allocation links kept |
| Investors.DeleteSubscription | src/lib/investors.ts:652-682 | performs the two deletes in source order |
| Investors.UpdateRecordColumns | src/lib/investors.ts:104-118 | the update record always has `updated_at` set to now and has a column exactly for each field that is not undefined, under its column name |
| Investors.BuildUpdateRecord | src/lib/investors.ts:104-118 | the step-by-step record building yields that record |
| Investors.UpdateRecordApplied | src/lib/investors.ts:104-118 | applying the record changes exactly the given fields, null clearing the nullable ones |
| Investors.EmptyUpdateKeepsRow | src/lib/investors.ts:104-118 | an update with no fields leaves the row as it was |
| Investors.UpdateInvestor | src/lib/investors.ts:100-133 | updates the row with the record, or reports a failure or a missing row and changes nothing |
| Investors.AllocationsFor | src/lib/investors.ts:327-345 | a subscription's allocations are exactly those with its id, and the first of them is the first such row |
| Investors.EnrichmentShape | src/lib/investors.ts:327-345 | the enriched list has the subscriptions' length and order; token type and amount come from the first matching allocation, or null and 0 when none; project name defaults to "Unknown Project" |
| Investors.InvestorSubscriptions | src/lib/investors.ts:276-353 | a failed read is reported, no subscriptions give an empty list without the allocation read, otherwise one enriched entry per subscription |
| Investors.NewSubscriptionRow | src/lib/investors.ts:487-497 | the new subscription's flags are true only when given true and notes is null unless non-empty |
| Investors.AddInvestorLookupFailure | src/lib/investors.ts:466-478 | a failed or non-single cap-table lookup aborts before any insert |
| Investors.AddInvestorKeepsSubscriptionOnLinkFailure | src/lib/investors.ts:519-534 | a failed cap-table link insert aborts without removing the subscription already inserted |
| Investors.AddInvestorCompletes | src/lib/investors.ts:466-534 | the add completes iff the project has one cap table, the new keys are free and the lookup and both inserts succeed |
| Investors.AddInvestorEffect | src/lib/investors.ts:466-534 | a completed add keeps integrity, adds the subscription to the project and links the investor to its cap table |
| Investors.AddInvestorToProject | src/lib/investors.ts:451-540 | performs the lookup and the two inserts in source order |
| Investors.NewAllocationRow | src/lib/investors.ts:555-564 | the new allocation keeps the form's amount and type, and is distributed only when given true |
| Investors.AddTokenAllocation | src/lib/investors.ts:543-582 | inserts that row, or reports the failure and changes nothing |
| Investors.NewInvestorRow | src/lib/investors.ts:72-83 | the new investor: kyc status defaults to "not_started", empty optional fields become null |
| Investors.CreateInvestor | src/lib/investors.ts:68-97 | inserts that row, or reports the failure and changes nothing |
| Csv.ParseBare | src/lib/activityLogger.ts:195-212 | the reference parser's unquoted field stops at a comma, quote or line feed, and consumes exactly what it returns |
| Csv.ParseEscapedField | src/lib/activityLogger.ts:195-202 | parsing an escaped field recovers the original string (null becomes ""), whatever follows it |
| Csv.EscapePlain | src/lib/activityLogger.ts:195-202 | a field with no comma, quote or line feed is written unchanged; null is written as "" |
| Csv.EscapeExample | src/lib/activityLogger.ts:195-202 | `a,"b"` is written `"a,""b"""` |
| Csv.ParseEscapedRecord | src/lib/activityLogger.ts:204-212 | a comma-joined line of escaped fields parses back to exactly those fields |
| Csv.ParseEscapedDocument | src/lib/activityLogger.ts:216 | LF-joined lines parse back to exactly those records |
| Csv.ExportRoundTrip | src/lib/activityLogger.ts:173-217 | the exported text parses to the header followed by each log's seven values, in order |
| Csv.ExportHeader | src/lib/activityLogger.ts:174-185 | the export is empty iff there are no logs; otherwise it starts with the header line |
| ActivityLogger.DetailsText | src/lib/activityLogger.ts:44-45 | object details are written as their JSON text, `null` (an object to `typeof`) as "null", string details as they are, missing details as "" |
| ActivityLogger.LoggedRow | src/lib/activityLogger.ts:34-61 | the inserted row: status defaults to "success", user email and id fall back to the placeholders, entity and project kept |
| ActivityLogger.LogActivity | src/lib/activityLogger.ts:16-73 | inserts that row and returns it, or returns null and changes nothing when the insert fails |
| ActivityLogger.Limited | src/lib/activityLogger.ts:115-118 | a limit keeps the prefix of exactly that many rows when there are more, and all rows otherwise; no limit keeps all |
| ActivityLogger.LimitOf | src/lib/activityLogger.ts:115-118 | a limit applies exactly when one is given and non-zero |
| ActivityLogger.BuildLogQuery | src/lib/activityLogger.ts:95-118 | the conditions built step by step hold on a row exactly when it matches every given filter and lies within the date bounds |
| ActivityLogger.GetActivityLogs | src/lib/activityLogger.ts:80-128 | a failed query gives []; otherwise the matching rows, newest first, cut to the limit |
| ActivityLogger.NewestFirstFiltered | src/lib/activityLogger.ts:89-92 | filtering a newest-first table keeps it newest first |
| ActivityLogger.GetActivityLogsResult | src/lib/activityLogger.ts:95-125 | every returned row is in the table and matches, the rows are newest first and a prefix of the matches; with a limit n exactly min(n, matches) rows come back and no match left out is newer than a returned row; without a limit every match is returned |
| ActivityLogger.GetEntityActivityLogs | src/lib/activityLogger.ts:137-147 | the logs of one entity, through the same query |
| ActivityLogger.RecentActivityFilter | src/lib/activityLogger.ts:155-166 | the user defaults to "current-user" and the limit to 10 |
| ActivityLogger.GetUserRecentActivity | src/lib/activityLogger.ts:155-166 | the logs of that user through the same query |
| ActivityLogger.RecentActivityDefaults | src/lib/activityLogger.ts:155-166 | with no arguments, at most ten rows, all of the placeholder user |
| ActivityLogger.LoggedRowIsFound | src/lib/activityLogger.ts:16-128 | a logged row matches a query for its action, user, entity and creation time |
| ActivityLogger.AuditTrail.constructor | src/lib/activityLogger.ts:47-61 | an empty log table |
| ActivityLogHelpers.GetActionType | src/utils/activityLogHelpers.ts:12-15 | the newer column when non-empty, else the older one when non-empty, else "" |
| ActivityLogHelpers.SpaceUnderscores | src/utils/activityLogHelpers.ts:24 | each `_` becomes a space, every other character is kept |
| ActivityLogHelpers.CapitalizeWordsAt | src/utils/activityLogHelpers.ts:25 | a character is upper-cased exactly when it is a word character preceded by a non-word character or the start |
| ActivityLogHelpers.FormatActionTypeChars | src/utils/activityLogHelpers.ts:20-26 | same length; each output character is the input one with `_` made a space, upper-cased exactly when it starts a word |
| ActivityLogHelpers.FormatActionTypeNoUnderscore | src/utils/activityLogHelpers.ts:20-26 | "" formats to "", and no output contains `_` |
| ActivityLogHelpers.FormatActionTypeIdempotent | src/utils/activityLogHelpers.ts:20-26 | formatting a formatted name changes nothing |
| ActivityLogHelpers.CreateActivityLogEntry | src/utils/activityLogHelpers.ts:31-54 | action and action type both carry the action, status defaults to "success", the entry is stamped with the time; object details are stored as their JSON text and `null` as "null", strings and missing details as given |
| ActivityLogHelpers.NormalizeActivityLog | src/utils/activityLogHelpers.ts:59-74 | the action prefers the newer column, status defaults to "success", string details are kept, object details become their JSON text, and missing or null details become "{}" |
| ActivityLogHelpers.NormalizedActionIsActionType | src/utils/activityLogHelpers.ts:12-15 | normalising reads the same action as `getActionType` |
| ActivityLogHelpers.CreatedEntryNormalizes | src/utils/activityLogHelpers.ts:31-74 | a created entry read back keeps its action, time, string or object details and status; null details read back as "null" and missing details as "{}" |
| ActivityMonitor.PageRange | src/components/activity/ActivityMonitor.tsx:61-75 | page p asks for rows (p-1)*20 through (p-1)*20+19 |
| ActivityMonitor.RowOnOnePage | src/components/activity/ActivityMonitor.tsx:68-75 | row k falls in page p's range exactly when p is k / 20 + 1 |
| ActivityMonitor.TotalPages | src/components/activity/ActivityMonitor.tsx:151-153 | at least 1 and at least the page; one more than the page exactly when the shown rows fill a page |
| ActivityMonitor.PreviousPage | src/components/activity/ActivityMonitor.tsx:525 | one back from a page after the first; on page 1 (or below) it stays at 1 |
| ActivityMonitor.NextPage | src/components/activity/ActivityMonitor.tsx:558 | one on from a page before the last; on the last page (or past it) it is the page count |
| ActivityMonitor.PageWindowShape | src/components/activity/ActivityMonitor.tsx:530-541 | min(5, total) consecutive page numbers, all in [1, total], including the current page when it is in range |
| ActivityMonitor.Search | src/components/activity/ActivityMonitor.tsx:118-132 | a log is kept iff the query is empty or the lower-cased query occurs in one of its five lower-cased fields; an empty query keeps the list as it is |
| ActivityMonitor.NullFieldsNeverMatch | src/components/activity/ActivityMonitor.tsx:118-132 | a log whose fields are all null or empty is never found by a non-empty query |
| ActivityMonitor.LowerTwice | src/components/activity/ActivityMonitor.tsx:120-130 | lower-casing twice is lower-casing once |
| ActivityMonitor.SearchIgnoresQueryCase | src/components/activity/ActivityMonitor.tsx:118-132 | the search result does not depend on the query's case |
| ActivityMonitor.SearchKeepsOrder | src/components/activity/ActivityMonitor.tsx:118-132 | the search keeps the fetched order: searching two runs of rows in sequence gives the two searches in sequence |
| ActivityMonitor.DistinctNonEmpty | src/components/activity/ActivityMonitor.tsx:137-147 | exactly the non-empty values present, without duplicates |
| ActivityMonitor.DistinctInFirstOccurrenceOrder | src/components/activity/ActivityMonitor.tsx:137-147 | the options appear in the order of their first occurrence |
| ActivityMonitor.ActionOptions | src/components/activity/ActivityMonitor.tsx:137-140 | exactly the distinct non-empty actions of the fetched page |
| ActivityMonitor.EntityOptions | src/components/activity/ActivityMonitor.tsx:141-146 | exactly the distinct non-empty entity types of the fetched page |
| ActivityMonitor.StatusBadge | src/components/activity/ActivityMonitor.tsx:271-285 | case-insensitively: success, failure or failed, pending; a missing status is Unknown; anything else is shown as written |
| ActivityMonitor.BadgeIgnoresCase | src/components/activity/ActivityMonitor.tsx:271-285 | statuses equal up to case get the same badge class |
| ActivityMonitor.Filters.With | src/components/activity/ActivityMonitor.tsx:175-181 | sets one filter and keeps the other four |
| ActivityMonitor.PiecesCover | src/components/activity/ActivityMonitor.tsx:78-96 | the refinements cover exactly the non-empty filters with their values |
| ActivityMonitor.RefinementsOf | src/components/activity/ActivityMonitor.tsx:78-96 | the step-by-step query refinements are exactly the non-empty filters |
| ActivityMonitor.Screen.constructor | src/components/activity/ActivityMonitor.tsx:42-57 | the initial screen: page 1 of 1, no logs, no filters, the "all" tab |
| ActivityMonitor.Screen.BuildQuery | src/components/activity/ActivityMonitor.tsx:64-109 | the query asks for the current page's range, the non-empty filters and the tab's pattern |
| ActivityMonitor.Screen.LoadLogs | src/components/activity/ActivityMonitor.tsx:64-154 | an error empties the list and keeps the rest; otherwise the list is the searched rows, the page count is guessed from it, and the options come from the unsearched rows |
| ActivityMonitor.Screen.HandleFilterChange | src/components/activity/ActivityMonitor.tsx:175-181 | one filter changes and the page goes back to 1 |
| ActivityMonitor.Screen.ResetFilters | src/components/activity/ActivityMonitor.tsx:184-194 | all five filters and the search query are cleared and the page goes back to 1 |
| ActivityMonitor.Screen.GoPrevious | src/components/activity/ActivityMonitor.tsx:525 | the page moves back, clamped at 1 |
| ActivityMonitor.Screen.GoNext | src/components/activity/ActivityMonitor.tsx:558 | the page moves on, clamped at the page count |
| ActivityMonitor.Screen.GoToPage | src/components/activity/ActivityMonitor.tsx:546 | a page link sets that page |
| SupabaseHelpers.MapAll | src/utils/supabaseHelpers.ts:17-18 | mapping succeeds iff every row maps, then element-wise in order; a failure carries a row's error |
| SupabaseHelpers.HandleResponse | src/utils/supabaseHelpers.ts:6-23 | an error result never carries items |
| SupabaseHelpers.HandleSingleResponse | src/utils/supabaseHelpers.ts:28-49 | an error result never carries an item |
| SupabaseHelpers.SingleMapping | src/utils/supabaseHelpers.ts:42-47 | without a backend error a present row gives its mapped value and no error, or no item and the mapper's thrown message |
| SupabaseHelpers.BackendErrorWins | src/utils/supabaseHelpers.ts:11-14 | a backend error gives no items (or a null item) and that message |
| SupabaseHelpers.NullDataIsEmpty | src/utils/supabaseHelpers.ts:17 | null data without an error gives no items (or a null item) and no error |
| SupabaseHelpers.MappingAllOrNothing | src/utils/supabaseHelpers.ts:17-22 | when every row maps the items are the mapped rows; when any row throws, no items and that error |
| SupabaseHelpers.NeverBoth | src/utils/supabaseHelpers.ts:6-49 | never items and an error together |
| TypeGuards.AcceptsIffKeys | src/utils/typeGuards.ts:9-63 | a guard holds iff the value is a plain object with all of the guard's keys |
| TypeGuards.RejectsNonObjects | src/utils/typeGuards.ts:9-63 | every guard rejects null and every non-object |
| TypeGuards.KeysOnly | src/utils/typeGuards.ts:9-63 | only the keys matter, never the values |
| TypeGuards.Monotone | src/utils/typeGuards.ts:9-63 | adding keys never turns an accepted object into a rejected one |
| Text.ContainsAt | src/components/activity/ActivityMonitor.tsx:124-130 | the substring test holds iff the query occurs at some position |
| Common.OrElse | src/utils/activityLogHelpers.ts:14 | the JavaScript `||` default on a string: the value when non-empty, else the fallback |

## Left out

- I/O of every kind: the Supabase client, console logging, toasts, dialogs, rendering and the CSV Blob download. A remote call's outcome is a `fail` flag or a membership in the failure set.
- Concurrency: races between callers, React's batched state and unmounting. Each awaited call is one sequential step, so `handleSearch` resetting the page while `loadLogs` reads the old one is not modelled.
- The server's query language: `ilike`/`or` patterns and tab patterns are carried in the query as data, not evaluated. `maybeSingle()` matching several rows and `single()` matching no single row are failure outcomes. PGRST error codes are not distinguished beyond "no rows".
- The backend answer in `ActivityMonitor.Screen.LoadLogs` is a parameter function of the query, and the ordering by `created_at` is assumed of the table in `ActivityLogger.GetActivityLogs`.
- Primary keys, `now` and `created_at` are parameters: the backend's id generation and clocks are not modelled. An insert whose key is already taken fails.
- Dates: timestamps are ISO text or integers. `new Date(...).toISOString()` is the identity on the stored text, and date bounds compare `created_at` as integers.
- `JSON.stringify` of object details is input text; its output is not modelled.
- Lower-casing and `\w` cover ASCII only; no Unicode case mapping.
- The row mapper is a parameter returning a value or a thrown message; the type mappers themselves are not part of this model.
- `ActivityLogger.Limited`: a negative or non-numeric limit is not modelled, because the limit is a natural number.
- `Projects.ProjectStatisticsOf`: amounts are integers, not floating-point numbers.
- The `fetchProjects` total-raised sum and every other floating-point computation, including `updateProject`'s number parsing.
- `TypeGuards.AcceptsIffKeys`: keys inherited through the prototype chain are not modelled. An array has only `length` and its digit keys, whatever its length.
- `ProjectsList.DeleteProjectCompletes`: when the project has more than one cap table the delete aborts on `maybeSingle()`, as a failure outcome rather than an error code.
- The distinction between `null` and `undefined` is kept only where the source branches on it: the investor update record, the log helpers' details and which columns a project edit carries.
- Project rows: `created_at` and `updated_at` are not columns of the modelled row. The optional numeric columns hold mathematical reals, so `NaN` is not modelled.
- The project screen's initial load, the investor listing and search functions, `updateSubscription`, `updateTokenAllocation` and the KYC helpers are not part of the modelled core.
- The duplicated `escapeCsvField` and `formatActionType` in the activity monitor screen are the same definitions as the library ones, so they are modelled once.
