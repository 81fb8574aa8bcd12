# Hotel Hub linen count: a Dafny model

This project models the core of the Hotel Hub housekeeping linen count plugin. Housekeepers
count spoilt linen per room and per day. A count is kept as a draft until it is submitted, and
a submitted count is locked until a user with the edit-submitted permission unlocks it.

The model has six modules, one per part of the plugin (`Counts` and `Ajax` together cover the AJAX handlers):

- **`Settings`** (`settings.dfy`): the per-location option. This covers `sanitize_settings`, the
  item filtering and per-location merge of `save_settings`, and the lookups with their defaults.
- **`Counts`** (`counts.dfy`):
  - the `hhlc_linen_counts` table, as a map keyed by the unique (location, room, item, date);
  - one function per table write, giving the new table;
  - the room status the dashboard derives;
  - the lemmas that tie the writes to the status.
- **`Ajax`** (`ajax.dfy`): the `CountLedger` class. It holds the table, and its methods are the
  AJAX handlers:
  - the writes: submit, autosave, unlock and submit-all;
  - the reads: today's counts, today's totals and the date-range report.

  Each method's contract gives every error answer and its new table.
- **`Heartbeat`** (`heartbeat.dfy`):
  - the change feed, which filters, orders and watermarks the rows changed since the last poll;
  - the `ActivityMonitor` class, which keeps the per-(location, date) presence lists with
    two-minute pruning.
- **`Reports`** (`reports.dfy`): the admin report:
  - grouping a day's rows by room, and the per-item totals;
  - `find_linen_item`;
  - keying the calendar data by date, and the calendar grid's padding;
  - the export filter and the CSV row shape.
- **`Display`** (`display.dfy`): the decisions of the linen section in the room modal:
  - which notice is shown;
  - the lock state;
  - the action button and the arrows;
  - each item's starting count;
  - the metadata footer.

`Common` holds `Option`, `Result` and PHP's truthiness of strings.

SQL queries are not executed. A query appears in one of two ways:

- The model computes its result from the table map, when a handler reads the table it owns.
- A result sequence is passed in, together with a ghost predicate that says which rows the
  query selects and in what order they come back. This is used for the report queries.

Dates are day numbers and times are integer seconds. The host's clock, permission checks and
`sanitize_text_field` are parameters.

Two behaviours of the code are worth knowing.

- **The change feed re-delivers.** Both time bounds of the feed query are inclusive. So a poll
  that passes back the watermark it was given returns the most recent row again
  (`Heartbeat.NextPollRedeliversLatest`). A design that expects such a poll to be empty
  disagrees with the code; the model follows the code.
- **The modal's lock state comes from the first row.** The room's rows come back in no
  particular order, and the modal reads the lock state from the first of them. So the modal
  can show an unlocked room, and offer Submit, while the dashboard calls the room submitted
  (`Display.ShownUnlockedWhileSubmitted`). An autosave of a new item into a submitted room
  leaves such a table.

## Model

| member | source | states |
|---|---|---|
| Settings.SanitizeItem | includes/class-hhlc-settings.php:379-386 | A sanitised item has `pack_qty >= 1` and `target_stock_qty >= 0`; values already in range are kept |
| Settings.SanitizedItems | includes/class-hhlc-settings.php:376-388 | As many items as survive the name-or-shortcode test, each with quantities in range |
| Settings.SanitizedSettings | includes/class-hhlc-settings.php:362-393 | A non-array input gives an empty array. Otherwise the same locations, each with `enabled` and `linen_items` present, `enabled` false when absent, and every item's quantities in range |
| Settings.FilterItems | includes/class-hhlc-settings.php:325-337 | The append loop yields exactly the sanitised item list |
| Settings.SanitizeSettings | includes/class-hhlc-settings.php:362-393 | The per-location loop yields exactly the sanitised settings |
| Settings.SaveSettings | includes/class-hhlc-settings.php:294-345 | Refused without `manage_options`. Otherwise the stored locations are the old ones plus the posted ones, and `update_option` passes the merge through the registered `sanitize_settings` callback. An unposted location is stored as `sanitize_settings` leaves it, so one without `enabled` becomes disabled. A posted location is the save loop's entry sanitised again, with `enabled` true iff the checkbox was posted |
| Settings.LocationSettingsFor | includes/class-hhlc-settings.php:398-401 | An unknown location reads as an empty entry; a known one as stored |
| Settings.LinenItems | includes/class-hhlc-settings.php:406-409 | The stored list, or empty for an unknown location or a missing list |
| Settings.IsEnabledForLocation | includes/class-hhlc-settings.php:414-417 | True when no `enabled` value is stored, the stored value otherwise |
| Settings.SanitizedItemsPlacement | includes/class-hhlc-settings.php:377-388 | A surviving item lands, sanitised, at the index given by the number of survivors before it |
| Settings.SurvivorsKeepOrder | includes/class-hhlc-settings.php:377-388 | Surviving items keep their relative order |
| Settings.DroppedItemsVanish | includes/class-hhlc-settings.php:378-387 | An item with empty name and shortcode contributes nothing |
| Settings.SanitizeItemTwice | includes/class-hhlc-settings.php:379-386 | With an idempotent text sanitiser, sanitising an item twice equals once |
| Settings.SanitizedItemsTwice | includes/class-hhlc-settings.php:377-388 | With an idempotent sanitiser that never empties non-empty text, filtering twice equals once |
| Settings.SanitizeSettingsTwice | includes/class-hhlc-settings.php:362-393 | Under the same two assumptions, `sanitize_settings` applied twice equals applied once |
| Settings.SanitizeSettingsNotIdempotent | includes/class-hhlc-settings.php:378-381 | Idempotence of the text sanitiser alone is not enough: an item whose name is only markup survives once and is dropped the second time |
| Settings.SavedLocationIsSanitized | includes/class-hhlc-settings.php:68-70 | Only for a text sanitiser that is idempotent and never empties non-empty text: the callback's second pass leaves a posted location's items and `enabled` as the save loop built them. `sanitize_text_field` does not meet the second condition |
| Settings.SecondPassDropsMarkupItem | includes/class-hhlc-settings.php:327-345 | An item posted with a markup-only name passes the save loop's raw test and is stored cleaned to empty text, then the callback's second pass drops it |
| Counts.Clamp | includes/class-hhlc-ajax.php:123 | `max(0, intval(count))` |
| Counts.RoomStatus | includes/class-hhlc-ajax.php:481-502 | 'submitted' iff some row of the room's day is locked; 'unsubmitted' iff rows exist and none is locked; 'none' iff there is no row |
| Counts.SubmittedRow | includes/class-hhlc-ajax.php:125-166 | The row a submit writes. It is locked with the clamped count, the current user and the booking ref. On the update branch it keeps the item's stored `submitted_at` and stamps `last_updated_*`. On the first branch `submitted_at` is now and `last_updated_*` are null |
| Counts.PostedKeys | includes/class-hhlc-ajax.php:122-132 | The keys a submit writes: the room's day keys of exactly the posted items |
| Counts.SubmitTable | includes/class-hhlc-ajax.php:121-169 | One row per posted item, as `SubmittedRow` gives it; every other row unchanged; complete audit pairs preserved |
| Counts.SubmitTableAsWritten | includes/class-hhlc-ajax.php:125-148 | First branch as corrected. The update branch stores no new key, and every key it keeps is as corrected |
| Counts.SubmitTableStep | includes/class-hhlc-ajax.php:122-169 | Each iteration of the submit loop writes exactly its item's row on top |
| Counts.AsWrittenDropsNewItem | includes/class-hhlc-ajax.php:135-140 | On the update branch, a posted item with no row is lost as written and stored when corrected |
| Counts.AsWrittenLosesTowels | includes/class-hhlc-ajax.php:135-140 | A concrete resubmit that adds an item to a locked room loses that item |
| Counts.AutosaveTable | includes/class-hhlc-ajax.php:334-390 | A new key becomes an unlocked draft with both users and both times set. An existing row changes only count and `last_updated_*`, plus `booking_ref` when unlocked, keeping lock, submitter and submission time. No other row changes |
| Counts.UnlockTable | includes/class-hhlc-ajax.php:272-282 | Every row of the room's day is unlocked, and nothing else changes |
| Counts.DraftKeys | includes/class-hhlc-ajax.php:742-746 | Exactly the unlocked rows of the location's day |
| Counts.LockAllTable | includes/class-hhlc-ajax.php:735-749 | Every draft of the day is locked and stamped; every other row unchanged |
| Counts.SubmitMakesRoomSubmitted | includes/class-hhlc-ajax.php:121-169 | A submit with at least one item leaves the room 'submitted' |
| Counts.SubmitKeepsOtherRooms | includes/class-hhlc-ajax.php:121-169 | A submit leaves every other room's status unchanged |
| Counts.UnlockClearsLocks | includes/class-hhlc-ajax.php:272-282 | After an unlock no row of the room's day is locked, and a room with rows reads 'unsubmitted' |
| Counts.AutosaveKeepsSubmitted | includes/class-hhlc-ajax.php:341-390 | An autosave never changes whether the room has a locked row |
| Counts.LockAllLeavesNoDrafts | includes/class-hhlc-ajax.php:735-749 | After submit-all no draft of the day remains |
| Counts.LockAllSubmitsEveryRoom | includes/class-hhlc-ajax.php:735-749 | After submit-all every room of the day with a row reads 'submitted' |
| Counts.LockAllWithoutDrafts | includes/class-hhlc-ajax.php:735-757 | With no drafts, submit-all changes nothing |
| Counts.ResubmitAfterUnlockResetsAudit | includes/class-hhlc-ajax.php:106-166 | Unlock, autosave, resubmit: the submit takes the first branch, so the submission time is replaced and the edit stamp cleared |
| Counts.ResubmitWhileLockedKeepsSubmissionTime | includes/class-hhlc-ajax.php:119-148 | Autosave into a locked row, then resubmit: the update branch keeps the original submission time and stamps the editor |
| Counts.SumCountsPick | includes/class-hhlc-ajax.php:550-556 | `SUM(count)` over a set of rows does not depend on the order the rows are taken in |
| Counts.SumCountsAdd | includes/class-hhlc-ajax.php:550-556 | Adding a row to a set adds its count to the `SUM(count)` |
| Ajax.DateOr | includes/class-hhlc-ajax.php:439 | An absent `date` reads as today |
| Ajax.AllRooms | includes/class-hhlc-ajax.php:776-791 | Exactly the rooms with a row at the location, on any date |
| Ajax.DayKeys | includes/class-hhlc-ajax.php:462-467 | Exactly the rows of the location's day |
| Ajax.ItemDayKeys | includes/class-hhlc-ajax.php:550-556 | Exactly the rows of one item on the location's day |
| Ajax.RoomCounts | includes/class-hhlc-ajax.php:484-488 | Item id to stored count, for exactly the items with a row in the room's day |
| Ajax.RoomDayOf | includes/class-hhlc-ajax.php:470-502 | `has_any_count` iff the status is not 'none' iff the counts are non-empty; the status is the room status |
| Ajax.DaysBetween | includes/class-hhlc-ajax.php:625-631 | `date_from`, `date_from + 1`, ..., `date_to`; empty when `date_from` is after `date_to` |
| Ajax.DaysBetweenCoversRange | includes/class-hhlc-ajax.php:625-631 | A day is listed iff it lies in the inclusive range |
| Ajax.SumDaysFrame | includes/class-hhlc-ajax.php:645-654 | Setting an unlisted date leaves the sum over the listed dates unchanged |
| Ajax.CountLedger.SubmitLinenCount | includes/class-hhlc-ajax.php:64-191 | Every error answer in order: permission, parameters, module disabled, locked without edit permission. An error leaves the table unchanged; success writes `SubmitTable`, with `is_update` iff a locked row existed |
| Ajax.CountLedger.AutosaveLinenCount | includes/class-hhlc-ajax.php:294-409 | Permission, parameter and enabled errors leave the table unchanged. Otherwise `AutosaveTable` is written, with no edit-submitted check and count 0 when none is posted |
| Ajax.CountLedger.UnlockLinenCount | includes/class-hhlc-ajax.php:240-289 | Refused without access or edit-submitted permission or with missing parameters, the table then unchanged; otherwise `UnlockTable` |
| Ajax.CountLedger.SubmitAllUnsubmitted | includes/class-hhlc-ajax.php:707-761 | Permission and location errors change nothing. Otherwise every draft of the day is locked and stamped, and the answer is the number locked, or 'no unsubmitted counts' when it is 0 |
| Ajax.CountLedger.SumOver | includes/class-hhlc-ajax.php:550-556 | The loop total equals `SUM(count)` over the rows |
| Ajax.CountLedger.RoomDayAt | includes/class-hhlc-ajax.php:470-502 | The inner loop computes the room's counts, status and `has_any_count` |
| Ajax.CountLedger.GetTodayCounts | includes/class-hhlc-ajax.php:424-510 | Errors for permission, location 0 and no items. Otherwise exactly the location's known rooms, each with its day's counts and status |
| Ajax.CountLedger.GetTodayTotals | includes/class-hhlc-ajax.php:515-574 | Errors as above. Otherwise each configured item in order, with the `SUM(count)` of its rows that day, 0 when none |
| Ajax.CountLedger.DatesInRange | includes/class-hhlc-ajax.php:625-631 | The date loop lists `DaysBetween(date_from, date_to)` |
| Ajax.CountLedger.ItemRangeRow | includes/class-hhlc-ajax.php:634-658 | One entry per listed date, holding that item's day total or 0, with `grand_total` the sum of those entries |
| Ajax.CountLedger.GetDateRangeReport | includes/class-hhlc-ajax.php:579-666 | Errors for permission, missing parameters and no items. Otherwise the dates of the inclusive range, and one report row per configured item as `ItemRangeRow` states |
| Heartbeat.QueryOf | includes/class-hhlc-heartbeat.php:101-105 | The room filter applies iff the modal is open and `current_room` is non-empty |
| Heartbeat.Latest | includes/class-hhlc-heartbeat.php:107 | `GREATEST(submitted_at, IFNULL(last_updated_at, 0))`: no earlier than either time, and equal to one of them |
| Heartbeat.MostRecent | includes/class-hhlc-heartbeat.php:107 | The selection step finds a row whose latest change is no earlier than any other's |
| Heartbeat.RunFeedQuery | includes/class-hhlc-heartbeat.php:89-109 | Every row passing the WHERE clause appears once, and nothing else does, latest change first |
| Heartbeat.WatermarkBounds | includes/class-hhlc-heartbeat.php:111-118 | The watermark is no earlier than `last_check` and no earlier than any returned row's times |
| Heartbeat.FeedEmptyIff | includes/class-hhlc-heartbeat.php:109-125 | The feed is empty iff no row of the table passes the query |
| Heartbeat.NextPollRedeliversLatest | includes/class-hhlc-heartbeat.php:95-118 | Polling again with the returned watermark returns the latest row again |
| Heartbeat.Pruned | includes/class-hhlc-heartbeat.php:163-169 | Exactly the entries active at or after the cutoff, unchanged |
| Heartbeat.Without | includes/class-hhlc-heartbeat.php:185-191 | Every entry except the caller's, unchanged |
| Heartbeat.ActivityMonitor.Prune | includes/class-hhlc-heartbeat.php:165-169 | The `unset` loop leaves exactly the pruned list |
| Heartbeat.ActivityMonitor.RecordActivity | includes/class-hhlc-heartbeat.php:147-172 | The caller is upserted with `last_active` = now, stale entries are dropped, and other (location, date) lists are untouched |
| Heartbeat.ActivityMonitor.ActiveUsersList | includes/class-hhlc-heartbeat.php:177-192 | Never contains the caller; contains every other retained entry |
| Heartbeat.ActivityMonitor.HeartbeatReceived | includes/class-hhlc-heartbeat.php:65-134 | Without location, last check and date, the response and presence are unchanged. Otherwise presence is recorded. `hhlc_linen_updates` is set iff a row matches, with the watermark of the ordered feed. `hhlc_active_users` is set iff someone else is present |
| Heartbeat.RecordKeepsSelf | includes/class-hhlc-heartbeat.php:155-169 | The caller always survives pruning, with `last_active` = now |
| Heartbeat.RecordDropsIdle | includes/class-hhlc-heartbeat.php:163-169 | Any other user survives iff active within the last two minutes |
| Reports.LocationClause | admin/class-hhlc-reports.php:361-364 | The location condition is added iff `location_id > 0` |
| Reports.ExportFilter | admin/class-hhlc-reports.php:521-530 | The date range applies iff both dates are given |
| Reports.LocationClauseOnlyWhenPositive | admin/class-hhlc-reports.php:225-228 | With `location_id <= 0` the query selects every location |
| Reports.ExportHalfRangeIgnored | admin/class-hhlc-reports.php:521-525 | With only one export date given, the rows selected are those of no date filter |
| Reports.FirstWithIdMeaning | admin/class-hhlc-reports.php:482-489 | null iff no item has the id; otherwise the first item that has it |
| Reports.FindLinenItem | admin/class-hhlc-reports.php:482-489 | The search loop with early return yields `FirstWithId` |
| Reports.Catalogue | admin/class-hhlc-reports.php:371-376 | No catalogue when `location_id <= 0`; otherwise the location's items from the option read |
| Reports.LineOf | admin/class-hhlc-reports.php:392-399 | An item line keeps the row's item id and count |
| Reports.RoomOrderDistinct | admin/class-hhlc-reports.php:379-389 | Each room appears once in the result |
| Reports.RoomOrderMembers | admin/class-hhlc-reports.php:379-389 | A room is listed iff some row has it |
| Reports.RoomsOfKeys | admin/class-hhlc-reports.php:379-401 | The room map has exactly the listed rooms |
| Reports.RoomsOfConsistent | admin/class-hhlc-reports.php:382-400 | Each room entry carries its own id, and its `total_count` is the sum of its item lines |
| Reports.RoomsOfItems | admin/class-hhlc-reports.php:392-400 | A room's lines are its rows in order, with names from the catalogue (falling back to the id, shortcode to ''), and its total is the sum of its rows' counts |
| Reports.RoomsOfHeader | admin/class-hhlc-reports.php:381-389 | A room's `submitted_by`/`submitted_at` come from its first row |
| Reports.RoomsOfNewRoom | admin/class-hhlc-reports.php:381-389 | A room whose only row is the last one takes its header from that row |
| Reports.RoomLinesSum | admin/class-hhlc-reports.php:394-400 | The sum of a room's lines equals the sum of its rows' counts |
| Reports.RoomLinesAbsent | admin/class-hhlc-reports.php:394-399 | A room with no rows has no lines |
| Reports.RoomRowSumAbsent | admin/class-hhlc-reports.php:400 | A room with no rows totals 0 |
| Reports.RoomHeaderFromLeastItem | admin/class-hhlc-reports.php:366-389 | In (room, item) order, the header comes from the room's row with the least item id |
| Reports.GroupByRoom | admin/class-hhlc-reports.php:379-401 | The grouping loop yields `RoomsOf` and the first-seen room order |
| Reports.LabelOrderDistinct | admin/class-hhlc-reports.php:444-453 | Each total key appears once |
| Reports.LabelOrderMembers | admin/class-hhlc-reports.php:444-453 | A key is present iff some item line has that shortcode, or that name when the shortcode is falsy |
| Reports.TotalsOfKeys | admin/class-hhlc-reports.php:444-453 | The totals map has exactly those keys |
| Reports.TotalsOfMeaning | admin/class-hhlc-reports.php:444-453 | Each key's total is the sum of the counts of the lines with that key |
| Reports.SumLabelsFrame | admin/class-hhlc-reports.php:465 | `array_sum` depends only on the listed keys |
| Reports.SumLabelsBump | admin/class-hhlc-reports.php:451 | Raising one listed key by `c` raises `array_sum` by `c` |
| Reports.TotalsOfStep | admin/class-hhlc-reports.php:446-452 | One more line adds its count to its key, creating the key when new |
| Reports.TotalsAddUp | admin/class-hhlc-reports.php:444-465 | The sum of the per-key totals equals the sum of the lines |
| Reports.SumLinesAppend | admin/class-hhlc-reports.php:445-453 | Line sums add over concatenation |
| Reports.LinesAddUp | admin/class-hhlc-reports.php:445-453 | The sum of every room's lines equals the sum of the room totals |
| Reports.RoomsOfStep | admin/class-hhlc-reports.php:380-401 | One more row appends a line to its room and adds its count |
| Reports.RoomTotalsStep | admin/class-hhlc-reports.php:380-401 | One more row adds its count to the sum of room totals |
| Reports.RoomTotalsNewRoom | admin/class-hhlc-reports.php:381-389 | A new room adds its total to the sum |
| Reports.RoomTotalsAddUp | admin/class-hhlc-reports.php:379-401 | The sum of the room totals equals the sum of all rows' counts |
| Reports.GrandTotalIsRowSum | admin/class-hhlc-reports.php:444-465 | The grand total (`array_sum` of the item totals) equals the sum of all rows' counts |
| Reports.ItemTotals | admin/class-hhlc-reports.php:444-453 | The accumulation loop yields `TotalsOf` in first-seen key order |
| Reports.ArraySum | admin/class-hhlc-reports.php:465 | The sum over the listed keys |
| Reports.RecordsSum | admin/class-hhlc-reports.php:350-368 | The counts of a distinct selection sum to `SUM(count)` over its keys |
| Reports.SelectionSum | admin/class-hhlc-reports.php:350-368 | A selection's counts sum to `SUM(count)` over every table row the query selects |
| Reports.NoRoomsIffNoRows | admin/class-hhlc-reports.php:405-409 | The "no counts" message shows iff the query returned no row |
| Reports.GetDayDetails | admin/class-hhlc-reports.php:331-477 | 'Date required' iff no date. Otherwise the rooms, room order, item totals, total rooms and total items, the last being the sum of the rows' counts |
| Reports.DayTotalIsTableSum | admin/class-hhlc-reports.php:350-465 | The day's total items equals `SUM(count)` over the table rows of that date, and of that location when `location_id > 0` |
| Reports.CalendarMap | admin/class-hhlc-reports.php:235-238 | Every result's date is a key, and each key holds the last result for that date |
| Reports.CalendarData | admin/class-hhlc-reports.php:235-238 | The keying loop yields `CalendarMap` |
| Reports.CalendarDataMeaning | admin/class-hhlc-reports.php:214-238 | A date is keyed iff some selected row lies on it, and its entry counts the distinct rooms, items and staff and sums the counts of exactly that day's rows |
| Reports.Blanks | admin/class-hhlc-reports.php:276-278 | `n` empty cells |
| Reports.DayCells | admin/class-hhlc-reports.php:281-311 | One cell per day of the month |
| Reports.DayCellsMeaning | admin/class-hhlc-reports.php:281-311 | Cell `i` is day `i + 1`, with its date, its calendar entry when there is one, and whether it is today |
| Reports.BlanksMeaning | admin/class-hhlc-reports.php:276-278 | Every padding cell is empty |
| Reports.TrailingCompletesWeek | admin/class-hhlc-reports.php:314-319 | Trailing padding is less than a full week and makes the cell count a multiple of 7 |
| Reports.LastWeek | admin/class-hhlc-reports.php:314-319 | The open last week holds `n mod 7` cells, or 7 when that is 0 |
| Reports.AppendBlanks | admin/class-hhlc-reports.php:316-318 | The padding loop appends exactly `n` empty cells |
| Reports.FillDays | admin/class-hhlc-reports.php:276-311 | Completed weeks hold 7 cells; the open week holds 1 to 7; together they are the leading blanks then the days |
| Reports.CalendarGrid | admin/class-hhlc-reports.php:252-326 | Every week row has 7 cells, and the cells are the leading blanks (weekday of the 1st), the days, then the trailing blanks |
| Reports.CsvRow | admin/class-hhlc-reports.php:574-584 | A data row has exactly the header's 9 fields |
| Reports.CsvRowLosesOnlyLocationAndLock | admin/class-hhlc-reports.php:574-584 | Between rows of one location and lock state, the CSV row determines the record |
| Reports.GenerateCsv | admin/class-hhlc-reports.php:556-592 | The header, then one CSV row per result in order |
| Reports.CsvDatesAscend | admin/class-hhlc-reports.php:532 | In the export order the first column never decreases |
| Reports.KeysOfSize | admin/class-hhlc-reports.php:510-538 | A distinct selection has as many keys as rows |
| Reports.ExportLineCount | admin/class-hhlc-reports.php:510-585 | The CSV has one line per table row the export filter selects, plus the header |
| Reports.ExportReport | admin/class-hhlc-reports.php:494-551 | A file is produced iff the format is absent or 'csv', named by today's date, holding `GenerateCsv` of the results |
| Display.ShownLocked | includes/class-hhlc-display.php:76 | The lock state is the first row's, and unlocked with no rows |
| Display.ActionFor | includes/class-hhlc-display.php:135-149 | Submit iff unlocked; Edit iff locked with edit permission; disabled Locked iff locked without it |
| Display.MetadataOf | includes/class-hhlc-display.php:153-164 | Shown iff rows exist, from the first row; the last-edited line iff `last_updated_by` is set and non-zero |
| Display.Tiles | includes/class-hhlc-display.php:113-133 | One tile per configured item |
| Display.ModalSection | includes/class-hhlc-display.php:60-169 | No permission first, then not enabled, then no items; the controls only when all pass, and then exactly the edit-modal fragment's panel |
| Display.ItemCountAbsent | includes/class-hhlc-display.php:191-198 | With no row for the item the count is 0 |
| Display.ItemCountFirst | includes/class-hhlc-display.php:191-198 | The first row for the item gives the count |
| Display.ItemCountIsStoredCount | includes/class-hhlc-display.php:174-198 | Over the room's rows in any order, the count is the item's stored count, or 0 without a row |
| Display.FirstFor | includes/class-hhlc-display.php:191-198 | When some row has the item, a first such row exists |
| Display.TilesMeaning | includes/class-hhlc-display.php:113-133 | Tile `i` shows item `i` with its count, and its arrows are disabled iff locked |
| Display.LinenSectionMeaning | includes/class-hhlc-display.php:339-417 | One tile per item, each starting at its item's count, with arrows disabled iff the first row is locked |
| Display.EmptyRoomOffersSubmit | includes/class-hhlc-display.php:339-417 | A room with no rows is offered Submit and has no metadata; every counter starts at 0 with arrows enabled |
| Display.SubmitIffArrowsEnabled | includes/class-hhlc-display.php:120-149 | Submit is offered iff the arrows are enabled |
| Display.ShownLockedIsSubmitted | includes/class-hhlc-display.php:76 | A panel shown locked belongs to a room the dashboard calls 'submitted' |
| Display.ShownUnlockedWhileSubmitted | includes/class-hhlc-display.php:76 | The converse fails: a room can show unlocked while it reads 'submitted' |
| Display.UnknownLocationShowsNoItems | includes/class-hhlc-display.php:89-103 | An unknown location is enabled by default but has no items, so the 'no items' notice shows |

## Left out

- SQL execution, `$wpdb`, schema creation and database failures are not modelled. The table is a map on its unique key. A transaction is one atomic step. The failure answers 'Failed to unlock count', 'Database error' and 'Failed to auto-save' are therefore absent.
- Concurrency between clients is not modelled.
- Nonces, WordPress hooks, singletons, redirects and the JSON response envelope are not modelled; an answer is a `Result`.
- The host permission checks are booleans of `Ajax.Actor` or parameters. This covers `hhlc_access_module`, `user_can_edit_submitted`, `manage_options` and `user_can_access`.
- `sanitize_text_field` is a function parameter of the settings model. The AJAX handlers take room, date and item ids already sanitised.
- `json_decode` is not modelled. A posted value that is not an array is `None`.
- A PHP loose `==` between numeric strings (`find_linen_item`, `get_item_count`) is modelled as string equality.
- `date()`, `strtotime` and `current_time` are not modelled:
  - Dates are day numbers and times are seconds.
  - "Now" and "today" are parameters.
  - The weekday of the 1st and the number of days are inputs of `Reports.CalendarGrid`.
  - Formatting to `H:i` is not modelled.
  - An empty or "0" date string is treated as absent.
- `Ajax.DateOr`: a `date` that is posted but empty stays `''` in the code, so `get_today_counts` reads no counts and `submit_all_unsubmitted` locks nothing. The model reads it as absent and falls back to today, so those handlers act on today's rows.
- `Reports.CalendarGrid`: assumes `date('w')` of each day follows from the weekday of the 1st, and that `date('t')` is at least 1.
- SQL collation is not modelled. Ordering of room and item ids is character-code order (`Reports.StrLe`), and key equality is exact string equality: under a case-insensitive, pad-insensitive collation, rooms "A1" and "a1" share one row of the table, but they are two keys of `Counts.Table`.
- User display names and their 'Unknown' fallback are not modelled. The model keeps user ids where the code shows names.
- `fputcsv` quoting and base64 encoding are not modelled; the CSV is a sequence of field rows.
- Transient storage and its 5-minute expiry are not modelled. A presence list is a map per (location, date), and a missing transient reads as empty.
- `Ajax.CountLedger.SubmitLinenCount`: follows the corrected write `Counts.SubmitTable`. On the update branch, the code as written loses a posted item that has no row yet (`Counts.SubmitTableAsWritten`; see Findings). The handler instead stores that item with `submitted_at` = now.
- `Heartbeat.RunFeedQuery`: ties in `GREATEST(...)` are ordered arbitrarily, as SQL leaves them.
- `Ajax.CountLedger.GetTodayCounts`: room ids come back ordered by `ORDER BY room_id`, but the model returns them as a map, so the order is not modelled.
- The `INT UNSIGNED` column widths are not modelled; counts are unbounded naturals.
- `get_all_rooms` has a branch for the daily list module, but that branch does nothing, so only its table fallback is modelled.
- HTML, CSS and the inline and asset JavaScript are not modelled. The display model returns the decisions, not markup.
- `render_reports_page` and `get_linen_counts` are outside the modelled core.
- `get_room_linen_counts` is modelled only through `Display.IsRoomRows`, as the rows of the room's day in no particular order.
- Day details read their item catalogue from the `hhdl_location_settings` option, not from this module's `hhlc_location_settings`. The model takes that option as its own parameter of `Reports.GetDayDetails`.

## Findings

| source | as written | input that shows it | evidently intended | confidence | as-written member | corrected member |
|---|---|---|---|---|---|---|
| includes/class-hhlc-ajax.php:135-140 | On the update branch `submitted_at` is read back from the item's own row. For a posted item that has no row yet, the read gives NULL, so the `NOT NULL` column rejects the replace. The item is not stored, yet the transaction commits and reports success | Room 101 submitted with sheets only; a user with edit permission resubmits sheets and towels | The towels row is stored, locked, with the submission time of the resubmit | not executed | Counts.SubmitTableAsWritten, Counts.AsWrittenLosesTowels | Counts.SubmitTable |
