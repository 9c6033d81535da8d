# PicklePulse core, modelled in Dafny

PicklePulse is a pickleball training dashboard. A signed-in player records a
daily check-in of four slider values (hours of sleep, hunger, soreness,
performance), looks at rolling averages over 7, 14 or 30 days, and keeps a
two-column board of skills ("planning" and "practicing"). A visitor can
also continue as a guest. Guest data lives in the browser's local storage
under keys derived from a random guest id. Repeated sign-in and e-mail
attempts are throttled by a sliding-window limiter.

This project models the parts of that system whose behaviour is decided by
the application's own code and proves what that code promises:

- `GuestMode`: the guest identity store. It is a class with two fields that
  every transition overwrites together, so a guest id is held exactly in
  guest mode.
- `GuestStorage`: guest health records. A save upserts on today's date and
  leaves every other guest's key alone. The range query is a filter that
  keeps both ends and the stored order. The checked-in test is an
  existential over the stored records.
- `GuestSkillsStorage`: guest skills. Add, rename and delete work on the
  guest's list, with the per-key isolation stated in each method.
- `RateLimit`: the `check` of the limiter. It is stated as a function of the
  cache before the call, and the class methods are proved against it. An
  invariant bounds the attempt counts. A run of checks inside one window
  admits exactly `min(n, maxAttempts)` of them. Each check in the run takes
  both of its clock readings, the one of `cleanOldEntries` and the one of
  `check`, the first no later than the second.
- `AuthRedirect`: the redirect URL builder.
- `HealthRows`: the remote `health_stats` table. This is the behaviour of
  the hosted database that the dashboard code relies on: `.single()`,
  update by id and insert.
- `HealthStats`: the window lengths, the query range and the exact
  averages.
- `CheckInModal`: the dialog's colour rule, slider grid, reset values and
  submit. The submit is an upsert on the table.
- `DailyCheckIn`: the inline card. It has the same sliders, a different
  colour rule and an insert-only submit.
- `SkillsBoard`: grouping of fetched skills, JavaScript's `trim()`, and
  delete, rename and append under the partition invariant.
- `Register`: the password checks, with JavaScript's UTF-16 length, and
  the result of sign-up.
- `Common`: `Option`, `filter`, decimal rendering, the generated record id
  and the truthiness test on guest ids.

The following become parameters:

- the clock, as `nowIso` and `nowMs` (and `today` as a day number in the
  dashboard components);
- `Math.random()`, as `randomDigits`;
- the signed-in user;
- the answers of the hosted auth and database client.

Methods that talk to the remote store return the requests they make.
`localStorage` is a `map` from key to list, with JSON encoding taken as the
identity. The two guest stores are modelled as separate maps. This is
faithful to the one shared `localStorage` because no skills key
(`guest_skills_…`) is ever a health-record key (`guest_health_stats_…`)
(`GuestSkillsStorage.KeysDisjointFromHealthKeys`).

Two behaviours of the code are worth knowing:

- `saveGuestHealthStat` looks for today's record by the clock's date, not by
  the date in the data. The merge `{ ...stats[i], ...data }` then also
  overwrites the stored date with `data.date`. So a save dated another day
  overwrites today's record, and the guest is then no longer checked in
  today (`GuestStorage.SaveForOtherDateClearsToday`). Being checked in after
  a save holds when the data is dated today (`GuestStorage.CheckedInAfterSave`).
  The model follows the code.
- `getGuestId()` returning `""` counts as no guest, as `!guestId` does in
  the code.

## Model

Some rows refer to definitions that carry no contract of their own: `RateLimit.Decide`, the branch `check` takes (src/utils/rateLimit.ts:34-51), and `RateLimit.CheckSpec`, the cache and result after `check` (src/utils/rateLimit.ts:29-52); `HealthStats.Sums`, the left fold of src/components/dashboard/HealthStats.tsx:76-81 with a missing value counted as 0, and `HealthStats.Averages`, each sum divided by the row count (src/components/dashboard/HealthStats.tsx:83-88). `SkillsBoard.TrimEndOfTrimStart` is the proof helper of `SkillsBoard.Trim` and states nothing beyond it.

| member | source | states |
|---|---|---|
| Common.Filter | src/services/guestStorage.ts:61-64 | the result keeps exactly the elements that pass the predicate, and is no longer than the input |
| Common.FilterConcat | src/services/guestStorage.ts:61-64 | filtering a concatenation is the concatenation of the filtered parts, so a filter keeps the input order |
| Common.FilterKeepsAll | src/services/guestSkillsStorage.ts:75-77 | a filter keeps the length exactly when every element passes, and is then the identity |
| Common.DecimalString | src/services/guestStorage.ts:17 | `String(Date.now())` is a non-empty run of decimal digits that denotes the clock reading |
| Common.GuestRecordId | src/services/guestStorage.ts:17 | a generated id is `guest_`, then the random digits, then `_`, then digits denoting the clock reading |
| GuestMode.NewGuestId | src/services/guestMode.ts:19 | a new guest id is `guest_` followed by exactly the random digits |
| GuestMode.NewGuestIdInjective | src/services/guestMode.ts:19 | two guest ids are equal exactly when their random digits are |
| GuestMode.GuestStore.constructor | src/services/guestMode.ts:14-15 | the initial state is not a guest and holds no guest id |
| GuestMode.GuestStore.SetGuestMode | src/services/guestMode.ts:16-24 | enabling installs a fresh `guest_` id with the flag set; disabling clears both, whatever the previous state; the invariant holds afterwards |
| GuestMode.GuestStore.ContinueAsGuest | src/services/guestMode.ts:33-35 | leaves the store as `setGuestMode(true)` does, with a present (truthy) id |
| GuestMode.GuestStore.ExitGuestMode | src/services/guestMode.ts:37-39 | leaves the store as `setGuestMode(false)` does, with no id |
| GuestMode.GuestStore.IsGuestUser | src/services/guestMode.ts:41-43 | returns the flag and changes nothing |
| GuestMode.GuestStore.GetGuestId | src/services/guestMode.ts:45-47 | returns the id, present exactly in guest mode, and changes nothing |
| GuestStorage.StorageKey | src/services/guestStorage.ts:12-14 | the key is `guest_health_stats_` followed by the guest id |
| GuestStorage.StorageKeyInjective | src/services/guestStorage.ts:24 | distinct guests have distinct keys |
| GuestStorage.DatePart | src/services/guestStorage.ts:41 | `split('T')[0]` is the longest prefix without a `T`, and is followed by a `T` if shorter than the input |
| GuestStorage.FirstDayIndex | src/services/guestStorage.ts:41 | `findIndex` is -1 exactly when no record is on the day, and is otherwise the first record on the day |
| GuestStorage.UpsertToday | src/services/guestStorage.ts:40-52 | when today has a record, its first one is overwritten in place, keeping its id, the length and every other record; otherwise exactly one record with the fresh id is appended |
| GuestStorage.StatsInRange | src/services/guestStorage.ts:61-64 | keeps exactly the records whose parsed date lies in the range, both ends included |
| GuestStorage.StatsInRangeOrder | src/services/guestStorage.ts:61-64 | the range filter keeps the stored order |
| GuestStorage.CheckedInIffFound | src/services/guestStorage.ts:40-72 | being checked in today is the same test as the upsert finding a record to overwrite |
| GuestStorage.UpsertKeyIsToday | src/services/guestStorage.ts:40-48 | when today has a record, any save, whatever its date, overwrites it and the list does not grow |
| GuestStorage.CheckedInAfterSave | src/services/guestStorage.ts:40-72 | after a save dated today the guest is checked in today |
| GuestStorage.CountDay | src/services/guestStorage.ts:71 | the count of records on a day is 0 exactly when none is on it |
| GuestStorage.CountDayConcat | src/services/guestStorage.ts:41 | the count of a concatenation is the sum of the counts |
| GuestStorage.CountDayReplace | src/services/guestStorage.ts:45-48 | overwriting a record of the day with another of the same day keeps the count |
| GuestStorage.OneRecordPerDay | src/services/guestStorage.ts:40-52 | from at most one record of today, a save dated today leaves exactly one, holding the saved values |
| GuestStorage.SaveForOtherDateClearsToday | src/services/guestStorage.ts:40-72 | a save dated another day overwrites today's only record, so the guest is no longer checked in today |
| GuestStorage.SecondSaveWins | src/services/guestStorage.ts:40-52 | two saves on one day leave one record of the day, holding the second save's values |
| GuestStorage.GuestHealthStorage.constructor | src/services/guestStorage.ts:20-26 | storage starts empty |
| GuestStorage.GuestHealthStorage.GetGuestHealthStats | src/services/guestStorage.ts:20-26 | no guest id, or no stored key, gives the empty list; otherwise the stored list |
| GuestStorage.GuestHealthStorage.SaveGuestHealthStat | src/services/guestStorage.ts:29-56 | with no guest id the result is null and storage is unchanged; otherwise the guest's list becomes the upsert on today and the result carries the fresh id even when that id is not stored; other guests' lists are unchanged |
| GuestStorage.GuestHealthStorage.GetGuestHealthStatsForRange | src/services/guestStorage.ts:59-65 | exactly the guest's stored records within the range |
| GuestStorage.GuestHealthStorage.HasGuestCheckedInToday | src/services/guestStorage.ts:68-72 | holds exactly when some stored record's date part is today's |
| GuestStorage.GuestHealthStorage.ClearGuestData | src/services/guestStorage.ts:75-80 | removes only this guest's key, after which the guest's list reads as empty; no guest id changes nothing |
| GuestSkillsStorage.StorageKey | src/services/guestSkillsStorage.ts:11-13 | the key is `guest_skills_` followed by the guest id |
| GuestSkillsStorage.KeysDisjointFromHealthKeys | src/services/guestSkillsStorage.ts:11-13 | no skills key is a health-record key, so the two stores never touch each other's entries in the shared `localStorage` |
| GuestSkillsStorage.StorageKeyInjective | src/services/guestSkillsStorage.ts:23 | distinct guests have distinct keys |
| GuestSkillsStorage.IndexOfId | src/services/guestSkillsStorage.ts:54 | `findIndex` is -1 exactly when no skill has the id, and is otherwise the first skill with it |
| GuestSkillsStorage.WithoutId | src/services/guestSkillsStorage.ts:75-77 | keeps exactly the skills with other ids, and keeps the length exactly when no skill has the id |
| GuestSkillsStorage.RemoveTwice | src/services/guestSkillsStorage.ts:75-80 | removing an id a second time keeps the list, so a second delete reports false |
| GuestSkillsStorage.GuestSkillsStore.constructor | src/services/guestSkillsStorage.ts:19-25 | storage starts empty |
| GuestSkillsStorage.GuestSkillsStore.GetGuestSkills | src/services/guestSkillsStorage.ts:19-25 | no guest id, or no stored key, gives the empty list; otherwise the stored list |
| GuestSkillsStorage.GuestSkillsStore.SaveGuestSkill | src/services/guestSkillsStorage.ts:28-46 | appends and returns one skill with the given name and section and equal creation and update times; with no guest id it returns null and changes nothing; the new storage is the old one with only this guest's key rewritten |
| GuestSkillsStorage.GuestSkillsStore.UpdateGuestSkill | src/services/guestSkillsStorage.ts:49-67 | an unknown id or no guest gives null and no write; a known id renames its first match at the same index, refreshes the update time and keeps id, section, creation time and all other skills; the new storage is the old one with only this guest's key rewritten |
| GuestSkillsStorage.GuestSkillsStore.DeleteGuestSkill | src/services/guestSkillsStorage.ts:70-81 | reports false, writing nothing, exactly when there is no guest or no skill has the id; otherwise stores the list without that id, and the new storage is the old one with only this guest's key rewritten |
| GuestSkillsStorage.GuestSkillsStore.ClearGuestSkills | src/services/guestSkillsStorage.ts:84-89 | removes only this guest's key, after which the guest's skills read as empty |
| RateLimit.CleanOld | src/utils/rateLimit.ts:20-27 | keeps exactly the entries still inside their window, unchanged |
| RateLimit.FreshKeyAllowed | src/utils/rateLimit.ts:34-37 | a key with no live entry is allowed and opens a window of one attempt at `now` |
| RateLimit.NoResetWithOneClock | src/utils/rateLimit.ts:20-43 | with one clock reading, an entry that survives cleaning never takes the reset branch |
| RateLimit.DenyReportsRemainingWindow | src/utils/rateLimit.ts:29-48 | a check is refused exactly when the key's entry survives cleaning, its window is open and it has reached the limit; a refusal reports `windowMs - (now - windowStart)`, which is positive and at most the window when the window did not start after `now`, and only cleans the cache |
| RateLimit.CountedAttempt | src/utils/rateLimit.ts:50-51 | below the limit an attempt whose entry is inside the window at both clock readings is allowed and raises the count by exactly one |
| RateLimit.OtherKeysUntouched | src/utils/rateLimit.ts:30-51 | a check on one key keeps every other key's live entry and drops only expired ones |
| RateLimit.CheckKeepsBounded | src/utils/rateLimit.ts:34-51 | every check keeps every count at least 1 and, for a positive limit, at most the limit |
| RateLimit.RunInsideWindow | src/utils/rateLimit.ts:29-52 | inside an open window, a run of checks, each with both clock readings, the cleaning one no later than the checking one, admits exactly as many as the limit has room for |
| RateLimit.AtMostMaxPerWindow | src/utils/rateLimit.ts:29-52 | a run that opens a window and whose every check, with both its clock readings, stays inside it admits `min(n, maxAttempts)` checks, never more than the limit |
| RateLimit.RateLimiter.constructor | src/utils/rateLimit.ts:15-18 | an empty cache with the given configuration |
| RateLimit.RateLimiter.CleanOldEntries | src/utils/rateLimit.ts:20-27 | the deleting loop leaves exactly the cleaned cache |
| RateLimit.RateLimiter.Check | src/utils/rateLimit.ts:29-52 | the new cache and the result are those of the check function on the old cache, and the invariant is kept |
| RateLimit.NewAuthRateLimiter | src/utils/rateLimit.ts:56-59 | 5 attempts per 300000 ms, empty |
| RateLimit.NewEmailRateLimiter | src/utils/rateLimit.ts:61-64 | 3 attempts per 600000 ms, empty |
| AuthRedirect.BaseUrl | src/utils/auth.ts:7-10 | the development base exactly for the host `localhost`, the deployed base otherwise |
| AuthRedirect.NormalizePath | src/utils/auth.ts:13 | starts with `/`; a path that already does is unchanged, any other gets one `/` prepended |
| AuthRedirect.NormalizeIdempotent | src/utils/auth.ts:13 | normalising twice is normalising once |
| AuthRedirect.NormalizeAddsOneSlash | src/utils/auth.ts:13 | at most one slash is added, and the empty path becomes `/` |
| AuthRedirect.GetRedirectUrl | src/utils/auth.ts:6-16 | the URL is the base followed by the normalised path, starts with the base and has `/` right after it |
| AuthRedirect.RedirectUrlSplits | src/utils/auth.ts:13-15 | the URL splits back into base and normalised path; the empty path gives base + `/` |
| HealthRows.WithMetrics | src/components/dashboard/CheckInModal.tsx:183-188 | the four metric columns take the values; id, user and date are kept |
| HealthRows.CountFor | src/components/dashboard/CheckInModal.tsx:171-176 | the count of a user's rows of a day is 0 exactly when none matches |
| HealthRows.FirstFor | src/components/dashboard/CheckInModal.tsx:171-176 | some id exactly when a row matches, and then a matching row's id |
| HealthRows.SingleMatch | src/components/dashboard/CheckInModal.tsx:171-176 | `.single()` gives a row exactly when one row matches, and then that row's id |
| HealthRows.UpdateById | src/components/dashboard/CheckInModal.tsx:181-189 | the rows with the id take the metrics, every other row is unchanged |
| HealthRows.ApplyTwo | src/components/dashboard/CheckInModal.tsx:171-204 | two requests in a row apply one after the other |
| HealthRows.CountForConcat | src/components/dashboard/CheckInModal.tsx:171-176 | the count of a concatenation is the sum of the counts |
| HealthRows.UpdateKeepsCount | src/components/dashboard/CheckInModal.tsx:181-189 | updating metrics never changes a row's user or day |
| HealthRows.InsertAddsOne | src/components/dashboard/CheckInModal.tsx:193-202 | an insert adds exactly one row of its own user and day |
| HealthStats.WindowDays | src/components/dashboard/HealthStats.tsx:59 | 7 exactly for weekly, 14 for bi-weekly, 30 for monthly |
| HealthStats.FooterMatchesWindow | src/components/dashboard/HealthStats.tsx:171 | the footer shows the decimal rendering of the window the query uses |
| HealthStats.QueryRange | src/components/dashboard/HealthStats.tsx:58-69 | the query ends today and starts the window length earlier |
| HealthStats.QueryIncludesBothEnds | src/components/dashboard/HealthStats.tsx:67-69 | a row is queried exactly when dated from today minus the window up to today, both ends included |
| HealthStats.SumsConcat | src/components/dashboard/HealthStats.tsx:76-81 | the sums of a split list add up, so the row order does not matter |
| HealthStats.MissingRowCounts | src/components/dashboard/HealthStats.tsx:76-88 | a row with every value missing adds 0 to the sums but still counts in the denominator |
| HealthStats.SumsWithin | src/components/dashboard/HealthStats.tsx:76-81 | with values on the sliders' scales, each sum is at most the count times the scale's top |
| HealthStats.AveragesWithin | src/components/dashboard/HealthStats.tsx:83-88 | each average stays within 0 and the slider's top |
| HealthStats.QuotientsWithin | src/components/dashboard/HealthStats.tsx:83-88 | a metric's sum within count times its bound, divided by the count, stays within 0 and that bound |
| HealthStats.DivideWithin | src/components/dashboard/HealthStats.tsx:84 | a bounded sum divided by a positive count stays within the bound |
| HealthStats.TwoRowExample | src/components/dashboard/HealthStats.tsx:76-88 | check-ins of 6/3/2/4 and 8/5/4/2 average to 7/4/3/3 |
| HealthStats.HealthStatsPanel.constructor | src/components/dashboard/HealthStats.tsx:31-38 | weekly, all averages 0, loading |
| HealthStats.HealthStatsPanel.SetTimeRange | src/components/dashboard/HealthStats.tsx:31 | picks the window and changes nothing else |
| HealthStats.HealthStatsPanel.LoadAverageStats | src/components/dashboard/HealthStats.tsx:51-95 | queries the user's rows of the window; no user, an error or no rows leave the averages, otherwise they become the rows' averages; loading always ends |
| CheckInModal.ScaleMax | src/components/dashboard/CheckInModal.tsx:96 | the scale's top is positive, at least 5, so the share of the scale is defined |
| CheckInModal.SliderColour | src/components/dashboard/CheckInModal.tsx:86-103 | soreness is green up to 1, yellow up to 2, orange up to 3, else red; the others are green from 80% of the scale, yellow from 60%, orange from 40%, else red; green and red are shade 500, the others 400 |
| CheckInModal.ColourMonotone | src/components/dashboard/CheckInModal.tsx:86-103 | a higher value never gives a worse colour, except for soreness, where it never gives a better one |
| CheckInModal.ScoreColours | src/components/dashboard/CheckInModal.tsx:86-103 | the 1 to 5 scores show red, orange, yellow, green; a soreness of 1 is green and 4 red |
| CheckInModal.SliderBounds | src/components/dashboard/CheckInModal.tsx:113-115 | each slider's range is non-empty with a positive step, its ends are on the grid, and its top is the colour scale's |
| CheckInModal.Set | src/components/dashboard/CheckInModal.tsx:73-78 | the named value takes the new value and the others are unchanged |
| CheckInModal.InitialOnGrid | src/components/dashboard/CheckInModal.tsx:35-55 | the reset values are positions the sliders can show |
| CheckInModal.SubmitRequests | src/components/dashboard/CheckInModal.tsx:168-204 | a lookup of today's row, then an update by id exactly when one was found, else an insert of today's row |
| CheckInModal.SubmitIsUpsert | src/components/dashboard/CheckInModal.tsx:168-204 | from at most one row of today, a submit leaves exactly one row of today, holding the submitted values |
| CheckInModal.OnlyMatchHasId | src/components/dashboard/CheckInModal.tsx:171-189 | the update by the returned id reaches the only row of today |
| CheckInModal.TwoMatchesCountTwo | src/components/dashboard/CheckInModal.tsx:171-176 | two distinct matching rows make a count of at least two |
| CheckInModal.DuplicatesGrow | src/components/dashboard/CheckInModal.tsx:171-204 | with two rows of today, `.single()` finds none and a submit inserts a third |
| CheckInModal.CheckInDialog.constructor | src/components/dashboard/CheckInModal.tsx:33-40 | starts at sleep 7 and 3 for the others, not submitting |
| CheckInModal.CheckInDialog.Opened | src/components/dashboard/CheckInModal.tsx:46-55 | opening resets the values to sleep 7 and 3 for the others |
| CheckInModal.CheckInDialog.HandleSliderChange | src/components/dashboard/CheckInModal.tsx:73-78 | only the named value changes |
| CheckInModal.CheckInDialog.HandleSubmit | src/components/dashboard/CheckInModal.tsx:162-228 | no user fails with "No user found" before any remote call; otherwise the lookup then the update or insert, failing with the write's error if any; submitting always ends |
| DailyCheckIn.SliderInfo | src/components/dashboard/DailyCheckIn.tsx:35-60 | each slider's range is non-empty with a positive step and its ends on the grid |
| DailyCheckIn.SameBoundsAsDialog | src/components/dashboard/DailyCheckIn.tsx:35-60 | the card's sliders are the dialog's |
| DailyCheckIn.CardColour | src/components/dashboard/DailyCheckIn.tsx:62-69 | red up to 20% of the scale, orange up to 40%, yellow up to 60%, green above, all shade 500 |
| DailyCheckIn.ShareAtMost | src/components/dashboard/DailyCheckIn.tsx:63 | a share of at most t percent is a value of at most t hundredths of the scale |
| DailyCheckIn.ColourMonotone | src/components/dashboard/DailyCheckIn.tsx:62-69 | a higher value never gives a worse colour, soreness included |
| DailyCheckIn.ColoursDifferFromDialog | src/components/dashboard/DailyCheckIn.tsx:62-69 | the card colours soreness the opposite way from the dialog, and uses other shades |
| DailyCheckIn.InitialAsDialog | src/components/dashboard/DailyCheckIn.tsx:26-31 | the card starts at the dialog's values, which are on the sliders' grid |
| DailyCheckIn.SubmitRequest | src/components/dashboard/DailyCheckIn.tsx:78-87 | the one write is an insert of the user's row of today with the values |
| DailyCheckIn.TwoSubmitsTwoRows | src/components/dashboard/DailyCheckIn.tsx:77-87 | two submits on one day add two rows of that day |
| DailyCheckIn.CheckInCard.constructor | src/components/dashboard/DailyCheckIn.tsx:26-32 | starts at sleep 7 and 3 for the others, not submitting |
| DailyCheckIn.CheckInCard.HandleSliderChange | src/components/dashboard/DailyCheckIn.tsx:140 | only the named value changes |
| DailyCheckIn.CheckInCard.HandleSubmit | src/components/dashboard/DailyCheckIn.tsx:71-112 | no user fails before any remote call; otherwise exactly one insert, failing with the fixed message on error; submitting always ends |
| SkillsBoard.SectionName | src/components/dashboard/SkillsBoard.tsx:32 | each section has its own column name |
| SkillsBoard.WithBucket | src/components/dashboard/SkillsBoard.tsx:118-121 | replaces one column and keeps the other |
| SkillsBoard.GroupedLengths | src/components/dashboard/SkillsBoard.tsx:78-81 | the two columns together are as long as the fetched list |
| SkillsBoard.GroupedIsPartitioned | src/components/dashboard/SkillsBoard.tsx:78-81 | the grouped board puts every skill in its own section's column |
| SkillsBoard.GroupStep | src/components/dashboard/SkillsBoard.tsx:79 | one more row joins its own section's column only, at the end |
| SkillsBoard.GroupSkills | src/components/dashboard/SkillsBoard.tsx:78-81 | the reduce fails exactly when some row has another section; otherwise each column is the fetched rows of its section in fetch order |
| SkillsBoard.TrimStart | src/components/dashboard/SkillsBoard.tsx:141 | drops exactly the leading white space |
| SkillsBoard.TrimEnd | src/components/dashboard/SkillsBoard.tsx:141 | drops exactly the trailing white space |
| SkillsBoard.Trim | src/components/dashboard/SkillsBoard.tsx:141 | `trim()` is empty exactly when every character is white space, otherwise starts and ends with other characters, and is the text after the leading white space up to its trailing white space only |
| SkillsBoard.BlankExamples | src/components/dashboard/SkillsBoard.tsx:141-149 | empty and white-space names, including no-break and ideographic spaces, are refused; names with a visible character are not |
| SkillsBoard.DeleteFromBoard | src/components/dashboard/SkillsBoard.tsx:118-121 | the section keeps exactly its skills with other ids, keeps its length exactly when none has the id, and the other column is unchanged |
| SkillsBoard.RenameInBoard | src/components/dashboard/SkillsBoard.tsx:164-171 | in the selected section the skills with the id take the new name and keep id and section, every other skill and the other column are unchanged |
| SkillsBoard.AppendToBoard | src/components/dashboard/SkillsBoard.tsx:186-189 | the row goes to the end of the selected section and the other column is unchanged |
| SkillsBoard.DeleteKeepsPartition | src/components/dashboard/SkillsBoard.tsx:118-121 | a delete keeps every skill in its own section's column |
| SkillsBoard.RenameKeepsPartition | src/components/dashboard/SkillsBoard.tsx:164-171 | a rename keeps every skill in its own section's column |
| SkillsBoard.AppendKeepsPartition | src/components/dashboard/SkillsBoard.tsx:176-189 | appending a row inserted with the column's own section keeps the invariant |
| SkillsBoard.DeleteIdempotent | src/components/dashboard/SkillsBoard.tsx:118-121 | deleting an id twice is deleting it once |
| SkillsBoard.SkillsBoardView.constructor | src/components/dashboard/SkillsBoard.tsx:42-49 | empty columns, loading, nothing selected, dialog closed |
| SkillsBoard.SkillsBoardView.LoadSkills | src/components/dashboard/SkillsBoard.tsx:66-95 | with a user, a fetched list and only known sections the board becomes the grouping; no user, a store error or an unknown section leave the board and show an error; loading always ends |
| SkillsBoard.SkillsBoardView.HandleAddSkill | src/components/dashboard/SkillsBoard.tsx:97-101 | selects the section with no skill, clears the name, opens the dialog |
| SkillsBoard.SkillsBoardView.HandleEditSkill | src/components/dashboard/SkillsBoard.tsx:103-107 | selects the section and skill, fills in its name, opens the dialog |
| SkillsBoard.SkillsBoardView.SetNewSkillName | src/components/dashboard/SkillsBoard.tsx:336 | changes only the typed name |
| SkillsBoard.SkillsBoardView.Close | src/components/dashboard/SkillsBoard.tsx:343 | closes the dialog and changes nothing else |
| SkillsBoard.SkillsBoardView.HandleDeleteSkill | src/components/dashboard/SkillsBoard.tsx:109-138 | one delete request; the board loses the id from the section only when the store reports no error |
| SkillsBoard.SaveSkill | src/components/dashboard/SkillsBoard.tsx:140-208 | a blank name is refused first, with its own toast, no request and the board kept; with no user nothing is written and the save fails; otherwise one rename of the edited skill or one insert into the selected section under the untrimmed name; a failed write keeps the board and the dialog; a write without error renames in, or appends to, the selected section only, closes the dialog and shows the success toast; the board changes only when the dialog closes |
| SkillsBoard.SaveKeepsPartition | src/components/dashboard/SkillsBoard.tsx:164-189 | every save, of either kind and with any outcome, keeps each skill in its own section's column |
| SkillsBoard.SkillsBoardView.HandleSaveSkill | src/components/dashboard/SkillsBoard.tsx:140-208 | a blank name is refused with no request and no change; with no user nothing is written; otherwise one rename or insert, and only a write without error renames in, or appends to, the selected section and closes the dialog |
| Register.Utf16Length | src/pages/Register.tsx:38 | `length` counts UTF-16 code units: between the character count and twice it, and equal to it without astral characters |
| Register.Utf16Example | src/pages/Register.tsx:38 | three emoji measure 6; `abcde` measures 5 |
| Register.HandleRegister | src/pages/Register.tsx:31-85 | sign-up is called, with the e-mail and password, exactly when the password has at least 6 code units and matches its confirmation; the length error comes first, then the mismatch; success exactly when sign-up returns a user, else its error or "No user data received" |
| Register.LengthCheckedFirst | src/pages/Register.tsx:38-48 | a short, mismatched password reports the length |
| Register.OneMessage | src/pages/Register.tsx:34-85 | every submit ends with exactly one of an error and the success message |
| Register.ExamplePasswords | src/pages/Register.tsx:38-52 | a confirmed five-letter password is refused, and three emoji are accepted |

## Left out

- Network calls through the hosted auth and database client are not made. The signed-in user and each call's answer are parameters: a row or id, an error flag or message, or a fetched list. The requests are returned as values.
- HealthRows: the behaviour of the remote table (`.eq` filters, `.single()`, update by id, insert and their ids) is a model of the hosted database, which is not part of this model's source. The lemmas about submits hold under that model.
- The race in the dialog's lookup-then-write is left out: the model is one sequential caller. `CheckInModal.DuplicatesGrow` shows only what happens once duplicates exist.
- `toFixed(1)` rounding of the averages is not modelled. Averages are exact reals, and so are the slider values and the colour thresholds, compared by cross-multiplying. Floating-point error in `(value / max) * 100` is not modelled.
- Calendar arithmetic is not modelled. The dashboard works on day numbers, so `setDate`, time zones and the `toISOString().split('T')[0]` rendering are absent. In the guest store, `new Date(stat.date)` is a `parse` parameter.
- `localStorage` is a map; JSON encoding, parse errors and quota errors are not modelled. `Math.random().toString(36).substring(2)` is a parameter string. The zustand `persist` middleware, which restores the guest store across reloads, is not modelled.
- React rendering, hooks, toasts (except the titles the skills board chooses), tooltips, timers, navigation and the delayed redirect after sign-up are not modelled.
- CheckInModal.CheckInDialog.HandleSubmit: the error text shown is `error.message` only for `Error` instances. Whether the database client's errors are instances of `Error` is up to that library, so the text is a parameter.
- SkillsBoard.SkillsBoardView.HandleSaveSkill: it is modelled only with the dialog open, the only way the save button can be reached. The returned row of an insert is taken to be the inserted name and section with the new id.
- `src/services/supabase.ts` and the routing and the page files other than `src/pages/Register.tsx` are not part of this model. They only wire forms and routes.
