# Waitlist, tables and orchestration: a verified model

This project models the parts of a restaurant waitlist product where several rules meet, and proves what holds
when they do:

* **The branch store.** Guests join a queue, are called, seated, marked no-show, restored, reverted, cancelled,
  edited and reordered; tables are released, cleaned, switched off and retired; the day is closed and the dashboard
  is read. `Rules.dfy` says what each operation does to a stored state; `Branch.dfy` is the store as an object whose
  methods update rows and tables in place and are proved to do exactly that. `Lifecycle`, `Parties`, `Occupancy`,
  `Numbering`, `Phones`, `Sweeps`, `Ranks`, `Reordering`, `Places`, `Days`, `Closing` and `Dashboard` prove what
  every operation, and every run from a bootstrapped branch, keeps; `Requests` says of each request when it is
  accepted, what refuses it and what it writes; `Calendar` and `Text` carry the business date and the
  strings, `Listing` the filtered, ordered and paged staff list, `Lists` the sort.
* **The merge protocol.** `executeMerge` writes a checkpoint between git commands, `recoverMerge` reads whatever a
  crash left, and the orchestrator restarts the merge from the step it advises. `Merging` is the protocol command by
  command, each command succeeding, failing, conflicting or never reached; `MergeSafety` is the invariant linking
  checkpoint, local main and origin/main over any number of stops and restarts, with builders moving the branch
  meanwhile; `MergeRuns` draws the consequences; `MergeAttempt` is the procedure in the source's own imperative form;
  `MergeOutcomes` says what whole attempts come to and where a stopped one can be resumed, `MergeStops` what a stop at
  each command leaves and answers, `MergeGate` that only tested merges are published.
* **Four smaller cores.** The capped rate-limit counters (`RateLimit`, `Windows`, `CounterStore`), the slot scheduler
  (`Scheduler`), the route worklist and resolver (`Routes`) and the phone mask (`PhoneMask`).

Where a property the product relies on does not hold for every call, the model keeps the code, a lemma says exactly
when it holds, and another exhibits a failing call:

| exactly when | failing call |
|---|---|
| `Parties.PartyInvariantExactly`, `Occupancy.MatchExactly` | `Occupancy.PatchStrandsAParty`, `Occupancy.CloseDayStrandsAParty` |
| `Occupancy.ServiceExactly` | `Occupancy.DeactivationHidesAParty` |
| `Phones.PhonesExactly` | `Phones.RestoreDoublesAPhone` |
| `Ranks.OrdersExactly` | `Ranks.RestoreOntoATakenNumber` |
| `Places.RestorePlaceExactly` | `Places.RestoreBehindALaterJoiner` |
| `MergeOutcomes.RestartExactly` | `MergeOutcomes.KilledAfterMerge`, `MergeOutcomes.KilledInDryRun`, `MergeOutcomes.RefusedAttemptCannotResume` |
| `PhoneMask.TailSurvivesExactly` | `PhoneMask.ShortLastGroupLosesTheTail` |

Check the whole project with `dafny verify dfyconfig.toml`.

## Where the code and its documentation differ

The model follows the code.

* The reorder's domain is documented as the WAITING and CALLED rows (`backend/app/services/staff_waitlist.py:980-987`,
  `:993-997`); `ACTIVE_STATUSES` includes SEATED, so a request must name the SEATED rows too.
* `_sweep_expired` says the sweep releases the table a row held (`backend/app/services/staff_waitlist.py:462-464`);
  `apply_lazy_no_show` writes no table. On reachable rows there is none to release (`Lifecycle.LazyNoShowIsStaffNoShow`).
* The lazy no-show is documented as `called_at + hold < now`; the code flips at equality as well.
* `_restore_claim` describes how a restored row gets a free position, but nothing calls it; `restore_entry` keeps the
  old `sort_order` and asks neither for the phone nor for the position.
* `restore_entry` promises a place ahead of every WAITING row that joined later and behind the earlier ones, also after
  the queue has been compacted by a reorder (`backend/app/services/staff_waitlist.py:777-784`). The code keeps the
  number the row had, which a reorder in between hands out anew; the promise holds exactly when that number still
  lies between those of the earlier and the later guests (`Places.RestorePlaceExactly`), always so without a reorder.
* `update_table_status` is described as moving a table between AVAILABLE and CLEANING; it also takes an OCCUPIED one.
* `recoverMerge` advises "from step 3" for every `reset` checkpoint. Step 3 leads to success exactly when no merge is
  in progress and main does not contain the branch yet; a process stopped inside the dry run or after `git merge`, and
  an attempt refused because its branch is already published, all leave a `reset` checkpoint where that is not so
  at the next restart.
* A process stopped between a conflicting dry run and its abort leaves an unmerged index. A new attempt then fails at
  `git checkout main` and overwrites the checkpoint, after which no attempt and no recovery gets anywhere.
* `runTests` takes the counts it finds in the output of a failed command, so a command that exits with an error after
  printing "N passed ... 0 failed" is pushed.
* `mask_phone` says the last three digits always survive; with three digit groups or more and a last group shorter than
  three they need not (`1235-645-7` shows 357 for 457). Every number the validator accepts keeps them.

## Model

| member | source | states |
|---|---|---|
| Calendar.OrdinalOfDate | backend/app/services/waitlist.py:296-304 | Counting dates day by day agrees with the closed-form ordinal of the proleptic calendar, so the local day number names one date |
| Calendar.TextOrderIsDayOrder | backend/app/services/waitlist.py:296-304 | For any two instants the YYYY-MM-DD texts order (section 5.1 of RFC 3339) exactly as the business days do, and are equal exactly when the days are |
| Calendar.BusinessDayMonotone | backend/app/services/waitlist.py:296-304 | The business date never goes back as the clock advances |
| Calendar.ChangesExactlyAtCutoff | backend/app/services/waitlist.py:296-304 | Between two consecutive microseconds the date changes if and only if the branch clock then reads the cutoff hour |
| Calendar.OneChangePerDay | backend/app/services/waitlist.py:296-304 | 24 hours later the date is the next calendar date, and any instant between carries one of the two |
| Calendar.BusinessDayExactly | backend/app/services/waitlist.py:296-304 | The business day is n if and only if the instant lies in the 24 local hours that begin at the cutoff of day n |
| Calendar.PrintedDate | backend/app/services/waitlist.py:296-304 | The date text reads back as that day's year, month and day, in four, two and two digits with dashes between |
| Requests.AcceptedExactly | backend/app/services/staff_waitlist.py:84-104 | Each of the twenty operations is accepted if and only if the row has one of that action's statuses, the table is in the state it needs, the phone or label is free, the request names the queue, the values are in bounds |
| Requests.RefusedExactly | backend/app/services/staff_waitlist.py:709-727 | Any other request changes nothing and answers the error of the first check that fails: bounds of the body, row, table, table's state, row's status; closed queue before duplicate phone |
| Requests.AllowedActionLands | backend/app/services/staff_waitlist.py:684-862 | An accepted action takes its row to the status of its edge, with that edge's stamps, hold and reason |
| Requests.SeatWrites | backend/app/services/staff_waitlist.py:709-727 | An accepted seating of a WAITING or CALLED guest leaves the row SEATED at that table and stamped, the table OCCUPIED and all else as it was |
| Requests.EditWrites | backend/app/services/staff_waitlist.py:960-977 | An accepted edit writes the values of the fields the body names and nothing else |
| Requests.TableWrites | backend/app/services/tables.py:280-370 | An accepted status PATCH, is_active PATCH, retirement or creation writes the value asked for on that table and nothing else |
| Requests.SettingsWrites | backend/app/services/settings.py:212-262 | An accepted settings PATCH writes the values it names among hold, prefix and open and keeps the others |
| Requests.JoinWrites | backend/app/services/waitlist.py:422-445 | An accepted join appends the form: name, phone and note trimmed, a blank note none, the party size, the day and prefix of the moment, one place after the highest used, no stamp |
| Lifecycle.StepMovesLegally | backend/app/services/staff_waitlist.py:684-862 | Whatever the operation, every row it finds is unchanged, has an editable column of a live row changed, or takes one edge of the status table with exactly that edge's stamps, hold, reason and table; guest columns never change |
| Lifecycle.OnlyJoinsAppend | backend/app/services/waitlist.py:422-445 | Only an accepted join adds a row, and it adds the ticket at the end |
| Lifecycle.RefusalsChangeNothing | backend/app/services/staff_waitlist.py:709-727 | A refused operation leaves rows, tables and settings as they were, for every operation |
| Lifecycle.ReachableRowsAreShaped | backend/app/services/staff_waitlist.py:684-862 | After any run: WAITING, CALLED, NO_SHOW, CANCELLED hold no table and SEATED, DONE do; closed_at exactly on closed rows; a reason exactly on CANCELLED; CALLED has called_at and a hold, WAITING neither |
| Lifecycle.RunKeepsGuests | backend/app/services/waitlist.py:422-440 | No run deletes a row or changes its day, numbers, name, phone or created_at |
| Lifecycle.TerminalRowsAreFrozen | backend/app/services/staff_waitlist.py:84-104 | A DONE or CANCELLED row is never written again by any run |
| Lifecycle.LazyNoShowIsStaffNoShow | backend/app/services/waitlist.py:497-518 | On a reachable call past its hold the lazy no-show and the staff no-show leave the same row and the same store |
| Lifecycle.CancelsDifferInReasonOnly | backend/app/services/waitlist.py:552-574 | Guest cancel and staff cancel of a WAITING or CALLED row give the same store except for the reason |
| Lifecycle.CallThenRevert | backend/app/services/staff_waitlist.py:828-844 | Reverting a call gives back the store as it was before the call |
| Lifecycle.NoShowThenRestore | backend/app/services/staff_waitlist.py:760-795 | Restoring a no-show gives a WAITING guest's store back as it was, and any other guest a WAITING row with neither call nor table |
| Lifecycle.EditsCompose | backend/app/services/staff_waitlist.py:960-977 | Two edits are the one edit carrying the later value of each field, and an edit that names no field changes nothing |
| Parties.ClosingFreesOwnTable | backend/app/services/staff_waitlist.py:735-757 | A no-show or staff cancel changes at most the table the row itself sits at, and only to AVAILABLE |
| Parties.ClosingNeverFreesAnothersTable | backend/app/services/staff_waitlist.py:735-757 | With every party at its own table, a no-show or cancel never frees a table another party holds |
| Parties.ReleaseClosesItsParty | backend/app/services/tables.py:517-546 | A release leaves no SEATED row on the table, makes exactly its party DONE with closed_at, frees that table and touches nothing else |
| Parties.PatchExactly | backend/app/services/tables.py:498-514 | A status PATCH keeps "every SEATED row has an OCCUPIED table of its own" if and only if it is refused or nobody sits at the table |
| Parties.CloseDayExactly | backend/app/routers/staff_waitlist.py:234-290 | Closing the day keeps it if and only if no party of another day sits at an active table |
| Parties.PartyInvariantExactly | backend/app/services/staff_waitlist.py:709-757 | Any operation keeps it if and only if it is not one of those two |
| Parties.CarefulRunsKeepParties | backend/app/services/tables.py:498-546 | It holds after every run from a bootstrapped branch whose PATCHes and closes meet those conditions |
| Occupancy.PatchMatchExactly | backend/app/services/tables.py:498-514 | A status PATCH keeps parties and OCCUPIED tables in one-to-one match if and only if it is refused or the table is not OCCUPIED |
| Occupancy.CloseDayMatchExactly | backend/app/routers/staff_waitlist.py:234-290 | A close keeps the match if and only if the parties of the closed day are exactly those at active tables |
| Occupancy.MatchExactly | backend/app/services/tables.py:498-546 | Any operation keeps the match if and only if it meets those conditions |
| Occupancy.TidyRunsKeepMatch | backend/app/services/tables.py:498-546 | The match holds after every run whose steps meet them |
| Occupancy.ServiceExactly | backend/app/services/tables.py:349-370 | Only the PATCH that deactivates an OCCUPIED table takes one out of service |
| Occupancy.ServiceOverRuns | backend/app/services/tables.py:349-370 | Over every run without such a PATCH, every OCCUPIED table is active |
| Occupancy.SeatThenRelease | backend/app/services/tables.py:517-546 | Releasing the table a party was just seated at gives back every table as it was and leaves the party DONE with both stamps |
| Occupancy.PatchStrandsAParty | backend/app/services/tables.py:508-513 | One table, one guest seated, one PATCH to CLEANING: a SEATED row at a table that reads as free |
| Occupancy.CloseDayStrandsAParty | backend/app/routers/staff_waitlist.py:270-287 | A party of an earlier day still sits, a later day is closed: its table is turned over under it |
| Occupancy.DeactivationHidesAParty | backend/app/services/tables.py:349-353 | One guest seated, one PATCH of is_active: an OCCUPIED table out of service |
| Numbering.QueueNumberInjective | backend/app/services/waitlist.py:322-324 | With a letters-only prefix a queue number determines prefix and sequence, for sequences of any length |
| Numbering.FullNumberInjective | backend/app/services/waitlist.py:327-329 | A full queue number determines prefix, business date and sequence |
| Numbering.TopSeqIsCount | backend/app/services/waitlist.py:307-319 | The highest sequence under a day and prefix is the number of rows under them |
| Numbering.ReachableRowsAreNumbered | backend/app/services/waitlist.py:412-440 | Over every run, prefix changes included, each row carries the rank of its join under its day and prefix, printed both ways |
| Numbering.SeqsAreOneToN | backend/app/services/waitlist.py:307-319 | Under each day and prefix the sequences in use are exactly 1..n |
| Numbering.LaterJoinHigherSeq | backend/app/services/waitlist.py:307-319 | A later join under the same day and prefix has a higher sequence |
| Numbering.NumbersIdentifyGuests | backend/app/services/waitlist.py:322-329 | No two rows of a day share a queue number and no two rows at all share a full queue number |
| Numbering.PrintedNumbers | backend/app/services/waitlist.py:322-329 | A queue number is the prefix and the sequence in three digits or more without needless zeros; a full one is prefix, date without dashes and sequence, dashed together |
| Numbering.TailLookupIsUnique | backend/app/services/waitlist.py:256-280 | The lookup by number and phone tail has at most one candidate on the clock's day |
| Phones.StoredPhoneNormalizes | backend/app/services/waitlist.py:126-132 | The phone a join stores, stripped or replaced by digits, normalizes to the digits the duplicate check looked for |
| Phones.RestorePhonesExactly | backend/app/services/staff_waitlist.py:785-795 | A restore keeps one live row per phone and day if and only if no other live row of that day holds the phone |
| Phones.PhonesExactly | backend/app/services/waitlist.py:353-377 | Every other operation keeps it |
| Phones.OnePlacePerPhoneOverRuns | backend/app/services/waitlist.py:353-377 | It holds after every run whose restores meet that condition |
| Phones.RestoreDoublesAPhone | backend/app/services/staff_waitlist.py:774-795 | Join, no-show, join again, restore: one phone with two live rows on one day |
| Sweeps.ExpiredHasNoSecondsLeft | backend/app/services/waitlist.py:478-494 | The truncated countdown is at most zero on every expired call and at least zero on every other |
| Sweeps.StaffLapseIsLapse | backend/app/services/staff_waitlist.py:483-495 | The staff sweep's truncated guard never hides an expired call nor flips a live one |
| Sweeps.TruncationReadsZeroEarly | backend/app/services/waitlist.py:478-494 | A call not yet expired counts down to zero exactly in its last second |
| Sweeps.CountdownExactly | backend/app/services/waitlist.py:478-494 | A countdown is shown exactly for a CALLED row with call and hold on record, as the whole seconds left until the hold ends, cut off toward zero |
| Sweeps.ExpiresExactly | backend/app/services/waitlist.py:497-518 | A call has run out exactly when its hold, in minutes, has passed since it was made |
| Sweeps.SweepsAgree | backend/app/services/dashboard.py:226-271 | The dashboard sweep is the staff sweep confined to its day |
| Sweeps.StaffSweepExactly | backend/app/services/staff_waitlist.py:459-504 | The sweep changes exactly the CALLED rows with now at or past called_at plus hold, their status and closed_at and nothing else |
| Sweeps.NothingExpiredAfterSweep | backend/app/services/staff_waitlist.py:459-504 | After it no row is expired and every countdown shown is at least zero |
| Sweeps.InterruptedSweepConverges | backend/app/services/staff_waitlist.py:459-504 | A sweep cut off after any prefix of rows and rerun later ends in the statuses of one sweep at the later clock |
| Sweeps.SweepIsIdempotent | backend/app/services/staff_waitlist.py:459-504 | Sweeping twice at one clock is sweeping once |
| Sweeps.InterruptedDaySweepConverges | backend/app/services/dashboard.py:254-271 | The dashboard's sweep of a day, cut off after any prefix of rows and rerun later, ends in the statuses of one sweep at the later clock |
| Sweeps.NothingExpiredAfterDaySweep | backend/app/services/dashboard.py:226-271 | After it no row of the day is expired and every countdown the day shows is at least zero |
| Ranks.RanksAreZeroToN | backend/app/services/waitlist.py:452-468 | With distinct live orders, waiting_ahead maps a day's n WAITING rows one-to-one onto 0..n-1 |
| Ranks.NextUpHasNobodyAhead | backend/app/services/waitlist.py:639-655 | The board's next_up is a WAITING row with waiting_ahead 0, and conversely |
| Ranks.OneNextUp | backend/app/services/waitlist.py:639-655 | With distinct live orders at most one row is next |
| Ranks.NewcomerIsLast | backend/app/services/waitlist.py:332-345 | A fresh join has every WAITING row of its day ahead |
| Ranks.RestoreOrdersExactly | backend/app/services/staff_waitlist.py:785-795 | A restore keeps a day's live orders distinct if and only if no other live row of the day has its number |
| Ranks.OrdersExactly | backend/app/services/staff_waitlist.py:785-795 | Every other operation keeps them distinct |
| Ranks.DistinctOrdersOverRuns | backend/app/services/waitlist.py:332-345 | They are distinct after every run whose restores meet that condition |
| Ranks.RestoreOntoATakenNumber | backend/app/services/staff_waitlist.py:785-795 | Two joins, a no-show of the first, a reorder of the rest, a restore: two live rows of one day on one number |
| Ranks.JoinOrderOverRuns | backend/app/services/waitlist.py:332-345 | Over every run without a reorder sort_order rises strictly in join order over all rows |
| Ranks.RestoredGuestsKeepTheirPlace | backend/app/services/staff_waitlist.py:774-795 | In such a run a row, restored ones included, is behind exactly the WAITING rows of its day that joined before it |
| Places.RestorePlaceExactly | backend/app/services/staff_waitlist.py:774-795 | After a restore every WAITING guest of the day who joined later counts more guests ahead than the restored one and every earlier one fewer, if and only if the number kept lies between theirs |
| Places.OrdersStayBetweenReorders | backend/app/services/waitlist.py:332-345 | From any store on, over every run without a reorder, no row's sort_order moves and every later row gets a higher one than all before it |
| Places.PlaceHoldsBetweenReorders | backend/app/services/staff_waitlist.py:774-795 | Over such a run a guest, gone and restored meanwhile or not, is behind exactly the WAITING guests of its day who had a lower number at the start; nobody who joins passes it |
| Places.AwayDuringAReorder | backend/app/services/staff_waitlist.py:1011-1013 | A guest away at a reorder with number k is, until the next one, behind exactly the WAITING guests the request puts in its first k-1 places and the absent ones with lower numbers, whoever joined first |
| Places.RestoreBehindALaterJoiner | backend/app/services/staff_waitlist.py:774-795 | Four joins, the second and third no-shows, a reorder of the other two, a restore of the third onto a free number: the fourth guest, who joined later, is ahead |
| Listing.ListsExactlyTheWanted | backend/app/services/staff_waitlist.py:262-358 | A list holds exactly the rows of the day with a status asked for, the party size and the name or phone tail searched for, each once |
| Listing.ListsInOrder | backend/app/services/staff_waitlist.py:288-304 | And holds them by sort_order, then created_at |
| Listing.SearchExactly | backend/app/services/staff_waitlist.py:262-285 | A search with three digits finds the phones ending in them, with other digits nobody, without digits the names holding its trimmed text in any case, blank nobody |
| Listing.PageExactly | backend/app/services/staff_waitlist.py:412-424 | A page has the entries from the offset on, as many as asked for as far as the list reaches |
| Listing.OneListing | backend/app/services/staff_waitlist.py:288-304 | Where sort_order rises strictly there is one way to list the rows |
| Listing.PagesTile | backend/app/services/staff_waitlist.py:412-424 | A page followed by the next one is the longer page: paging skips and repeats nothing |
| Reordering.ReorderTakesPermutations | backend/app/services/staff_waitlist.py:990-1010 | A reorder is accepted if and only if the request is a permutation of the day's live rows; a refusal changes nothing |
| Reordering.ReorderNumbersTheRequest | backend/app/services/staff_waitlist.py:1011-1013 | The k-th row named gets k and no other column or row changes |
| Reordering.QueueReadsBackAsRequested | backend/app/services/staff_waitlist.py:1014-1018 | The queue listed afterwards is the request |
| Reordering.RankIsPlaceInRequest | backend/app/services/waitlist.py:452-468 | Each WAITING row's waiting_ahead is the number of WAITING ids before it in the request |
| Days.NewestDayIsNewest | backend/app/services/staff_waitlist.py:544-560 | The last business date in text order is the chronologically newest day that has rows |
| Days.QueueDayIsClockElseNewest | backend/app/services/staff_waitlist.py:519-560 | The queue is read on the clock's day when it has rows or nothing does, otherwise on the newest day that has |
| Days.ReadDayIsQueueDay | backend/app/services/dashboard.py:120-142 | The dashboard reads the same day, unless the clock's day is empty and the fixture day has rows |
| Days.ReadDayExactly | backend/app/services/dashboard.py:120-142 | The dashboard reads the clock's day if it has rows or nothing does, else the fixture's day if it has, else the newest day that has |
| Days.FixtureInstant | backend/app/services/dashboard.py:76 | The fixture's instant is 13:00 on 10 September 2026 |
| Days.DayReadIgnoresStatuses | backend/app/services/dashboard.py:120-142 | Both days depend on the rows' dates alone |
| Closing.CloseDayExactlyTheDay | backend/app/routers/staff_waitlist.py:250-290 | WAITING and CALLED rows of the day are cancelled with CLOSED_DAY, SEATED ones done, no active table stays OCCUPIED, every other row and table is untouched |
| Closing.CountsAccountForTheDay | backend/app/routers/staff_waitlist.py:247-290 | cancelled plus done is the number of live rows the day had |
| Closing.CountsAreWhatChanged | backend/app/routers/staff_waitlist.py:247-290 | The three counts are the numbers of rows the close made CANCELLED, of rows it made DONE and of tables it changed |
| Closing.SecondCloseIsNothing | backend/app/routers/staff_waitlist.py:250-290 | A second close of the same day answers zeros and changes nothing |
| Closing.CloseKeepsTheDay | backend/app/routers/staff_waitlist.py:250-290 | Closing does not move the day a later close picks |
| Dashboard.ReadMovesExactlyTheExpired | backend/app/services/dashboard.py:380-406 | One read moves exactly the k expired calls of its day from called_count to no_show_today; other counters, other days and the day itself stay |
| Dashboard.StatusesPartitionTheDay | backend/app/services/dashboard.py:289-314 | The status counts of a day add up to its rows |
| Dashboard.StatusesPartitionTheFloor | backend/app/services/dashboard.py:317-334 | The table counts add up to the active tables |
| Dashboard.SeatedFitsOccupied | backend/app/services/dashboard.py:289-334 | With parties at OCCUPIED tables of their own, all in service, seated_count is at most occupied_table_count |
| Dashboard.SeatedFitsOccupiedOverRuns | backend/app/services/dashboard.py:289-334 | So on every day after every run that is careful and deactivates no OCCUPIED table |
| Dashboard.AverageBetween | backend/app/services/dashboard.py:337-363 | The truncated average lies between the least and the greatest stay |
| Dashboard.AverageIsTheMean | backend/app/services/dashboard.py:337-377 | The average is the sum of the whole minutes of the day's DONE rows with both stamps shared among them and cut off toward zero; there is none exactly when there is no such row |
| Dashboard.AverageIgnoresOrder | backend/app/services/dashboard.py:337-363 | The order of the rows does not matter to it |
| Dashboard.AverageNeverNegative | backend/app/services/dashboard.py:337-377 | Over every run with a clock that does not go back the average is never negative |
| Branch.Store.constructor | backend/app/models.py:178-216 | A bootstrapped branch: its settings, no rows, no tables |
| Branch.CountersShow | backend/app/services/dashboard.py:289-334 | Each counter shown is the number of the day's rows, or of the active tables, with its status |
| Branch.Store.FindLivePhone | backend/app/services/waitlist.py:353-377 | Finds a live row of the day with these digits if and only if there is one |
| Branch.Store.JoinWaitlist | backend/app/services/waitlist.py:380-445 | Refused when the queue is closed or the phone is live, else appends the ticket |
| Branch.Store.FindByTail | backend/app/services/waitlist.py:256-280 | Returns a row of the clock's day with this number and tail, or there is none |
| Branch.Store.ApplyLazyNoShow | backend/app/services/waitlist.py:497-518 | Flips the row exactly when its call is past its hold and writes nothing else |
| Branch.Store.ReadStatus | backend/app/services/waitlist.py:497-518 | A status read applies the lazy no-show to the row it reads |
| Branch.Store.CancelAsGuest | backend/app/services/waitlist.py:552-574 | WAITING or CALLED becomes CANCELLED with CUSTOMER, else refused |
| Branch.Store.NextUp | backend/app/services/waitlist.py:639-658 | A WAITING row of the day that none precedes, or none waits |
| Branch.Store.CallEntry | backend/app/services/staff_waitlist.py:684-701 | Calls a WAITING row, stamping it and the hold of the moment |
| Branch.Store.SeatEntry | backend/app/services/staff_waitlist.py:709-727 | Seats a WAITING or CALLED row on an AVAILABLE active table, both halves, with the source's order of refusals |
| Branch.Store.ReleaseHeldTable | backend/app/services/staff_waitlist.py:735-747 | Frees the row's own table and clears the reference |
| Branch.Store.Close | backend/app/services/staff_waitlist.py:750-757 | Writes the closing status and stamp and releases |
| Branch.Store.NoShowEntry | backend/app/services/staff_waitlist.py:760-771 | Closes a live row as NO_SHOW, else refused |
| Branch.Store.RestoreEntry | backend/app/services/staff_waitlist.py:774-795 | A NO_SHOW row waits again with call, hold and close cleared and its old position |
| Branch.Store.RevertEntry | backend/app/services/staff_waitlist.py:828-844 | A CALLED row waits again |
| Branch.Store.CancelAsStaff | backend/app/services/staff_waitlist.py:847-862 | Closes a live row as CANCELLED with STAFF, else refused |
| Branch.Store.EditEntry | backend/app/services/staff_waitlist.py:960-977 | Writes only the fields given, on WAITING or CALLED rows |
| Branch.Store.SweepExpired | backend/app/services/staff_waitlist.py:459-504 | The loop over the branch is the sweep of every row |
| Branch.Store.FindWanted | backend/app/services/staff_waitlist.py:262-358 | The pass over the rows collects the ids the filter asks for |
| Branch.Store.ListWaitlist | backend/app/services/staff_waitlist.py:361-424 | Sweeps, then answers the page of the filtered, ordered list and the size of the whole |
| Branch.Store.WriteOrders | backend/app/services/staff_waitlist.py:1011-1013 | The numbering loop gives each named row its place and changes no other |
| Branch.Store.ReorderQueue | backend/app/services/staff_waitlist.py:990-1018 | Accepts permutations, and the list it answers is the request |
| Branch.Store.CloseEntries | backend/app/routers/staff_waitlist.py:250-277 | The loop closes the day's live rows and counts the WAITING and CALLED against the SEATED it found |
| Branch.Store.CleanTables | backend/app/routers/staff_waitlist.py:278-288 | The loop turns over exactly the active OCCUPIED tables and counts them |
| Branch.Store.CloseTheDay | backend/app/routers/staff_waitlist.py:234-290 | Both loops together, with the counts of the state before |
| Branch.Store.SweepDay | backend/app/services/dashboard.py:254-271 | Sweeps the day and returns how many calls had run out |
| Branch.Store.TallyRows | backend/app/services/dashboard.py:302-314 | One pass counts the day's rows by status |
| Branch.Store.TallyTables | backend/app/services/dashboard.py:317-334 | One pass counts the active tables by status |
| Branch.Store.ReadDashboard | backend/app/services/dashboard.py:380-406 | Sweeps the read day first and counts what is then stored |
| Branch.Store.FindParty | backend/app/services/tables.py:530-537 | Finds the first SEATED row on the table, if there is one |
| Branch.Store.ReleaseTable | backend/app/services/tables.py:517-546 | Frees an OCCUPIED active table and closes the first party on it |
| Branch.Store.UpdateTableStatus | backend/app/services/tables.py:498-514 | Writes AVAILABLE or CLEANING over whatever status an active table has |
| Branch.Store.UpdateTableActive | backend/app/services/tables.py:349-353 | Writes is_active, whatever the status |
| Branch.Store.SoftDeleteTable | backend/app/services/tables.py:356-370 | Retires a table unless it is OCCUPIED |
| Branch.Store.AddTable | backend/app/services/tables.py:280-306 | Adds an AVAILABLE active table under a free label of 1 to 10 characters |
| Branch.Store.ChangeSettings | backend/app/services/settings.py:212-262 | Writes only the fields named among hold, prefix and open, within their bounds |
| Branch.Serve | backend/app/services/waitlist.py:380-445 | A bootstrapped store served any requests through its methods ends in the state of the run; its rows have their shapes and numbers, and with careful table work its parties their tables |
| MergeSafety.EventKeepsInv | extensions/merge_orchestrator.ts:47-148 | Each command of an attempt with any fate, each start, each restart where recovery advises, each recovery, each new branch commit and each move forward of the branch under a running attempt keeps the invariant linking checkpoint, main and origin/main |
| MergeSafety.RestartKeepsInv | skills/orchestrator/details/recovery.md:107-121 | A restart from the advised step finds what the commands from there rely on |
| MergeSafety.InvOverRuns | extensions/merge_orchestrator.ts:47-148 | The invariant holds after any sequence of attempts and restarts, each cut off anywhere; without restarts every merge is directly on top of the origin/main it was made for |
| MergeRuns.OriginHistory | extensions/merge_orchestrator.ts:104-124 | Over crash, recover and restart loops origin/main is where the last push put it, pushes chain end to end, and each pushed the merge_sha recorded on disk over the recorded pre_merge_sha with failed 0 |
| MergeRuns.BranchesArePublishedOnce | extensions/merge_orchestrator.ts:75-124 | Each push is a merge containing the one before, directly on top of it without restarts; a published branch stays contained and no later push brings in anything already contained |
| MergeRuns.ReturnsAreHonest | extensions/merge_orchestrator.ts:79-148 | A success means origin/main is the merge and no checkpoint is left; test_failed means main and origin/main are at pre_merge_sha; conflict means origin/main is there, no merge is begun, and without restarts main is there too |
| MergeRuns.RecoveryIsSound | extensions/recovery.ts:410-483 | For whatever checkpoint a run with restarts left: never MERGE_ABORT; a resume only where the recorded shas, main and origin/main meet that step's needs, for step 3 that main contains origin/main at pre_merge_sha; a rollback only of an unpublished merge whose tests failed; complete only when published |
| MergeGate.PassedBeforePublished | extensions/merge_orchestrator.ts:100-124 | Over crash, recover and restart loops, every push put on origin/main a merge that a test command of the run had been run over, on top of the origin/main it replaced, and that command ended well or printed that nothing failed |
| Merging.RunTestsTallies | extensions/merge_orchestrator.ts:156-178 | The counts on record are those printed and their sum, one failure when a failing command prints none, and none of them failed exactly when the command ended well or printed zero failures |
| MergeAttempt.Workspace.Prepare | extensions/merge_orchestrator.ts:59-73 | Steps 1 and 2 with the checkpoint updated in place are the first six commands of the protocol |
| MergeAttempt.Workspace.DryRun | extensions/merge_orchestrator.ts:75-90 | Step 3 with its inner catch is the dry run of the protocol |
| MergeAttempt.Workspace.MergeBranch | extensions/merge_orchestrator.ts:92-98 | Step 4 is the protocol's merge and checkpoint |
| MergeAttempt.Workspace.TestMerge | extensions/merge_orchestrator.ts:100-117 | Step 5 is the protocol's test, checkpoint and roll back |
| MergeAttempt.Workspace.Publish | extensions/merge_orchestrator.ts:119-140 | Steps 6 and 7 are the protocol's push, closure and removal of the checkpoint |
| MergeAttempt.Workspace.ExecuteMerge | extensions/merge_orchestrator.ts:47-152 | The procedure ends in the repository, checkpoint and result that driving the protocol command by command ends in, for every fate of every command |
| MergeAttempt.Workspace.RecoverMerge | extensions/recovery.ts:410-483 | Gives the advice for the checkpoint on disk, removes a closed one and leaves any other |
| MergeOutcomes.AttemptIsARun | extensions/merge_orchestrator.ts:47-148 | A whole attempt is a run of the protocol, so what holds over runs holds of it |
| MergeOutcomes.AttemptsAreHonest | extensions/merge_orchestrator.ts:47-148 | Whatever its commands meet, an attempt keeps the invariant, ends, and returns honestly |
| MergeOutcomes.AttemptExactly | extensions/merge_orchestrator.ts:47-148 | With every git command succeeding that can, the exact answer, refs, history and checkpoint: published if and only if the index is not unmerged, the branch is not yet in origin/main and the test command ended well or printed that nothing failed; the printed counts are on record |
| MergeOutcomes.FailedExitCanPublish | extensions/merge_orchestrator.ts:154-178 | A test command that exits with an error and prints zero failures is published |
| MergeOutcomes.StuckAtStepThree | extensions/merge_orchestrator.ts:75-90 | From step 3 with a merge in progress, or with the branch already on main, no fate of the commands leads past the dry run |
| MergeOutcomes.ResumeAtStepThreeExactly | extensions/recovery.ts:419-424 | For every linked `reset` checkpoint the advice "from step 3" leads to success, commands succeeding, if and only if no merge is in progress, main does not contain the branch and the tests pass; then origin/main is the new merge, else it stays |
| MergeOutcomes.RestartExactly | skills/orchestrator/details/recovery.md:107-121 | For the restart after any run, whatever the branch has become, commands succeeding: it returns, and it publishes from `fetched` if and only if the index is not unmerged, origin/main lacks the branch and the tests pass; from `reset` as above; from `merged` if and only if the tests pass; from `tested` if and only if the recorded result passed; from `pushed` always; main and origin/main are then that merge, and otherwise origin/main stays |
| MergeOutcomes.RefusedAttemptCannotResume | extensions/merge_orchestrator.ts:75-90 | An attempt on a published branch leaves a reset checkpoint over a clean main at origin/main, the advice "from step 3", and while the branch stays no restart there succeeds |
| MergeOutcomes.KilledAfterMerge | extensions/merge_orchestrator.ts:92-98 | A process killed between git merge and its checkpoint leaves a reset checkpoint, a moved main and the advice "from step 3" |
| MergeOutcomes.LostMergeNeedsANewStart | extensions/recovery.ts:419-424 | There, while the branch stays, no restart at step 3 succeeds, and a new attempt from step 1 does |
| MergeOutcomes.MovedBranchResumes | extensions/recovery.ts:419-424 | Once the branch has a further commit the restart at step 3 merges it on top of the lost merge and publishes both |
| MergeOutcomes.KilledInDryRun | extensions/merge_orchestrator.ts:75-90 | A process killed inside the dry run leaves the same advice; the next resumption at step 3 cannot publish and, its commands succeeding, reports a conflict and clears the merge, after which one more publishes if and only if the tests pass |
| MergeOutcomes.UnmergedStopsAttempts | extensions/merge_orchestrator.ts:59-66 | An unmerged index stops every new attempt at the checkout and leaves a fetched checkpoint |
| MergeOutcomes.BlockedForGood | extensions/merge_orchestrator.ts:59-66 | From there no sequence of attempts, restarts and recoveries moves main or origin/main or succeeds |
| MergeOutcomes.KilledInConflict | extensions/merge_orchestrator.ts:75-90 | A process killed between a conflicting dry run and its abort, followed by a new attempt, ends there; a restart at step 3 instead reports the conflict and cleans up |
| MergeStops.KilledAnywhere | extensions/merge_orchestrator.ts:59-140 | An attempt on an unpublished branch killed at any of its commands leaves exactly the refs, history, merge state and checkpoint that the commands before it made |
| MergeStops.FailsAnywhere | extensions/merge_orchestrator.ts:59-148 | One whose command fails there leaves the same and answers the step and phase it had entered and, from the merge on, the merge sha |
| MergeStops.KilledThenRestarted | extensions/recovery.ts:410-483 | Killed at any command and restarted as advised, the branch still there, it publishes if the tests it repeats pass, except when killed inside the dry run, between git merge and its checkpoint, or at the roll back |
| MergeStops.AdviceExactly | extensions/recovery.ts:410-483 | For every checkpoint whatsoever: when the advice is each resume, rollback, complete and abort; abort exactly when the recorded merge is missing from main after the merge or from origin/main after the push |
| MergeStops.RecoveryExactly | extensions/recovery.ts:468-474 | Recovery removes a closed checkpoint, leaves any other and writes nothing else |
| MergeStops.UnlinkIsRecovered | extensions/recovery.ts:468-474 | A process killed before the last unlink and then recovered leaves exactly the world of the same attempt uninterrupted, whatever its other commands met |
| RateLimit.SweepsExactlyTheClosed | backend/app/services/rate_limit.py:72-87 | The sweep keeps exactly the counters whose window is open, with their counts and windows |
| RateLimit.TrimsTheOldest | backend/app/services/rate_limit.py:94-100 | The eviction loop ends, at the cap, having dropped the oldest entries and nothing else |
| RateLimit.OneHit | backend/app/services/rate_limit.py:89-100 | From a store within a positive cap one hit evicts at most one open counter, the first in order and never the one counted, which stays exactly when its own window is still open at the sweep |
| RateLimit.FrozenClockKeepsTheHit | backend/app/services/rate_limit.py:38-47 | With a clock that stands still and a positive expiry the hit is always on record afterwards |
| RateLimit.CapHolds | backend/app/services/rate_limit.py:29-100 | After any sequence of hits both dicts hold the same keys and at most cap of them |
| RateLimit.CountersAreExact | backend/app/services/rate_limit.py:89-100 | Every counter on record is the sum of its increments since the hit that opened it |
| RateLimit.OnRecordSince | backend/app/services/rate_limit.py:89-100 | And it was on record after every hit since |
| RateLimit.EntriesAreOldestFirst | backend/app/services/rate_limit.py:94-100 | The order of the expirations is the order in which the counters were opened |
| RateLimit.EvictsTheOldest | backend/app/services/rate_limit.py:94-100 | What a hit evicts was opened before every counter it leaves |
| Windows.OpensExactly | backend/app/services/rate_limit.py:38-47 | A hit opens a window exactly when no window of its key is open at the time it is read |
| Windows.AnswersTheTotal | backend/app/services/rate_limit.py:89-92 | A hit is answered the sum of its key's amounts since that window opened, its own included, even if the counter is then evicted |
| Windows.WindowsAreExact | backend/app/services/rate_limit.py:89-100 | The window of every counter on record ends its expiry after the clock reading of the hit that armed it |
| Windows.ArmedAtTheOpening | backend/app/services/rate_limit.py:89-100 | With positive amounts that is the hit that opened it |
| CounterStore.Counters.Sweep | backend/app/services/rate_limit.py:83-87 | The loop over a snapshot of the keys drops exactly the closed counters from both dicts |
| CounterStore.Counters.EnforceCap | backend/app/services/rate_limit.py:94-100 | The while loop ends and leaves the swept store trimmed to the cap |
| CounterStore.Counters.Incr | backend/app/services/rate_limit.py:89-92 | One hit, answering the count before the cap is enforced |
| Scheduler.ComputePriority | extensions/slot_manager.ts:44-66 | The accumulated score, hours and floor included, is twice direct plus transitive plus critical plus whole days waited beyond one |
| Scheduler.ScoreExactly | extensions/slot_manager.ts:44-66 | The score is two per direct dependent, one per transitive one, one for the critical path and one per whole day waited, none up to 24 hours |
| Scheduler.Ageing | extensions/slot_manager.ts:57-63 | If b's static score leads a's by at most B and a has waited more than 24(B+1) hours longer, a's priority is strictly higher |
| Scheduler.ComparatorIsAnOrder | extensions/slot_manager.ts:72-93 | The comparator is antisymmetric and transitive |
| Scheduler.IdsBreakTies | extensions/slot_manager.ts:72-93 | Where the locale tells the ids apart no two issues tie |
| Scheduler.SortReadySorts | extensions/slot_manager.ts:72-93 | The sorted list is a permutation of the ready issues in comparator order |
| Scheduler.AnySortGivesThisOrder | extensions/slot_manager.ts:72-93 | Without ties every sort by the comparator gives the same order |
| Scheduler.AssignSlots | extensions/slot_manager.ts:99-139 | The loop computes the greedy assignment, or throws where it does |
| Scheduler.GreedyExactly | extensions/slot_manager.ts:118-139 | The assignment is the first eligible issues, as many as there are slots; it throws if and only if a closed issue comes up before the slots are full |
| Scheduler.QueueIsTheEligibleSorted | extensions/slot_manager.ts:115-130 | The eligible queue is a sorted permutation of exactly the eligible ready issues |
| Scheduler.AssignsTheFrontOfTheQueue | extensions/slot_manager.ts:99-139 | Slots go to the front of that queue: never more than are free, all free ones or the whole queue, no builder under a pause, nobody ahead of a better one |
| Scheduler.AssignmentsSuit | extensions/slot_manager.ts:125-175 | The k-th slot goes to the k-th issue of the queue: definer for ungroomed, verifier for verified or built without a fixing label, builder for the rest; the phase by the first of the three labels; with its score |
| Scheduler.QueueServesInOrder | extensions/slot_manager.ts:72-139 | Nobody is ahead of an issue of higher priority, nor among equals of an older one, then of a smaller one, then of one with a lower id |
| Scheduler.PauseDelaysOnlyBuilders | extensions/slot_manager.ts:111-130 | A pause takes exactly the builder work out of the queue, order intact, and whoever else gets a slot without it gets one under it |
| Scheduler.AgedIssueIsServedFirst | extensions/slot_manager.ts:57-139 | An eligible issue that has waited long enough precedes a stronger one with a shorter wait, so it is never passed over for it |
| Routes.ReachablePaths | backend/app/main.py:540-556 | The worklist ends although it pushes nested routes twice, and finds exactly the paths of the route forest |
| Routes.PathsExactly | backend/app/main.py:540-556 | Those are the paths of the routes listed or hanging below one, by its routes or its included router, at any depth |
| Routes.InclusionServesTheRouter | backend/app/main.py:533-537 | Including a router adds exactly its paths and loses none |
| Routes.MountCheckPasses | backend/app/main.py:534-537 | Every path of a router just included is among the paths the mount check looks it up in |
| Routes.ResolveRouteHandler | backend/app/main.py:299-325 | The recursive loop finds the last endpoint of the flattened depth-first list whose whole chain matches |
| Routes.MatchesUnder | backend/app/main.py:314-325 | Containers above a list of routes let all of its matches through or none |
| Routes.LastRouteWins | backend/app/main.py:309-311 | A route appended at the top level prices every request it matches and no other |
| Routes.DeadRoutesPriceNothing | backend/app/main.py:302-325 | A route that does not match, or has neither endpoint nor router, changes no handler; without routes there is none |
| Routes.MountedRoutesArePriced | backend/app/main.py:302-311 | A request a mounted container matches lands where its own router does whenever that router has a match |
| PhoneMask.MaskShowsExactly | backend/app/schemas.py:263-328 | For any string, exactly which digits the mask leaves: all below seven digits or when already marked; the first and last group of three or more; else the last three |
| PhoneMask.WideMaskText | backend/app/schemas.py:310-321 | With three groups or more the mask is the number with three stars from the second group to the last but one |
| PhoneMask.CompactMaskText | backend/app/schemas.py:322-328 | With fewer it is a star for every digit but the last three, and those |
| PhoneMask.ShortMaskText | backend/app/schemas.py:399-408 | The status field's masks are three stars and the last three digits |
| PhoneMask.GroupsAreTheRuns | backend/app/schemas.py:292-309 | The groups are the maximal runs of digits from the left, and every digit is in one |
| PhoneMask.AcceptedIsSpelled | backend/app/schemas.py:31-51 | An accepted number is 09 and two digits, three, three, or 02, four, four, a hyphen or nothing at each joint and at most a newline at the end |
| PhoneMask.SpelledIsAccepted | backend/app/schemas.py:31-51 | And every number so spelled is accepted |
| PhoneMask.MaskIsIdempotent | backend/app/schemas.py:292-328 | Masking again changes nothing, on every string |
| PhoneMask.TailSurvivesExactly | backend/app/schemas.py:274-276 | On every string the last three digits survive if and only if nothing is hidden, there are fewer than three groups, the last group has three digits, or the first group ends like what precedes the last |
| PhoneMask.ShortLastGroupLosesTheTail | backend/app/schemas.py:310-321 | 1235-645-7 shows 357 and its last three digits are 457 |
| PhoneMask.AcceptedIsMasked | backend/app/schemas.py:31-51 | Every accepted number has ten digits, keeps its last three and loses at least three |
| PhoneMask.HyphensSurvive | backend/app/schemas.py:278-281 | With both separators the mark stands for the middle block alone |
| PhoneMask.StatusChain | backend/app/schemas.py:399-408 | The status answer's three masks together give what mask_last3 gives, on every string |
| PhoneMask.StatusOfStoredPhone | backend/app/schemas.py:399-408 | Given the stored form of an accepted number instead, the field's validators answer the same |

## Left out

- Row and table ids are positions in insertion order; uuids, their parsing and their text forms are not modelled.
- `updated_at`, the model defaults and the onupdate hooks: no rule reads them.
- Status tokens and lookups by token: only the lookup by phone tail is modelled.
- Several branches, a missing branch row or settings row, and time zones other than a fixed offset (no daylight saving); instants keep two days clear of the ends of the datetime range.
- Characters: digits are the ASCII ones, whitespace is codes 9 to 13 and 28 to 32, and lower-casing maps A to Z; the original also knows the other Unicode digits, spaces and letters.
- SQLite: locking, the STORE_BUSY answer, sessions and rollbacks. Each commit is one atomic update; the sweep's row-by-row commits are the exception (`Sweeps.InterruptedSweepConverges`).
- Ties between equal sort_order and created_at in the list are broken by insertion order, where the original leaves them to the database.
- The parsing of the list's status names; the board's recent_calls, current_called and hours; estimated_wait_minutes.
- Branch.Store.AddTable: models the label alone; capacity, section and sort_order have columns and bounds of their own, and renaming and the table responses are not modelled.
- Branch.Store.ChangeSettings: covers the hold, the prefix and the open flag, which the queue rules read, of the twelve writable fields.
- Join-time bounds on name, party size and note, and the HTTP bodies around every operation.
- Resetting and seeding data.
- Merge: git's own storage and conflicts are reduced to commits with parents, two refs and MERGE_HEAD; a command that takes effect and still reports failure, other writers of main or origin/main, a branch forced backwards between the dry run and the merge, git failing under recovery, checkpoints with an unknown state, and the text rewriting of closure are not modelled.
- MergeRuns.RecoveryIsSound: for the advice "from step 3" leaves open whether main has moved past origin/main and whether a merge is in progress, because both happen; MergeOutcomes.RestartExactly states when the advice works.
- MergeOutcomes.AttemptExactly: and the other lemmas about whole attempts take the branch to stay where it is from the dry run to the merge, as MergeAttempt.Workspace.ExecuteMerge does; the lemmas over runs let it move forward at any moment.
- `sortMergeQueue`, fix branches, slot recovery and the rest of `recoverState`.
- RateLimit.SweepsExactlyTheClosed: covers the fixed-window counters; the moving-window event lists and the per-key locks that `_sweep` also clears are not modelled, the limiter being built on the fixed window.
- Rate limiting: the library's `get`, `incr` and `clear` are modelled by their documented effect, and clock readings are whole ticks rather than floats.
- Client keys and trusted proxies.
- Scheduler: one clock reading serves a whole sort, ids compare by a locale's rank rather than by localeCompare itself, and timestamps are milliseconds; adjustPauseThreshold, detectStarvation and checkSlotLiveness are not modelled.
- Routes: matching is membership in the set of requests a route answers in full; an endpoint attribute is always a handler.
- Authentication, middleware, logging, the front end and the launcher scripts.
