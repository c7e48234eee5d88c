# Vendly front end: verified core

A Dafny model of the logic under Vendly's website: the session refresh that many tabs and many
requests compete for, custom payment plans, the typing indicator, a vendor's working hours, suggested
changes and customizations, and three arithmetic helpers (map tiles, page buttons, travel fee). Where
the API repeats a check (payment plans, customizations, suggested times), the API's check is modelled
too, and what the forms let through is proved against it.

`dafny verify dfyconfig.toml` checks everything.

## How it is laid out

| files | what they hold |
|---|---|
| `Session`, `RefreshProtocol` | the readable cookies; Fetch.ts as a labelled transition system over any number of tabs and requests. A label is one uninterrupted stretch of script or one answer of the network; labels interleave freely |
| `RefreshInvariant`, `RefreshSafety`, `RefreshProgress`, `RefreshExamples` | what every step keeps; what holds in every run, from any page load (logged in, logged out, or with an old session); no run gets stuck or goes on for ever; runs that show how far the promises go |
| `BrowserSession` | Fetch.ts in its own form, module variables set and cleared by methods, proved to do to the state exactly what the transition system says |
| `Arithmetic`, `Rounding`, `PaymentPlan`, `PlanProofs`, `PlanEditor`, `ServerPlan` | the plan helpers and validator; what they promise together; the editor's buttons and guards; the API's check |
| `Typing`, `TypingProtocol` | sender and viewer as classes; both on one clock |
| `WorkingHours`, `HoursProofs`, `OpenDays`, `HoursSummary` | lists of times, the remembered open days, the weekly summary |
| `Text`, `PackageOptions`, `ServerOptions`, `Choices`, `RequestChanges`, `ServerProposal` | the customization form, its API side, a customer's picks, the vendor's draft of changes and what the API makes of it |
| `MapTiles`, `Pagination`, `TravelFee` | the arithmetic helpers |

Code that works step by step in the source is a method with its loop, or a class, tied by its `ensures`
to a function; the properties are lemmas about that function. Money is exact, a time of day is a number
of minutes, a day is a day number, and a time zone is a fixed number of minutes.

## Where the code does less than it says

Each of these is proved: by an input that shows it, by the exact condition under which the promise holds,
or by both.

- Without the lock API, one expiry can rotate the refresh token twice: a second 401 that arrives after
  the first refresh has ended starts another, since nothing is replayed first
  (`RefreshExamples.WithoutLocksRenewalsExceed`).
- With the lock, two tabs that both find an old session each refresh for it, with no token expired
  (`RefreshExamples.MigrationsRotateOnTheirOwn`); if the session is revoked in between, the second one forgets
  the login although no request was refused (`RefreshExamples.MigrationCanForgetTheLogin`). Tokens rotate no
  more often than they expire exactly from a page load with the lock API and nothing to move over
  (`RefreshExamples.WhenRenewalsStayWithinExpiries`).
- The plan editor's last day is compared by calendar day, but charges are made at 9 AM: when the API's limit
  falls before 9 AM, the editor accepts a last day the API refuses. That happens to a pay-after-service
  booking that ended before 9 AM, and to a booking without a date whose plan is made before 9 AM
  (`ServerPlan.LastDayCanBeRefused`, `ServerPlan.UndatedLastDayCanBeRefused`; exactly when:
  `ServerPlan.PlanUnderLimitAccepted`).
- The typing indicator stays up for keys at most 3 seconds apart; at 3.001 it can drop while typing goes on
  (`TypingProtocol.OneMillisecondMoreDrops`). For any three times the window is exactly expire − throttle
  (`TypingProtocol.WindowIsExact`).
- The memory of open days is keyed by the vendor's zone and the day, not by the viewer's own clock: a page
  that stays open through a change of clock repeats the old answer (`OpenDays.StaleAfterTravel`). It can be
  shared exactly between devices whose clocks agree (`OpenDays.MemoryIsSharedByClock`).
- A day in the viewer's own zone counts as open even when its opening is shorter than one step, so it
  offers no start (`OpenDays.ShortOpeningHasNoStart`, `OpenDays.GreyMeansNothingFits`).
- Free miles that are not a whole number are not always free: rounding up can pass them
  (`TravelFee.FreeMilesCanCost`, `TravelFee.FreeMilesAreFreeExactly`). The API keeps whole ones, which are.
- New filters are meant to show page 1. When the list also shrinks below the current page, the guard against
  a page out of bounds has the last word and the last page is shown (`Pagination.ResetCanShowTheLastPage`,
  `Pagination.ResetGoesToPageOne`).
- The API is meant to move the end as the editor does when only the start is sent. It does, unless the
  request's start had no time of day while its scheduled moment did, or the request had an end and no start
  (`ServerProposal.MovedEndIsProposed`, `ServerProposal.UnsetTimeMovesApart`, `ServerProposal.NoStartMovesApart`).
- The editor's check of the times is not always enough for the API's "end after start". It is, for every draft,
  exactly when the request itself ends after it starts and its start has its time of day
  (`ServerProposal.ValidDraftsAllTaken`). A request scheduled without a time of day, and one from 10:00 to 10:00,
  which the booking form lets through, can be refused (`ServerProposal.UnsetTimeCanBeRefused`,
  `ServerProposal.NoLengthCanBeRefused`).
- Clearing the date and picking another leaves the end on screen behind while the API moves it
  (`RequestChanges.ClearingLeavesTheEnd`, `ServerProposal.ClearedDateMisleads`).
- The editor has no upper bound on guests, and lets a travel fee be off a whole cent by a millionth of one; the
  API refuses more than 100,000 guests and more than two decimals (`ServerProposal.GuestsProposed`,
  `ServerProposal.FeeProposed`, `ServerProposal.GuestsAndFeeCanBeRefused`).
- A choice kept from a request counts as an answer in the form even when its option is no longer offered, and is
  not sent: the API then refuses a required customization (`Choices.WithdrawnChoiceRefused`; exactly when:
  `Choices.PayloadTaken`).

## Model

| member | source | states |
|---|---|---|
| RefreshSafety.OneRefreshAtATime | Front-End/lib/Fetch.ts:48-72 | in every run from any page load, two refresh calls in flight are the same call: one in the whole browser with the lock, one per tab without it |
| RefreshSafety.RenewalsArePaidFor | Front-End/lib/Fetch.ts:128-157 | with the lock, in every run, rotations never exceed expiries plus 401s the API gave to a good token plus tabs that migrated |
| RefreshSafety.RenewalsNeverExceedExpiries | Front-End/lib/Fetch.ts:136-157 | with nothing left to migrate, no readable token handed out (logins into cookies allowed) and every 401 meaning "expired", tokens rotate no more often than they expire, whatever the interleaving |
| RefreshSafety.LegacyTokensGoForGood | Front-End/lib/Fetch.ts:22-46 | unless an answer hands out readable tokens, the old ones only ever go, and one renewal takes both for good |
| RefreshSafety.OffersCurrentToken | Front-End/lib/Fetch.ts:22-29 | whoever makes it (request, migration or tab), a refresh call offers exactly the readable refresh token of the moment it starts, and keeps what it took |
| RefreshSafety.RefreshLeaves | Front-End/lib/Fetch.ts:30-45 | what each answer leaves readable: exactly the body's tokens, nothing once the HttpOnly cookies take over, everything but a refused token, or all there was |
| RefreshSafety.LoginLeaves | Front-End/lib/session.ts:44-53 | a login leaves its readable tokens if it has any, and otherwise the flag alone |
| RefreshSafety.MigratesOnce | Front-End/lib/Fetch.ts:74-81 | a tab's migration only goes forward: it starts at a request that finds a readable refresh token, and ends as its refresh call did |
| RefreshSafety.WaitsForOldSession | Front-End/lib/Fetch.ts:100-103 | a request or its last replay waits for the migration if and only if it is not `_skipAuthRefresh` and an old session is readable, and then its tab's migration is under way or done |
| RefreshSafety.CallerGetsItsAnswer | Front-End/lib/Fetch.ts:128-172 | in every run a finished request gave its caller what one request read alone would give (first answer, early replay, its own error, or the last replay), was sent at most 3 times, started at most one refresh, and none if the early replay settled it; "Bearer undefined" never goes out |
| RefreshSafety.LoginForgottenOnlyWhenSessionEnds | Front-End/lib/Fetch.ts:149-168 | a run that loses the login has a step that ended the session: the API refused the HttpOnly cookie (to a request or a migration), or a request's refresh failed, or its last replay got 401; never a `_skipAuthRefresh` request |
| RefreshSafety.EndingForgetsEverything | Back-end/src/modules/auth/auth.controller.ts:702-710 | a step loses the login if and only if it is one of those, and then no readable cookie is left |
| RefreshSafety.SendsCurrentLogin | Front-End/lib/Fetch.ts:100-126 | what every sending carries: the replay under the lock the current login, a request that waited for the migration too unless it carried none, any other what it was built with, an empty Bearer dropped |
| RefreshExamples.WithoutLocksRenewalsExceed | Front-End/lib/Fetch.ts:65-67 | without the lock API, from an expired or a good token, a run of two requests rotates twice for one expiry |
| RefreshExamples.MigrationsRotateOnTheirOwn | Front-End/lib/Fetch.ts:74-81 | the bound on rotations is met: two tabs moving one old session rotate twice with no expiry |
| RefreshExamples.WhenRenewalsStayWithinExpiries | Front-End/lib/Fetch.ts:48-81 | from a page load, every run in which a 401 means "expired" and no readable token is handed out keeps rotations within expiries, if and only if there is the lock API and no old session |
| RefreshExamples.MigrationCanForgetTheLogin | Back-end/src/modules/auth/auth.controller.ts:702-710 | the second of two migrations, refused, forgets the login while no request has ended it |
| RefreshInvariant.InitInv | Front-End/lib/Fetch.ts:48-75 | a page load starts in a state the invariant holds of |
| RefreshInvariant.KeepsLock | Front-End/lib/Fetch.ts:65-72 | every step keeps: the queue is exactly who waits for the lock, once each, and the holder exactly who acts under it |
| RefreshInvariant.KeepsTabs | Front-End/lib/Fetch.ts:48-53 | every step keeps: a tab's pending refresh is exactly the one in its `refreshing` slot |
| RefreshInvariant.KeepsRequests | Front-End/lib/Fetch.ts:128-172 | every step keeps, phase by phase, what a request was told, how often it was sent and whether it refreshed |
| RefreshInvariant.KeepsCredit | Front-End/lib/Fetch.ts:136-157 | every step keeps the account of rotations against expiries, wrong refusals and migrations |
| RefreshInvariant.KeepsInv | Front-End/lib/Fetch.ts:22-172 | every step of every tab keeps the whole invariant |
| RefreshInvariant.RunKeepsInv | Front-End/lib/Fetch.ts:22-172 | so does every run |
| RefreshProgress.LockMoves | Front-End/lib/Fetch.ts:65-72 | while anybody holds or awaits the lock, some step can be taken: nothing sent under the lock waits for it |
| RefreshProgress.RequestMoves | Front-End/lib/Fetch.ts:100-103 | for any unfinished request there is a step to take: no wait cycle among lock, migration and refresh |
| RefreshProgress.NeverStuck | Front-End/lib/Fetch.ts:22-172 | in no run does everything wait: until all requests are done, a step of the protocol is enabled |
| RefreshProgress.StepCosts | Front-End/lib/Fetch.ts:132-157 | every step of the protocol strictly lowers a measure of the state |
| RefreshProgress.StepsAreBounded | Front-End/lib/Fetch.ts:132-157 | from any sound state, steps taken plus steps left never exceed those there were plus 16 per request started |
| RefreshProgress.RunsAreShort | Front-End/lib/Fetch.ts:132-157 | in every run the protocol takes at most 16 steps per request started |
| RefreshProgress.Drain | Front-End/lib/Fetch.ts:22-172 | from any sound state the protocol's own steps, with no new call, login or expiry, finish every request |
| BrowserSession.Browser.constructor | Front-End/lib/Fetch.ts:48-75 | a page load with any cookies, its module variables unset |
| BrowserSession.Browser.Step | Front-End/lib/Fetch.ts:22-172 | any step of any tab moves the variables exactly as the transition system says, and keeps the invariant |
| PaymentPlan.RowError | Front-End/lib/payment-plan.ts:92-110 | null exactly when the row passes on its own and against the date before; otherwise the first thing wrong with that row |
| PaymentPlan.PlanError | Front-End/lib/payment-plan.ts:84-114 | null exactly for a valid plan (2 to 12 rows, floors, only the first undated, dates pairwise increasing, after today, not past the latest, exact sum); otherwise the first thing wrong with the first row that has something wrong, or by how much the sum is out |
| PlanProofs.SplitPart | Front-End/lib/payment-plan.ts:34-40 | each part of a split in cents: equal, the odd cents on the first |
| PlanProofs.EvenRowsPlaceEverything | Front-End/lib/payment-plan.ts:61-66 | "Split evenly" leaves nothing to place, all payments equal but a first larger by fewer cents than there are payments; keys and given dates stay |
| PlanProofs.AddRowTakesTheRest | Front-End/lib/payment-plan.ts:68-79 | "Add payment" appends one row: nothing is left to place, a plan that was over stays exactly as much over, and its row is empty |
| PlanProofs.AddedDate | Front-End/lib/payment-plan.ts:68-74 | the new row's date is a week after the last row that has one, or there is none |
| PlanProofs.AddRowKeepsDates | Front-End/lib/payment-plan.ts:68-74 | a payment added comes a week after the last, and good dates stay good if and only if that day is allowed |
| PlanProofs.OffsetsStepUp | Front-End/lib/payment-plan.ts:43-48 | with a day for each date, the rounded spread is strictly increasing |
| PlanProofs.OffsetsStayInside | Front-End/lib/payment-plan.ts:43-48 | rounding never leaves the span, and the last date is its end |
| PlanProofs.EvenDatesAreSpread | Front-End/lib/payment-plan.ts:42-48 | each date is the whole day nearest to its even share of the days from tomorrow to the last (30 for each payment when there is no last) |
| PlanProofs.EvenGapsAreEven | Front-End/lib/payment-plan.ts:42-48 | so no two gaps between neighbouring dates differ by more than a day |
| PlanProofs.EvenDatesEndWithoutLatest | Front-End/lib/payment-plan.ts:44 | without a latest day the last payment falls 30 days for each payment from now |
| PlanProofs.OffsetsCollide | Front-End/lib/payment-plan.ts:43-48 | with fewer days than dates, two dates coincide |
| PlanProofs.EvenDatesEndOnLatest | Front-End/lib/payment-plan.ts:43-48 | the last payment falls exactly on the last day allowed |
| PlanProofs.EvenPlanAccepted | Front-End/lib/payment-plan.ts:61-114 | "Split evenly" on undated rows passes the validator if and only if the row count is allowed, the equal amounts meet the floors, and there is a day for each date |
| PlanProofs.EvenPlanOfDatedAccepted | Front-End/lib/payment-plan.ts:61-114 | on a plan with all its dates, "Split evenly" passes if and only if count and amounts fit and the dates, which it leaves alone, were good |
| PlanProofs.EnoughMoneyAndDays | Front-End/lib/payment-plan.ts:61-114 | for undated rows, in particular with fee plus $50 for each of 2 to 12 payments and a day each |
| PlanProofs.StartingPlanAccepted | Front-End/lib/payment-plan.ts:50-59 | the starting plan passes exactly when its halves fit and its date is not past the latest |
| PlanProofs.StartingDates | Front-End/lib/payment-plan.ts:50-59 | the first payment has no date; the second falls a week before the event's day, or in 30 days, never before tomorrow |
| PlanProofs.DueOnItsDay | Front-End/lib/payment-plan.ts:120-127 | a charge is made at 9 AM of its day; on the event's day at 9 AM or the start, whichever is earlier |
| PlanProofs.PayloadInOrder | Front-End/lib/payment-plan.ts:116-129 | a valid plan's charges are its rows' amounts, in the future, strictly in order, each on its day, and never after an event they must precede |
| ServerPlan.CheckCustomPlan | Back-end/src/modules/payments/custom-plan.ts:116-174 | the API takes exactly the acceptable plans and stores each payment at its time for its own amount, cent for cent, summing to what is owed, with the fee on the first only |
| ServerPlan.StoredAsEdited | Back-end/src/modules/payments/custom-plan.ts:116-174 | what is stored is the editor's rows, amount by amount and date by date, and the first covers the fee and $50 |
| ServerPlan.FeeIsWhatIsOwed | Back-end/src/modules/payments/custom-plan.ts:124 | the fee stored is the fee owed to the cent, and never negative |
| ServerPlan.EditorPlanAccepted | Back-end/src/modules/payments/custom-plan.ts:116-174 | a plan the editor accepted is taken by the API if and only if every charge is due by the API's limit |
| ServerPlan.PlanBeforeEventAccepted | Back-end/src/modules/payments/custom-plan.ts:101-108 | with the event start as the latest, the API takes every plan the editor accepts |
| ServerPlan.PlanUnderLimitAccepted | Back-end/src/modules/payments/custom-plan.ts:101-108 | for any booking, with the API's limit shown in the editor, only a charge at 9 AM on the very last day can be refused: exactly when it is past the limit |
| ServerPlan.LastDayCanBeRefused | Back-end/src/modules/payments/custom-plan.ts:101-108 | a booking paid after service and ending at 2 AM: accepted by the editor, refused by the API |
| ServerPlan.UndatedLastDayCanBeRefused | Back-end/src/modules/payments/custom-plan.ts:101-108 | a booking without a date, planned at 8 AM with a payment in 365 days: likewise |
| PlanEditor.WithoutOne | Front-End/components/bookings/PaymentPlanEditor.tsx:74-78 | removing takes out the one payment with the key and keeps the others in order |
| PlanEditor.EditKeeps | Front-End/components/bookings/PaymentPlanEditor.tsx:32-91 | no guarded edit leaves the range of 2 to 12 payments or makes two keys the same |
| PlanEditor.OfferedWithinBounds | Front-End/components/bookings/PaymentPlanEditor.tsx:74-93 | a button is off exactly when it would leave fewer than 2 payments or more than 12 |
| PlanEditor.EvenOutAccepted | Front-End/components/bookings/PaymentPlanEditor.tsx:83 | the button spreads undated rows up to the latest day on screen: accepted if and only if amounts and days fit |
| PlanEditor.AddKeepsDates | Front-End/components/bookings/PaymentPlanEditor.tsx:86-93 | the button keeps good dates good if and only if a week after the last is allowed |
| PlanEditor.AmountMovesTheSum | Front-End/components/bookings/PaymentPlanEditor.tsx:32-59 | an amount typed in changes one row, and the sum by exactly the difference |
| PlanEditor.DateMovesNoMoney | Front-End/components/bookings/PaymentPlanEditor.tsx:61-72 | a date changes one row and no sum |
| PlanEditor.RemovingFreesItsAmount | Front-End/components/bookings/PaymentPlanEditor.tsx:74-78 | a payment removed leaves exactly its amount to place again |
| PlanEditor.Editor.constructor | Front-End/lib/payment-plan.ts:50-59 | the editor opens on the starting plan, with nothing left to place |
| PlanEditor.Editor.Apply | Front-End/components/bookings/PaymentPlanEditor.tsx:32-96 | the rows after any click, offered or not; "Split evenly" leaves 0 to place, "Add payment" leaves min(what was left, 0) |
| PlanEditor.Editor.Run | Front-End/components/bookings/PaymentPlanEditor.tsx:28-100 | a list of clicks leaves the rows of the session the next row speaks of |
| PlanEditor.SessionKeeps | Front-End/components/bookings/PaymentPlanEditor.tsx:28-100 | after any sequence of clicks the list has 2 to 12 payments and distinct keys |
| Typing.TypingEmitter.constructor | Front-End/components/chat/presence.ts:32-36 | starts at rest with nothing sent |
| Typing.TypingEmitter.Stop | Front-End/components/chat/presence.ts:37-43 | back at rest; "stopped" is sent only if "typing" was the last thing said |
| Typing.TypingEmitter.Input | Front-End/components/chat/presence.ts:45-54 | sends "typing" unless one went out within the throttle, and restarts the idle timer; the log stays spaced: never two stops in a row, no stop first, two "typing" at least the throttle apart |
| Typing.TypingUsers.Drop | Front-End/components/chat/presence.ts:78-86 | one typist and their timer are gone, the others stay |
| Typing.TypingUsers.OnTyping | Front-End/components/chat/presence.ts:87-92 | shows the other person and restarts their timer; another conversation or oneself changes nothing; every name shown has a timer |
| Typing.TypingUsers.OnStopped | Front-End/components/chat/presence.ts:93-95 | drops the typist, in this conversation only |
| Typing.TypingUsers.OnMessage | Front-End/components/chat/presence.ts:96-99 | a message from somebody drops their indicator |
| TypingProtocol.KeepsInv | Front-End/components/chat/presence.ts:32-112 | every key, stop, timer and event keeps the joint invariant of sender and viewer, for any three times |
| TypingProtocol.ShownWhileTyping | Front-End/components/chat/presence.ts:32-92 | in every run the viewer sees "typing" for expire − throttle after each key, unless the typist stopped by hand |
| TypingProtocol.GoneWhenDone | Front-End/components/chat/presence.ts:37-99 | in every run the indicator is gone once idle time has passed since the last key, or expire time if the stop was lost, and at once after a stop that arrived |
| TypingProtocol.SendDrops | Front-End/components/chat/presence.ts:96-99 | a message that lands takes the indicator down even if the "stopped" before it was lost |
| TypingProtocol.HearingIs | Front-End/components/chat/presence.ts:87-99 | an event shows or drops the one user it concerns, under the name sent, and changes nothing of anybody else |
| TypingProtocol.UsualTimes | Front-End/components/chat/presence.ts:8-10 | with the source's times: 3 s between keys, gone after 4 s, or 5 s |
| TypingProtocol.JustTooLongDrops | Front-End/components/chat/presence.ts:32-112 | for any three times, a run whose last gap is one millisecond past expire − throttle and drops the indicator |
| TypingProtocol.WindowIsExact | Front-End/components/chat/presence.ts:32-112 | every run shows the typist for a window after each key, unless stopped by hand, if and only if the window is at most expire − throttle |
| TypingProtocol.OneMillisecondMoreDrops | Front-End/components/chat/presence.ts:8-10 | 3 s is the most: a run of two keys with a gap of 3.001 s where the indicator drops while typing goes on |
| TypingProtocol.ClockMoves | Front-End/components/chat/presence.ts:53-92 | time never gets stuck: a timer is due now, or the clock can move |
| WorkingHours.FitsIsContainment | Front-End/lib/working-hours.ts:111-129 | the day-by-day test is exactly containment of the booking in one of the vendor's openings on the absolute time line, a 24:00 closing admitting the next midnight |
| WorkingHours.ConvertedTimes | Front-End/lib/working-hours.ts:131-147 | the loop gives exactly the grid times that fit, or nothing when the zone is the viewer's own or cannot be read |
| WorkingHours.StartTimesOn | Front-End/lib/working-hours.ts:184-201 | which of the two paths answers, and what it gives |
| WorkingHours.EndTimesOn | Front-End/lib/working-hours.ts:203-215 | likewise for ends, an empty list when there is no start |
| HoursProofs.ConvertedStartsAreExact | Front-End/lib/working-hours.ts:189-195 | a start is offered if and only if it is on the grid, within the day, and its booking lies in an opening of the vendor's |
| HoursProofs.ConvertedEndsAreExact | Front-End/lib/working-hours.ts:204-209 | an end is offered if and only if it is later on the grid, up to midnight, and keeps the booking in an opening |
| HoursProofs.LocalStartsAreExact | Front-End/lib/working-hours.ts:196-200 | on the local path a start is offered if and only if it is on the grid from opening and the shortest booking ends by closing |
| HoursProofs.LocalEndsAreExact | Front-End/lib/working-hours.ts:210-214 | on the local path an end is offered if and only if it is on the grid after the start, up to closing |
| HoursProofs.TimesIncrease | Front-End/lib/working-hours.ts:189-215 | on either path the times come in order, none twice |
| HoursProofs.PathsAgree | Front-End/lib/working-hours.ts:189-201 | on one clock, with opening on the grid and the minimum at least a step, the converting path and the local loop give the same starts |
| HoursProofs.EndPathsAgree | Front-End/lib/working-hours.ts:204-215 | on one clock, for a start inside the opening, both give the same ends |
| HoursProofs.EveryStartHasAnEnd | Front-End/lib/working-hours.ts:189-215 | every start offered with the default minimum has an end one step later, on either path |
| OpenDays.StartsByClock | Front-End/lib/working-hours.ts:189-195 | devices that read hours as another zone's and share a wall clock offer the same starts |
| OpenDays.AgreesIsFresh | Front-End/lib/working-hours.ts:154-171 | a memory true of this wall clock answers as if afresh, whatever the device's zone is called, and stays true |
| OpenDays.Calendar.IsOpenDay | Front-End/lib/working-hours.ts:154-171 | the answer and the new memory for any old memory; from a true one, the answer worked out afresh |
| OpenDays.AskAll | Front-End/lib/working-hours.ts:154-171 | so is every answer in any sequence of questions, of any devices that share a wall clock |
| OpenDays.GreyMeansNothingFits | Front-End/lib/working-hours.ts:154-171 | a greyed day offers no start; an open one offers some, exactly unless its own-zone opening is shorter than a step |
| OpenDays.ShortOpeningHasNoStart | Front-End/lib/working-hours.ts:154-171 | 9:00 to 9:15 is an open day with no start |
| OpenDays.MemoryIsSharedByClock | Front-End/lib/working-hours.ts:57-58 | two devices agree on all days of all hours from elsewhere if and only if their wall clocks agree |
| OpenDays.StaleAfterTravel | Front-End/lib/working-hours.ts:154-171 | after any move to another clock there are hours and a day for which the page repeats the old answer, and it is wrong |
| HoursSummary.GroupDays | Front-End/lib/working-hours.ts:218-227 | for a day list of any length: the groups are consecutive, disjoint, in order, cover every day with its own label, and neighbours differ |
| HoursSummary.SummariseHours | Front-End/lib/working-hours.ts:217-232 | what is shown is exactly the groups that are open |
| HoursSummary.FormatTimeReadsBack | Front-End/lib/working-hours.ts:29-36 | every time of a day, midnights included, is written as a text that reads back as that time on a twelve hour clock |
| HoursSummary.LabelTellsHours | Front-End/lib/working-hours.ts:222-223 | a day's label tells its opening and closing, and whether it is open |
| HoursSummary.LabelReadsBack | Front-End/lib/working-hours.ts:222-223 | a day's label reads back as its opening before the dash and its closing after it |
| HoursSummary.ShownTellsDay | Front-End/lib/working-hours.ts:217-232 | a day is open exactly when a group on show spans it, and that group has its hours |
| HoursSummary.ShownInOrder | Front-End/lib/working-hours.ts:229-231 | groups are shown in the order of the week |
| HoursSummary.SummaryTellsTheWeek | Front-End/lib/working-hours.ts:217-232 | the summary loses nothing: two weeks summarised alike are the same week |
| Text.TrimIs | Front-End/lib/package-options.ts:103 | trimming takes all spaces off both ends and nothing else |
| Text.SameIs | Front-End/lib/package-options.ts:103 | two names are the same exactly when they are letter by letter, whatever the case, once trimmed |
| PackageOptions.CustomizationsError | Front-End/lib/package-options.ts:105-131 | null if and only if titles, and labels within a group, are pairwise distinct and every bound holds; otherwise the first thing wrong with the first group that has something wrong |
| PackageOptions.CountedOfBoth | Front-End/lib/package-options.ts:113 | empty rows anywhere in the form change nothing |
| PackageOptions.PriceNeedsName | Front-End/lib/package-options.ts:113-117 | an option with a price and no name is never let through |
| PackageOptions.ValidGroupSentWhole | Front-End/lib/package-options.ts:133-149 | sending a valid group drops no option the validator counted, and 1 <= max_select <= number of options |
| PackageOptions.FormRoundTrip | Front-End/lib/package-options.ts:90-149 | opening the form and saving it unchanged gives back a customization if and only if it is well formed (ids, trimmed texts, no empty label, a limit of at least 1) |
| PackageOptions.FormRoundTripOfAll | Front-End/lib/package-options.ts:90-149 | so for the whole list: given back if and only if every entry is well formed |
| PackageOptions.SwitchedToSeveral | Front-End/lib/package-options.ts:90-101 | a well-saved choice switched to "several" is ready to save, at its own limit or 2 |
| ServerOptions.ValidDraftsTaken | Back-end/src/modules/add-ons/package-options.ts:47-80 | the API takes every set of drafts the form lets through, keeping ids, trimmed titles, every counted option (id, name trimmed, price to the cent, price mode) and each draft's own limit, 1 for "pick one" |
| ServerOptions.OnlyCleanIsKept | Back-end/src/modules/add-ons/package-options.ts:49-80 | whatever is sent, what the API keeps holds every bound: trimmed titles and labels told apart, prices in whole cents, limits the options can meet |
| Choices.ToggleChangesItsOption | Front-End/lib/package-options.ts:160-172 | a toggle flips whether its option is picked unless the group is full, and of the others only a single choice gives way |
| Choices.ToggleKeepsSound | Front-End/lib/package-options.ts:160-172 | one toggle keeps picks distinct, offered and within the limit, and leaves every other group alone |
| Choices.TogglesKeepSound | Front-End/lib/package-options.ts:160-172 | so does any run of toggles |
| Choices.PayloadIgnoresOrder | Front-End/lib/package-options.ts:180-185 | the same picks are sent the same way whatever order they were toggled in |
| Choices.InOrderKeepsPicks | Front-End/lib/package-options.ts:180-185 | the options sent are exactly the ones picked, once each, in the vendor's order |
| Choices.PayloadAnswers | Front-End/lib/package-options.ts:180-185 | the payload answers a group with its picks, and says nothing for a group without any |
| Choices.PayloadOfBoth | Front-End/lib/package-options.ts:180-185 | and answers come in the order of the groups |
| Choices.MissingIsUnanswered | Front-End/lib/package-options.ts:174-178 | nothing is missing if and only if every required group has a pick |
| Choices.MissingIsFirst | Front-End/lib/package-options.ts:174-178 | the group asked for is the first required one without a pick |
| Choices.PayloadTaken | Back-end/src/modules/add-ons/package-options.ts:165-200 | for any picks, old ones of withdrawn options included, the API takes what is sent if and only if each required group has a pick still offered and none has more of them than its limit |
| Choices.SentChoicesTaken | Back-end/src/modules/add-ons/package-options.ts:165-200 | with picks any run of toggles can reach from none, the API takes what is sent if and only if nothing required is missing |
| Choices.WithdrawnChoiceRefused | Front-End/lib/package-options.ts:174-185 | a required choice whose option was withdrawn: nothing is missing in the form, and the API refuses |
| RequestChanges.LineError | Front-End/lib/request-changes.ts:197-205 | null exactly for a valid line; otherwise the first rule it breaks |
| RequestChanges.DraftError | Front-End/lib/request-changes.ts:191-214 | null exactly for a draft that keeps every rule; otherwise the first thing wrong, everything before it being right |
| RequestChanges.DraftShowsRequest | Front-End/lib/request-changes.ts:161-184 | the draft opened on a request shows its day and times, guests, travel fee and no note |
| RequestChanges.LastMoveCounts | Front-End/lib/request-changes.ts:224-234 | two moves of the start in a row are the second one |
| RequestChanges.MovesKeepLength | Front-End/lib/request-changes.ts:224-234 | over any run of moves with the end left alone the event keeps its length and only the last place counts |
| RequestChanges.MovesLeaveSetEnd | Front-End/lib/request-changes.ts:230 | an end set by hand stays where it is over any run of moves |
| RequestChanges.SetEndStays | Front-End/lib/request-changes.ts:236-237 | an end the vendor sets, or clears, counts as set by hand from then on |
| RequestChanges.SetEndIsSent | Front-End/lib/request-changes.ts:224-261 | set the end, then drag the start about: the end sent is the one set, and it is left out only when all is as it was |
| RequestChanges.ClearingLeavesTheEnd | Front-End/lib/request-changes.ts:228-230 | clearing the date in between leaves the end where it was: the same as moving straight there only for a move by nothing |
| RequestChanges.DraftPayload | Front-End/lib/request-changes.ts:239-267 | the body filled field by field is the payload the lemmas speak of |
| RequestChanges.TimesSent | Front-End/lib/request-changes.ts:253-261 | exactly which changed times are sent, as they are on screen |
| RequestChanges.EndMomentIs | Front-End/lib/request-changes.ts:255-261 | the end sent is on the later day picked for it, or the first moment after the start with its time of day |
| RequestChanges.NoteAndLinesSent | Front-End/lib/request-changes.ts:244-251 | a note is sent trimmed or not at all; each line is sent in its place under its extra's id or its add-on's |
| RequestChanges.EndSentAfterStart | Front-End/lib/request-changes.ts:253-261 | an end that is sent is after the start if and only if its date is not before the start's |
| RequestChanges.ValidDraftPayload | Front-End/lib/request-changes.ts:239-267 | a draft the validator takes sends an end only after its start, whole guests, readable amounts, and no required choice missing |
| RequestChanges.UntouchedSendsNothingNew | Front-End/lib/request-changes.ts:161-184 | sent untouched: no date, guests, fee or note, every line at its price and quantity, under the extra's id it has |
| RequestChanges.UntouchedKeepsChoices | Front-End/lib/request-changes.ts:161-184 | sent untouched, every choice the vendor still offers is answered as it was |
| ServerProposal.EndShownIsEndProposed | Back-end/src/modules/contracts/request-changes.ts:262-274 | with the end left alone, the API's end is the one on screen if and only if the event on screen kept its length |
| ServerProposal.MovedEndIsProposed | Front-End/lib/request-changes.ts:224-267 | after any run of moves, for any request, the API works out the end the editor shows, if and only if nothing was sent, there was no end, or both count it from the same start |
| ServerProposal.SetEndIsProposed | Back-end/src/modules/contracts/request-changes.ts:262-274 | an end the vendor set is the one the API proposes |
| ServerProposal.UnsetTimeMovesApart | Front-End/lib/request-changes.ts:224-234 | 10 AM to noon without a time of day, a day later: noon on screen, 2 AM proposed |
| ServerProposal.NoStartMovesApart | Front-End/lib/request-changes.ts:224-234 | an end and no start, put on two days in turn: the end moves on screen only |
| ServerProposal.ClearedDateMisleads | Front-End/lib/request-changes.ts:228-234 | clear the date, pick the day before: a 26 hour event on screen, a 2 hour one proposed |
| ServerProposal.ValidDraftTimesTaken | Back-end/src/modules/contracts/request-changes.service.ts:243-246 | a valid draft passes the API's "end after start" if and only if an end it sends is not before an unchanged scheduled moment, or, sending none, the end there was comes after the start |
| ServerProposal.ValidDraftsAllTaken | Back-end/src/modules/contracts/request-changes.service.ts:243-246 | every valid draft passes if and only if the request ends after it starts and its start has its time of day |
| ServerProposal.NoLengthCanBeRefused | Back-end/src/modules/contracts/request-changes.service.ts:243-246 | a request from 10:00 to 10:00 with its end emptied: accepted by the editor, refused by the API |
| ServerProposal.UnsetTimeCanBeRefused | Back-end/src/modules/contracts/request-changes.service.ts:243-246 | scheduled for 10 AM with no time of day: an end at 9 is accepted by the editor and refused by the API |
| ServerProposal.GuestsProposed | Back-end/src/modules/contracts/dto/request-changes.dto.ts:55-61 | from a valid draft, guests are taken if and only if unchanged, emptied or at most 100,000, and are those on screen; an emptied field changes nothing |
| ServerProposal.FeeProposed | Back-end/src/modules/contracts/request-changes.ts:123-130 | from a valid draft, a fee is taken if and only if unchanged, emptied or of two decimals, and is then the one on screen: rounding moves nothing |
| ServerProposal.GuestsAndFeeCanBeRefused | Back-end/src/modules/contracts/dto/request-changes.dto.ts:55-85 | 100,001 guests, and a fee of $10.000000001: valid in the editor, refused by the API |
| MapTiles.WrappedIsColumn | Front-End/lib/booking-tracker.ts:119-122 | despite the signed `%` the column is on the world and congruent to the tile's place |
| MapTiles.TilesAround | Front-End/lib/booking-tracker.ts:111-126 | the nested loop pushes exactly the rows of the world the box touches, each from its first column to its last |
| MapTiles.EveryPointInOneTile | Front-End/lib/booking-tracker.ts:111-126 | every point of the box whose row is in the world lies in exactly one returned tile |
| MapTiles.TilesAreFew | Front-End/lib/booking-tracker.ts:111-126 | tiles come in reading order, none twice, none off the world, at most (floor(w/256)+2)(floor(h/256)+2) |
| Pagination.WindowIsRight | Front-End/hooks/usePagination.ts:32-68 | for every page, total and sibling count: the buttons start at 1, end at the total, hold the page and its siblings, follow on by one but for dots that hide at least one page, and number min(total, 2s+5) |
| Pagination.DotsWhereFar | Front-End/hooks/usePagination.ts:32-68 | dots stand after page 1 exactly when the page is far from it, before the last exactly when it is far from that, and nowhere else |
| Pagination.WindowIncreases | Front-End/hooks/usePagination.ts:32-68 | so the numbers only go up |
| Pagination.PagesAreTheData | Front-End/hooks/usePagination.ts:85-95 | pages 1 to the total, put together, are the data |
| Pagination.NoPageIsEmpty | Front-End/hooks/usePagination.ts:85-95 | no page is longer than asked, and none is empty unless there is no data |
| Pagination.ResetGoesToPageOne | Front-End/hooks/usePagination.ts:79-90 | new filters show page 1 if and only if the page they were changed on still exists, or only one is left |
| Pagination.ResetCanShowTheLastPage | Front-End/hooks/usePagination.ts:79-90 | from page 3 to a search with two pages: page 2 is shown |
| Pagination.RenderKeepsPage | Front-End/hooks/usePagination.ts:87-90 | without new filters a page that still exists stays, and one past the end becomes the last |
| Pagination.Pager.constructor | Front-End/hooks/usePagination.ts:78-90 | where the list opens once its effects have run |
| Pagination.Pager.Rendered | Front-End/hooks/usePagination.ts:79-90 | the page after new data and filters is always one there is |
| Pagination.Pager.GoToPage | Front-End/hooks/usePagination.ts:102-108 | any number asked for is brought into range |
| TravelFee.FurtherCostsNoLess | Front-End/lib/travel-fee.ts:32-42 | through all three roundings, further never costs less |
| TravelFee.QuoteIsNearest | Front-End/lib/travel-fee.ts:32-42 | a quote's miles and chargeable miles are the nearest tenths and its fee the nearest cent, halves up, each of the value before it |
| TravelFee.FreeMilesAreFreeExactly | Front-End/lib/travel-fee.ts:32-42 | no distance inside the free miles is charged for if and only if the free miles, rounded as a distance, grow by less than 0.05 |
| TravelFee.FreeMilesAreFree | Front-End/lib/travel-fee.ts:36-42 | with whole free miles, as the API keeps them, every distance inside them costs the base fee to the cent |
| TravelFee.FreeMilesCanCost | Front-End/lib/travel-fee.ts:36-42 | 12.45 miles each way are 24.9 free miles, and cost 20 cents |
| TravelFee.FeeNearExact | Front-End/lib/travel-fee.ts:32-42 | the roundings move the fee by at most 0.15 of a mile's price (0.1 one way) plus half a cent |

## Left out

- OpenDays.MemoryIsSharedByClock: for clocks at most six days apart.
- HoursSummary.SummaryTellsTheWeek: the groups shown, with their labels as text; day names and separators are not joined into one line.
- Closing or leaving a page: the redirect to the login page, aborted requests, and a lock the browser frees because its tab is gone.
- A refresh the API made whose answer is lost: it counts as no renewal.
- Signing out, calls outside `/api`, the server-side rendering path, and the `fetch` adapter with its get/post/put/patch/delete wrappers.
- `stillExpired` failing before its request is sent, and anything in axios beyond the two interceptors.
- The token values themselves. Of the HttpOnly cookies, only whether the API still takes the access token, and whether a refused call carried one.
- Timers that go off late, "typing" messages that are lost or delayed (lost "stopped" messages are modelled), read receipts and labels.
- Daylight saving and `Intl`: a zone is a fixed offset, and a device can convert into it always or never.
- Seconds within a minute of a request's times.
- Floating point, infinities and NaN totals: amounts are exact, a field is empty, unreadable or a number.
- Trimming and letter case beyond ASCII.
- OpenDays.Calendar.IsOpenDay: hours are a value, so two equal objects share a memory the source keeps apart; hours changed in place are not modelled.
- PackageOptions.FormRoundTrip: saved with counted prices (`counted` true); the row keys of drafts are left out.
- ServerOptions.ValidDraftsTaken: the API's two nested loops are one recursive function over values.
- Choices.SentChoicesTaken: what the API checks is a predicate on the list sent; prices, units and amounts of the chosen options are not modelled.
- ServerProposal.ValidDraftTimesTaken: the API also refuses a start in the past, which the draft's validator does not look at; prices, promo codes and lines of a proposal are not modelled.
- The wording of messages and the formatting of money and dates: an error is a tag naming the rule and the row.
- `toTile`'s trigonometry: the centre is any point.
- `move`, dos and don'ts, statuses, tracker steps, the zone label and withDeviceZone: they would only add easy members.
