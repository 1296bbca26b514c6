# ITUKutup library reservation client — a Dafny model

ITUKutup is a React Native client for booking seats in the İTÜ Mustafa İnan
library. Its backend holds the booking rules. The client holds a good deal of
small, deterministic logic of its own, and this project models that logic and
proves what it promises:

- **The floor plan** (`MapFloor`, `map_floor.dfy`):
  - builds the 50 × 4 chair grid of a floor and classifies every chair as available, reserved or pending;
  - uses the room's reservations that overlap the chosen window, or a deterministic estimate when neither query answered;
  - has a catch-all fallback plan;
  - computes the floor's counts, the grouping by table, the chair colours and the data-quality label.
- **The reservation form** (`ReservationScreen`, `reservation_screen.dfy`):
  - the picked start time, with its roll to tomorrow and its 36-hour horizon;
  - the conflict count of the chosen window, summed from whichever of three queries answered, or estimated by hour;
  - free seats and occupancy, the ordered recommendation lines, the low-availability confirmation and the alternative hours.
- **The summary and payload** (`Summary`, `summary.dfy`):
  - the local `YYYY-MM-DDTHH:mm:00` timestamps;
  - the next-day rollover of the end time and the request payload;
  - the classification of a failed request and the duration text.
- **The home screen** (`Home`, `home.dfy`):
  - the `HH:MM:SS` countdown and its one-second timer with a break counter;
  - the active-reservation pick, the 24 hourly slots and the occupancy shown for one;
  - the quick entry/exit scan gate, student-number extraction and scan error messages.
- **The user's reservations and notifications** (`MyReservations`, `my_reservations.dfy`): the active/upcoming/past split, the counts, and the notification list with its read, read-all and delete handlers.
- **The leaderboard** (`Ranking`, `ranking.dfy`):
  - students sorted by score or streak, with the current user marked and ranked;
  - faculties read off the student id, aggregated in one pass into total, member count and rounded average.
- **Registration and login** (`Register`, `Login`):
  - the ordered first-failure-wins form checks and the password strength meter;
  - the error messages;
  - the sample student number;
  - the device-store updates of a login, including remember-me.
- **The tutorial** (`Tutorial`): start-up routing and the pager, whose last step records in the device store that the tutorial was seen.
- **The API module** (`Api`, `api.dfy`):
  - how a non-2xx response becomes an error (the detail-field precedence);
  - the renaming of a network failure;
  - the client-side fallbacks of the two "pending" queries;
  - the notification calls that swallow their failures.

Shared pieces:

- `Booking`: the reservation record, the half-open overlap test, the active pick, `Math.round` as round-half-up, and the occupancy percentage.
- `Text`: JavaScript's `trim`, `includes`, `toLowerCase`, `toString`, `padStart`, `parseInt` and `%`.
- `Lists`: `filter`, `findIndex`, `find` and `slice`.
- `Storage`: the device key/value store as a class over a `map<string, string>`.
- `Wrappers`: `Option` and `Result`.

Conventions:

- Time is integer epoch milliseconds or explicit calendar fields.
- Every backend call is an input: `Option` (resolved or rejected), or a `Transport` for `enhancedFetch`.
- Random draws, the local hour and the weekday are parameters.

Some facts the proofs make explicit:

- The estimated plan never shows a pending chair. An unavailable estimated chair has a value at or below its threshold, so it can never exceed the threshold plus ten (`MapFloor.ClassifyChair`, `MapFloor.CatchChair`).
- A desk that is both reserved and pending is counted and coloured as pending.
- A password the registration form accepts always scores at least "Güçlü" on the strength meter.
- The room fallback of the pending query keeps a subset of what the time-slot fallback keeps.
- The API module's pending calls reject only when the endpoint's body does not parse, because `res.json()` is returned without `await` and so escapes the `catch`. The notification fetches (`Api.FetchNotifications`, `Api.FetchUnreadCount`, api.ts:277, 287) return `res.json()` the same way, so their `catch` does not make them total either: an unparsable body rejects. When every request fails they still resolve with `[]`, and `Promise.allSettled` counts them as working. The floor plan then shows all 200 seats free under the partial-data label, and the reservation form counts 0 conflicts under the green icon (see Findings).

## Model

| member | source | states |
|---|---|---|
| Api.FirstTruthy | src/api/api.ts:52-62 | None exactly when no field is present and non-empty; otherwise the first such field, every earlier one being falsy |
| Api.ErrorDetails | src/api/api.ts:45-68 | the detail chain assigns exactly `DetailsOf`: first truthy of message/error/detail/details, else the raw body (also when it is not JSON), and `HTTP {status}: {statusText}` when the body cannot be read |
| Api.DetailsOf | src/api/api.ts:45-68 | `HTTP {status}: {statusText}` for an unreadable body; the raw body when it is not JSON; otherwise the raw body or one of the four fields, which is then non-empty |
| Api.DetailsPrecedence | src/api/api.ts:50-64 | each of the four JSON fields wins exactly when all earlier ones are falsy; with none truthy the raw body is used |
| Api.HttpFailure | src/api/api.ts:70-74 | an HTTP error carrying the response's status and status text and `DetailsOf` the response, whose message is `{statusText} - {details}` |
| Api.Rethrown | src/api/api.ts:78-83 | a TypeError mentioning `Network request failed` becomes the connectivity message; every other error is rethrown unchanged |
| Api.EnhancedFetch | src/api/api.ts:28-84 | resolves with the response exactly when the transport answered 2xx; a non-2xx answer rejects with the HTTP error built from the body; a thrown error rejects renamed or unchanged |
| Api.CreateReservation | src/api/api.ts:86-118 | the request body carries exactly the five fields of the request; the call succeeds exactly on a 2xx answer, a non-2xx answer rejects with `enhancedFetch`'s HTTP error (so its own `!res.ok` branch never runs) and a thrown error rejects renamed or unchanged |
| Api.RequestBodyRoundTrip | src/api/api.ts:95-101 | reading the five keys back out of the `JSON.stringify` body gives the request it was built from |
| Api.BodyField | src/api/api.ts:95-101 | a key is found exactly when some entry of the body carries it |
| Api.FetchRoomPending | src/api/api.ts:202-227 | the endpoint's list when it answers; otherwise exactly the room's reservations that overlap the half-open window and are `PENDING`; `[]` when both fail |
| Api.FetchTimeSlotPending | src/api/api.ts:229-257 | the endpoint's list when it answers; otherwise exactly the active reservations overlapping the window, with no status filter; `[]` when both fail |
| Api.RoomPendingFallback | src/api/api.ts:218-222 | a reservation is kept exactly when it is in the room's list, overlaps the window and is `PENDING` |
| Api.RoomPendingSettled | src/api/api.ts:202-227 | `allSettled` sees the room-pending call reject only when the endpoint's body does not parse (`res.json()` is returned un-awaited); otherwise it is fulfilled, with the endpoint's list or the fallback's |
| Api.TimeSlotPendingSettled | src/api/api.ts:229-257 | the same for the time-slot pending call, with the active-reservation fallback |
| Api.TotalOutageSettlesEmpty | src/api/api.ts:202-257 | when every request fails, both pending calls are fulfilled with `[]` |
| Api.RoomPendingReported | src/api/api.ts:202-227 | corrected room-pending call: a result exactly when the endpoint or the room's list answered, and then the same one as the source's |
| Api.RoomFallbackWithinTimeSlotFallback | src/api/api.ts:218-249 | every reservation the room fallback keeps is also kept by the overlap-only filter |
| Api.NotificationQuery | src/api/api.ts:275 | empty exactly when no read filter is given, otherwise starting with `?isRead=` |
| Api.NotificationQueryRoundTrip | src/api/api.ts:275 | the query string determines the filter it was built from (true, false or none) |
| Api.FetchNotifications | src/api/api.ts:270-281 | a failed fetch yields `[]`, a successful one the list (an unparsable body is not caught; see above) |
| Api.FetchUnreadCount | src/api/api.ts:283-291 | a failed count yields 0, a successful one the number (an unparsable body is not caught; see above) |
| Api.NotificationUpdate | src/api/api.ts:293-321 | mark-read, mark-all-read and delete always resolve, whatever the transport did |
| Booking.OverlapsIffCommonInstant | src/screens/MapFloorScreen.tsx:142-148 | for windows with end after start, `rs < e && s < re` holds exactly when the two half-open windows share an instant |
| Booking.TouchingWindowsDoNotOverlap | src/screens/MapFloorScreen.tsx:147 | windows that only meet at an endpoint do not overlap, in either order |
| Booking.RoundHalfUp | src/screens/RankingScreen.tsx:162 | `Math.round(a / b)` for b > 0: the integer r with r − ½ ≤ a/b < r + ½ |
| Booking.RoundHalfUpWithin | src/screens/TutorialScreen.tsx:201-204 | rounding a/b for 0 ≤ a ≤ n·b lands in 0..n, less than one step b from a on each side |
| Booking.OccupancyPercent | src/screens/HomeScreen.tsx:175 | the value: for 0 ≤ c ≤ 200 conflicts, the nearest integer to c·100/200 with halves rounding up (2r − 1 ≤ c < 2r + 1); 100 from 200 conflicts on; at most 100; in 0..100 for a non-negative count; 0 exactly for no conflicts |
| Booking.OccupancyMonotonic | src/screens/ReservationScreen.tsx:197-200 | more conflicts never show a lower percentage |
| Booking.FirstActive | src/screens/MyReservationsScreen.tsx:89-93 | None exactly when no reservation satisfies start ≤ now ≤ end; otherwise the first that does, in list order |
| MapFloor.SelectedEnd | src/screens/MapFloorScreen.tsx:107-109 | an end at or before the start moves 24 h later, so a same-date window gets positive length of at most a day |
| MapFloor.DeskId | src/screens/MapFloorScreen.tsx:162 | a desk id carries the `-` separator and is at least three characters long |
| MapFloor.DeskIdLayout | src/screens/MapFloorScreen.tsx:162 | a desk id is the table's digits, then its only `-`, then the seat's digits, so `split('-')` at 326-332 finds exactly the two numbers |
| MapFloor.DeskIdInjective | src/screens/MapFloorScreen.tsx:162 | two `table-seat` ids with single-digit seats are equal only for the same table and seat |
| MapFloor.ParseDeskId | src/screens/MapFloorScreen.tsx:326-332 | no table/seat for an id without `-`; a result only when the part before the first `-` is digits, and then the table is their value |
| MapFloor.ParseDeskIdRoundTrip | src/screens/MapFloorScreen.tsx:326-332 | `onNext`'s split of the selected id at `-` gives back the chair's table and seat |
| MapFloor.BaseOccupancy | src/screens/MapFloorScreen.tsx:182-193 | estimate base, in hundredths: 70 on weekdays 9–17, 50 on weekdays 18–22, 40 on weekends 10–20, 30 otherwise |
| MapFloor.Pseudo | src/screens/MapFloorScreen.tsx:206-207 | the chair's pseudo-random value `(table*7 + seat*13) % 100` lies in 0..99 |
| MapFloor.ClassifyChair | src/screens/MapFloorScreen.tsx:162-223 | with live data: available iff in neither set, pending iff in the pending set, `Reserved` iff in the reserved set; otherwise available iff the value exceeds the adjusted threshold (+10 for tables 25–30, −5 for seats 1 and 4), and never pending; a pending chair is never available |
| MapFloor.GenerateChairs | src/screens/MapFloorScreen.tsx:151-225 | exactly 200 chairs, chair k being seat k%4+1 of table (floor−1)·50 + k/4 + 1, each classified |
| MapFloor.PlanLayout | src/screens/MapFloorScreen.tsx:151-162 | every generated chair lies on one of the floor's 50 tables with seat 1..4, and all 200 ids are distinct |
| MapFloor.CatchChair | src/screens/MapFloorScreen.tsx:248-263 | catch-fallback chair: available iff its value exceeds 60 (9–17) or 30; reserved text iff unavailable; never pending |
| MapFloor.CatchFallbackChairs | src/screens/MapFloorScreen.tsx:246-265 | 200 chairs on tables 1–50 whatever the floor, chair k being seat k%4+1 of table k/4+1 |
| MapFloor.Stats | src/screens/MapFloorScreen.tsx:229-233 | total is the number of chairs; each of available, reserved and pending is at most that, and zero exactly when no chair is in that state |
| MapFloor.StatsPartition | src/screens/MapFloorScreen.tsx:229-233 | when no pending chair is available, available + reserved + pending = total |
| MapFloor.DeskIds | src/screens/MapFloorScreen.tsx:156-157 | the set holds exactly the desk ids of the list |
| MapFloor.Status | src/screens/MapFloorScreen.tsx:123-137 | each flag is set exactly when its query resolved |
| MapFloor.LoadChairAvailability | src/screens/MapFloorScreen.tsx:95-240 | 200 chairs classified against the overlapping reserved ids and the pending ids (live iff a query answered); the stats are the chair counts and partition the 200 seats |
| MapFloor.ReservedMeansOverlapping | src/screens/MapFloorScreen.tsx:142-157 | a desk id is in the reserved set exactly when some reservation of the room names it and overlaps the window |
| MapFloor.GroupByTable | src/screens/MapFloorScreen.tsx:290-295 | the record has a key exactly for the tables that have chairs, each holding that table's chairs in plan order |
| MapFloor.ChairColor | src/screens/MapFloorScreen.tsx:335-339 | orange exactly for pending, red exactly for reserved (unavailable, not pending), green exactly for available and not pending |
| MapFloor.ReservedAndPendingShowsPending | src/screens/MapFloorScreen.tsx:171-175 | with live data a desk in both sets is pending, not counted as reserved, coloured orange, and still labelled `Reserved` |
| MapFloor.WorkingApis | src/screens/MapFloorScreen.tsx:362 | the number of answered queries: 2 iff both, 0 iff neither |
| MapFloor.DataStatusText | src/screens/MapFloorScreen.tsx:361-366 | `CanlÄ± veriler` iff 2 queries worked, `KÄ±smi veriler` iff 1, `Tahmini veri` iff 0 (the first two are the file's double-encoded literals, kept byte for byte) |
| MapFloor.EstimatedLabelIffFallback | src/screens/MapFloorScreen.tsx:171-176 | the label says estimated exactly when the plan was drawn from the estimate |
| MapFloor.PendingQueryKeepsPlanLive | src/screens/MapFloorScreen.tsx:117-137 | with the pending call settled as the API module settles it, at least one query counts as working, so the estimate is never used and its label never shown |
| MapFloor.TotalOutageShowsFreeFloor | src/screens/MapFloorScreen.tsx:117-176 | when every request fails the plan is drawn as live under the partial label, each chair available and not pending |
| MapFloor.TotalOutageShowsEstimate | src/screens/MapFloorScreen.tsx:117-176 | with the corrected pending call a total outage shows the estimate label and classifies every chair from the estimate |
| ReservationScreen.LocalIsoDate | src/screens/ReservationScreen.tsx:41-46 | for a four-digit year and a real month and day, a 10-character `Y-MM-DD` whose year, month and day read back |
| ReservationScreen.OnChangeTime | src/screens/ReservationScreen.tsx:82-116 | dismissal changes nothing; a time before now is taken as tomorrow; a pick not after now is refused with `Geçersiz saat` / `Gelecek bir zaman seçin.`, one more than 36 h ahead with `Süre sınırı` / `36 saati geçemezsiniz.`; an accepted start lies strictly after now and at most 36 h ahead |
| ReservationScreen.OnChangeTimeWithinADay | src/screens/ReservationScreen.tsx:100-113 | for a time on today's date the horizon never triggers; the only rejected pick is exactly now |
| ReservationScreen.WorkingApis | src/screens/ReservationScreen.tsx:213 | the number of answered queries, 0 iff none and 3 iff all |
| ReservationScreen.EstimatedConflicts | src/screens/ReservationScreen.tsx:184-194 | 140 for hours 9–17, 100 for 18–22, 40 otherwise |
| ReservationScreen.TotalConflicts | src/screens/ReservationScreen.tsx:166-194 | the room's overlapping reservations plus each answered pending list; the hourly estimate when none answered |
| ReservationScreen.ConfirmedConflictsAreOverlaps | src/screens/ReservationScreen.tsx:166-170 | the confirmed conflicts are exactly the room's reservations overlapping [s, s + duration h) |
| ReservationScreen.CountConflicts | src/screens/ReservationScreen.tsx:130-194 | the accumulation records which queries answered and yields `TotalConflicts` |
| ReservationScreen.PendingQueriesCountAsWorking | src/screens/ReservationScreen.tsx:145-165 | with both pending calls settled as the API module settles them, at least two queries count as working (green icon) and the conflicts add up the two pending lists |
| ReservationScreen.TotalOutageReadsNoConflicts | src/screens/ReservationScreen.tsx:145-194 | when every request fails the screen counts 0 conflicts and shows the green icon |
| ReservationScreen.TimeOfDayLine | src/screens/ReservationScreen.tsx:229-236 | exactly one time-of-day line: study hours iff 9–17, evening iff 18–22, night/morning otherwise |
| ReservationScreen.Recommendations | src/screens/ReservationScreen.tsx:210-241 | 1 to 4 lines; a data-quality line first iff fewer than 3 queries worked; an occupancy line iff outside 30–60 %; exactly one time-of-day line; the maximum-duration line last iff the window is 3 h; and each line by its range: estimated data iff 0 queries worked, partial data iff 1–2, very busy iff occupancy > 80, moderately busy iff 61–80, ideal iff < 30, study hours iff 9–17, evening iff 18–22, night/morning otherwise, maximum duration iff the window is 3 h |
| ReservationScreen.RecommendationLines | src/screens/ReservationScreen.tsx:210-241 | the texts listed on the screen: one per recommendation, in order, each the text that line pushes |
| ReservationScreen.BuildRecommendations | src/screens/ReservationScreen.tsx:210-241 | the `push` sequence builds exactly the reference list |
| ReservationScreen.AnalyzeReservation | src/screens/ReservationScreen.tsx:120-207 | nothing while loading; otherwise conflicts from `TotalConflicts`, seats max(0, 200 − c), occupancy `OccupancyPercent(c)`, conflicts flagged iff c > 0, and the recommendations for that analysis |
| ReservationScreen.AnalysisBounds | src/screens/ReservationScreen.tsx:196-207 | free seats lie in 0..200, add up with the conflicts to 200 when c ≤ 200, and no free seat means 100 % |
| ReservationScreen.NeedsConfirmation | src/screens/ReservationScreen.tsx:270-283 | confirmation is asked exactly when fewer than 10 seats are free |
| ReservationScreen.SuggestAlternatives | src/screens/ReservationScreen.tsx:305-318 | the loop over offsets −2, −1, 1, 2 yields exactly the reference list |
| ReservationScreen.AlternativesSpec | src/screens/ReservationScreen.tsx:311-317 | the alternatives are the hours within 2 of the current one (never itself) in 6..23, every such candidate included, increasing |
| ReservationScreen.StatusIcon | src/screens/ReservationScreen.tsx:329-334 | green iff at least 2 queries worked, yellow iff 1, chart iff 0 |
| Summary.BuildIso | src/screens/SummaryScreen.tsx:44-53 | for a four-digit year and two-digit fields, a 19-character `y-MM-ddTHH:mm:00` with fixed separators, seconds `00`, no `Z`, every field reading back |
| Summary.NextDay | src/screens/SummaryScreen.tsx:86 | the next calendar day: a valid later date-time with the same hour and minute, and no valid date-time with that hour and minute lies strictly between |
| Summary.RolledEnd | src/screens/SummaryScreen.tsx:81-87 | the end stays when after the start and moves to the next day otherwise |
| Summary.RolledEndAfterStart | src/screens/SummaryScreen.tsx:81-87 | for start and end on the same date, the rolled end is always after the start |
| Summary.Confirm | src/screens/SummaryScreen.tsx:58-112 | ignored while loading; an error iff no user id is stored; otherwise the payload has room `ROOM-001`, desk `table-seat`, the parsed user id and the start and rolled end timestamps |
| Summary.ConfirmCarriesStoredUser | src/screens/SummaryScreen.tsx:72-75 | an id stored with `toString()` reaches the payload as the same number |
| Summary.RawMessage | src/screens/SummaryScreen.tsx:182 | the error's message, or empty when it has none |
| Summary.ParseError | src/screens/SummaryScreen.tsx:160-183 | the title follows 400/bad request, 409/conflict, 401/403, network/bağlantı, 500/sunucu in that precedence on the lower-cased message, else generic; the debug line is the raw message |
| Summary.ReportFor | src/screens/SummaryScreen.tsx:161-180 | the title follows the message categories in precedence and the debug line is kept |
| Summary.ConflictStatusReported | src/screens/SummaryScreen.tsx:165-170 | an HTTP error mentioning 409 but not 400 or bad request is reported as a conflict |
| Summary.DurationMinutesBounds | src/screens/SummaryScreen.tsx:215-218 | the duration lies in 1..1440 minutes, equals end − start modulo a day, and is 1440 for equal times |
| Summary.EqualTimesReadAsFullDay | src/screens/SummaryScreen.tsx:217-221 | equal start and end read `24 saat` |
| Summary.DurationText | src/screens/SummaryScreen.tsx:215-221 | for wall-clock times: `h saat`, or `h saat m dk` with m ≠ 0, where h (0..24) and m (0..59) are the whole hours and leftover minutes of the duration |
| MyReservations.Upcoming | src/screens/MyReservationsScreen.tsx:95 | a reservation is listed exactly when it is in the list and starts after now |
| MyReservations.Past | src/screens/MyReservationsScreen.tsx:96 | a reservation is listed exactly when it is in the list and ended before now |
| MyReservations.ActiveUpcomingPastPartition | src/screens/MyReservationsScreen.tsx:89-96 | every reservation is upcoming, past or running; for well-formed ones these exclude each other, the upcoming and past lists are disjoint, and the active one is in neither |
| MyReservations.ComputeStats | src/screens/MyReservationsScreen.tsx:103-113 | total is the list length; completed and cancelled are exactly the numbers of past reservations with status `COMPLETED` and `CANCELLED`, together at most the past list; the no-show, streak and score fields are copied |
| MyReservations.PastWithStatus | src/screens/MyReservationsScreen.tsx:103-104 | the number of ended reservations with the status: at most the list's length, and 0 exactly when no ended reservation has that status |
| MyReservations.PastStatusCount | src/screens/MyReservationsScreen.tsx:103-104 | filtering the past list by status has exactly that many entries |
| MyReservations.StatusCountsDisjoint | src/screens/MyReservationsScreen.tsx:103-104 | completed and cancelled counts together never exceed the list |
| MyReservations.StatusColor | src/screens/MyReservationsScreen.tsx:271-279 | a fixed colour for ACTIVE, COMPLETED, CANCELLED and NO_SHOW; grey exactly for every other status |
| MyReservations.PastShown | src/screens/MyReservationsScreen.tsx:462 | at most the first ten past reservations, all of them when there are ten or fewer |
| MyReservations.MarkRead | src/screens/MyReservationsScreen.tsx:215-217 | same length; exactly the entries with the id become read, the rest unchanged |
| MyReservations.AllRead | src/screens/MyReservationsScreen.tsx:243 | same length and order, every entry read |
| MyReservations.WithoutId | src/screens/MyReservationsScreen.tsx:253 | no entry with the id is left, and every other entry stays |
| MyReservations.CountUnread | src/screens/MyReservationsScreen.tsx:376 | the unread count never exceeds the list |
| MyReservations.Filtered | src/screens/MyReservationsScreen.tsx:331-333 | every notification when the switch is off; otherwise exactly the unread ones |
| MyReservations.UnreadFilterMatchesCount | src/screens/MyReservationsScreen.tsx:331-333 | the unread-only list has exactly as many entries as there are unread notifications, all unread |
| MyReservations.AllReadLeavesNoneUnread | src/screens/MyReservationsScreen.tsx:242-243 | after mark-all nothing is unread |
| MyReservations.MarkReadLowersUnread | src/screens/MyReservationsScreen.tsx:213-217 | marking one id read never raises the unread count and leaves that id read |
| MyReservations.PressDialog | src/screens/MyReservationsScreen.tsx:220-233 | the reservation's details exactly when it names a reservation whose lookup succeeds; the notification text otherwise |
| MyReservations.NotificationList.Press | src/screens/MyReservationsScreen.tsx:211-218 | an unread notification calls the server and becomes read in the list; a read one makes no call and changes nothing |
| MyReservations.NotificationList.MarkAllAsRead | src/screens/MyReservationsScreen.tsx:239-248 | nothing without a user; otherwise every entry becomes read, and the failure alert never shows |
| MyReservations.NotificationList.Delete | src/screens/MyReservationsScreen.tsx:250-257 | the entries with the id always leave the list, and the failure alert never shows |
| MyReservations.NotificationList.constructor | src/screens/MyReservationsScreen.tsx:65 | the list starts with the loaded notifications |
| MyReservations.NotificationList.UnreadBadge | src/screens/MyReservationsScreen.tsx:376 | the badge equals the length of the unread-only list |
| Ranking.TypeGuardsExact | src/screens/RankingScreen.tsx:68-74 | each type guard recognises exactly its own kind of row |
| Ranking.ToggleSort | src/screens/RankingScreen.tsx:204-206 | toggling always changes the sort key |
| Ranking.ToggleSortInvolution | src/screens/RankingScreen.tsx:204-206 | toggling twice is the identity |
| Ranking.Insert | src/screens/RankingScreen.tsx:124-130 | inserting into a non-increasing list keeps it non-increasing and adds exactly that element |
| Ranking.SortDesc | src/screens/RankingScreen.tsx:124-130 | the result is non-increasing by the key and a permutation of the input |
| Ranking.StudentRow | src/screens/RankingScreen.tsx:113-122 | the row copies id, score and streak, names the student id (or empty), and is flagged iff its id is the current user's |
| Ranking.StudentRows | src/screens/RankingScreen.tsx:112-123 | one row per user, in order |
| Ranking.StudentRankings | src/screens/RankingScreen.tsx:112-130 | one row per user, sorted non-increasingly by score or streak, with exactly the current user's rows flagged |
| Ranking.CurrentUserRank | src/screens/RankingScreen.tsx:135-138 | the 1-based position of the first row with the user's id, 0 when absent; unchanged without a current user |
| Ranking.FacultyCode | src/screens/RankingScreen.tsx:145 | the maximal leading run of A–Z, or `OTHER` when the id does not start with one |
| Ranking.LeadingUpper | src/screens/RankingScreen.tsx:145 | the longest prefix made of capital letters: every character of it is A–Z and the next one is not |
| Ranking.FacultyName | src/screens/RankingScreen.tsx:146 | the mapped faculty of the code, `Diğer` for an unknown code |
| Ranking.NoLetterPrefixIsOther | src/screens/RankingScreen.tsx:145-146 | an id not starting with a capital letter, such as an all-digit one, lands in `Diğer` |
| Ranking.AggregateFaculties | src/screens/RankingScreen.tsx:141-155 | the faculty names are exactly `FacultiesMet(students)`, the first-met order in which `Object.values` lists the keys; one entry per faculty met, holding its members in order, their number and their total score; the counts sum to the number of students |
| Ranking.FacultiesMet | src/screens/RankingScreen.tsx:148-154 | reference order of the faculties: each faculty of the students once, in the order its first student appears |
| Ranking.VisitKeepsOrder | src/screens/RankingScreen.tsx:148-150 | a visit appends the student's faculty exactly when it is met for the first time, so the names stay in first-met order |
| Ranking.Visit | src/screens/RankingScreen.tsx:148-154 | one step: the faculty is created when new, then gets the student's score, one more count and the student |
| Ranking.VisitStep | src/screens/RankingScreen.tsx:148-154 | visiting student n keeps the aggregate of the first n students accurate for the first n + 1 |
| Ranking.FacultyRows | src/screens/RankingScreen.tsx:157-163 | one row per faculty with its total, its count and `Math.round(total / count)` |
| Ranking.FacultyRankings | src/screens/RankingScreen.tsx:141-164 | rows sorted non-increasingly by average, each agreeing with its members' count, total and rounded average, one row per faculty (names pairwise distinct), with every student's faculty present |
| Ranking.RowsFromAggregate | src/screens/RankingScreen.tsx:157-163 | the unsorted rows agree with the students, have distinct names and cover every student's faculty |
| Ranking.PermutationKeeps | src/screens/RankingScreen.tsx:164 | sorting the rows keeps each row faithful and keeps the set of faculties |
| Ranking.PermutationKeepsNamesDistinct | src/screens/RankingScreen.tsx:164 | sorting rows with distinct names leaves their names distinct |
| Ranking.RankIcon | src/screens/RankingScreen.tsx:209-216 | medals for ranks 1–3, `n.` otherwise |
| Ranking.RankColor | src/screens/RankingScreen.tsx:218-222 | gold iff rank ≤ 3, silver iff 4–10, bronze iff above 10 |
| Home.Fmt | src/screens/HomeScreen.tsx:138-143 | for a non-negative duration the text is two-or-more hour digits, two minute digits below 60 and two second digits below 60, reading back as its whole seconds |
| Home.ClockLayout | src/screens/HomeScreen.tsx:142 | `h:mm:ss` built from digit strings (hours two or more digits, minutes and seconds two digits below 60) reads back as 3600h + 60m + s |
| Home.ClockArithmetic | src/screens/HomeScreen.tsx:139-141 | hours, minutes within the hour and seconds within the minute add up to the whole seconds |
| Home.NextRemaining | src/screens/HomeScreen.tsx:129-134 | a tick never raises the countdown, stops it on a break, turns a non-positive value into 0, and never goes below −1000 |
| Home.CountdownEnds | src/screens/HomeScreen.tsx:129-134 | off a break the countdown reaches 0 after `remaining / 1000 + 2` ticks |
| Home.NegativeTickShown | src/screens/HomeScreen.tsx:130 | 500 ms off a break ticks to −500, which is shown as `-1:-1:-1` |
| Home.ClampedNextRemaining | src/screens/HomeScreen.tsx:130 | the corrected tick never goes below zero |
| Home.ClampedAgrees | src/screens/HomeScreen.tsx:130 | the corrected tick equals the source's whenever that one is non-negative; they differ only below one second off a break |
| Home.ClampedTickReadsBack | src/screens/HomeScreen.tsx:138-143 | after a corrected tick the countdown text always reads back as the whole seconds left |
| Home.CountdownTimer.constructor | src/screens/HomeScreen.tsx:55-57 | countdown 0, break counter fifteen minutes, not on a break |
| Home.CountdownTimer.Start | src/screens/HomeScreen.tsx:101-103 | the countdown is set to the reservation's end minus now, nothing else changes |
| Home.CountdownTimer.Tick | src/screens/HomeScreen.tsx:129-134 | the countdown follows the tick rule; the break counter drops by a second (not below 0) only on a break; it stays a whole number of seconds within fifteen minutes |
| Home.CountdownTimer.TickClamped | src/screens/HomeScreen.tsx:129-134 | the corrected tick: same break counter, and a countdown that is never negative |
| Home.CountdownTimer.ToggleBreak | src/screens/HomeScreen.tsx:145 | flips the break flag and nothing else |
| Home.ActiveCountdown | src/screens/HomeScreen.tsx:94-103 | the first running reservation with end − now remaining, which lies between 0 and its length |
| Home.SlotLabelHours | src/screens/HomeScreen.tsx:154-155 | `HH:00–HH:00`, eleven characters, naming the start hour and the hour after it |
| Home.TimeSlots | src/screens/HomeScreen.tsx:148-158 | exactly 24 slots, slot i standing for offset i and labelled with the local hours i and i + 1 from now |
| Home.Slot | src/screens/HomeScreen.tsx:152-155 | slot i stands for offset i |
| Home.SlotWindow | src/screens/HomeScreen.tsx:164-166 | the window queried for a slot is exactly one hour long |
| Home.SlotWindowsDisjoint | src/screens/HomeScreen.tsx:164-166 | every slot is one hour long; consecutive slots meet, distinct ones never overlap |
| Home.SlotOccupancy | src/screens/HomeScreen.tsx:168-179 | the occupancy of the pending count over 200 seats, or the random draw when the query fails; always 0..100 |
| Home.SlotOccupancyFromQuery | src/screens/HomeScreen.tsx:168-179 | the occupancy shown is that of the room-pending list as the API module settles it; the random draw only when the endpoint's body does not parse; 0 when every request fails |
| Home.QuickScanGate | src/screens/HomeScreen.tsx:187-223 | no user gives an error; without an active reservation entry is refused and exit asks first; with one the scan proceeds |
| Home.DigitsOnly | src/screens/HomeScreen.tsx:237 | exactly the digits of the text, in order |
| Home.StudentIdNumber | src/screens/HomeScreen.tsx:236-243 | a text id is refused exactly when it holds no digit, and otherwise reads as its digits; a numeric id is used as is |
| Home.ScanErrorMessage | src/screens/HomeScreen.tsx:285-295 | 404 gives not found, then 400 invalid, then network/fetch connection, otherwise (or with no message) the default |
| Register.EmailFromParts | src/screens/RegisterScreen.tsx:72-73 | any `a@b.c` built from white-space-free, `@`-free parts (c without a dot) passes the e-mail pattern |
| Register.EmailShape | src/screens/RegisterScreen.tsx:72-73 | an accepted address has no white space and exactly one `@`, not at the front |
| Register.ValidateRegistration | src/screens/RegisterScreen.tsx:66-119 | each of the nine checks fails exactly when all earlier ones pass and it does not; accepted iff trimmed e-mail and student id, untrimmed password, matching confirmation and agreement all pass; the password's length is counted in UTF-16 code units |
| Register.FailureTitle | src/screens/RegisterScreen.tsx:66-111 | the alert title is `Zayıf Şifre` exactly for the missing-character-class failure and `Hata` for every other one |
| Register.RegisterAlert | src/screens/RegisterScreen.tsx:66-119 | no alert exactly when the form is sent; otherwise, for each of the nine first failures, the exact title and message the screen shows |
| Register.StrengthScore | src/screens/RegisterScreen.tsx:195-202 | the number of the five checks met, 0..5, and 0 only when none holds |
| Register.PasswordStrength | src/screens/RegisterScreen.tsx:193-213 | empty label and score 0 for an empty password; otherwise the score and the level `max(0, score − 1)` |
| Register.AcceptedPasswordIsStrong | src/screens/RegisterScreen.tsx:94-101 | a password the form accepts scores at least 4, shown as `Güçlü` or `Çok Güçlü` |
| Register.StrongPasswordRated | src/screens/RegisterScreen.tsx:193-213 | a password of at least 8 UTF-16 units with an upper-case letter, a lower-case letter and a digit scores at least 4 on the meter, shown as `Güçlü` or `Çok Güçlü` |
| Register.RegisterErrorMessage | src/screens/RegisterScreen.tsx:172-181 | already-exists/409 gives duplicate, then network connection, then 400 invalid, otherwise (or without a string message) the default |
| Register.SampleStudentId | src/screens/RegisterScreen.tsx:222-227 | nine digits starting with 1 or 2 |
| Register.SampleStudentIdTrimmed | src/screens/RegisterScreen.tsx:222-227 | `trim()` leaves a sample id as it is, so it passes the student-id check |
| Register.SampleStudentIdValue | src/screens/RegisterScreen.tsx:224-227 | the id reads as the first draw plus one, the zero-padded middle draw and the last draw side by side |
| Login.ValidateLogin | src/screens/LoginScreen.tsx:57-79 | each of the four checks fails exactly when the earlier ones pass and it does not; `@` and length are checked untrimmed, the length in UTF-16 code units |
| Login.LoginAlert | src/screens/LoginScreen.tsx:57-79 | no alert exactly when login goes ahead; otherwise `Hata` with the message of the first failing check, stated for each check's input condition |
| Login.RegisteredCredentialsPassLogin | src/screens/LoginScreen.tsx:57-79 | credentials the registration form accepts, the address trimmed, pass the login form |
| Login.RestoredEmail | src/screens/LoginScreen.tsx:45-51 | the saved address is restored exactly when it is non-empty and remember-me is stored as `true` |
| Login.LoginStorageEffect | src/screens/LoginScreen.tsx:90-118 | session keys written (student id empty when null); remember-me keys set with the trimmed address or removed; profile and score written only when fetched; every other key untouched |
| Login.RememberedEmailRestored | src/screens/LoginScreen.tsx:97-103 | after a login the next visit restores the trimmed address exactly when remember-me was checked |
| Login.HandleLoginWrites | src/screens/LoginScreen.tsx:90-114 | the store after the ordered writes and removals is exactly `LoginStorage` of the store before |
| Login.LoginErrorMessage | src/screens/LoginScreen.tsx:136-146 | 404/401 gives wrong credentials, then network/fetch connection, any other message itself, no message the default |
| Tutorial.StartupRoute | src/screens/TutorialScreen.tsx:80-101 | login iff no user id or a read failed; main iff `tutorialSeen` is `true`; the tutorial otherwise |
| Tutorial.NextPreviousInverse | src/screens/TutorialScreen.tsx:107-130 | next and previous undo each other and keep the page in 0..4 |
| Tutorial.ForwardReachesLast | src/screens/TutorialScreen.tsx:108-111 | k presses of next from a page move exactly k pages while the last page is not passed |
| Tutorial.NextButtonCaption | src/screens/TutorialScreen.tsx:283-285 | `Başla` exactly on the last page, `İleri` otherwise |
| Tutorial.PageCounter | src/screens/TutorialScreen.tsx:276-280 | the whole `{page + 1} / {slides}` text: the 1-based page's digits, then ` / `, then digits reading back as the number of slides; `parseInt` of the whole text gives the page |
| Tutorial.CounterLayout | src/screens/TutorialScreen.tsx:276-280 | the counter text splits at ` / ` into exactly the page's digits and the slide count's digits |
| Tutorial.CounterReadsAsPage | src/screens/TutorialScreen.tsx:276-280 | `parseInt` of the counter text stops at the space and reads the page number |
| Tutorial.Pager.constructor | src/screens/TutorialScreen.tsx:74 | the pager starts on page 0 |
| Tutorial.Pager.OnNext | src/screens/TutorialScreen.tsx:107-122 | below the last page exactly one page on with the store untouched; on the last page `tutorialSeen` is written when the write succeeds and the route is main either way |
| Tutorial.Pager.OnPrevious | src/screens/TutorialScreen.tsx:124-130 | one page back, nothing on page 0, the page staying in range |
| Tutorial.Pager.GoToPage | src/screens/TutorialScreen.tsx:155-158 | the page becomes the dot's index |
| Tutorial.Pager.OnScrollEnd | src/screens/TutorialScreen.tsx:201-204 | the nearest page to the offset, within range |
| Tutorial.Pager.OnSkip | src/screens/TutorialScreen.tsx:132-153 | only a confirmed skip routes to main; it records `tutorialSeen` when the write succeeds |
| Tutorial.SeenTutorialGoesToMain | src/screens/TutorialScreen.tsx:89-93 | once the tutorial is recorded as seen, a logged-in user starts on the main screen |
| Text.Trim | src/screens/LoginScreen.tsx:58 | the middle of the string once a white-space prefix and suffix are cut off, neither starting nor ending with white space |
| Text.TrimEmptyIffBlank | src/screens/LoginScreen.tsx:58 | `!s.trim()` holds exactly for an all-white-space string |
| Text.ContainsCharIff | src/screens/LoginScreen.tsx:63 | `includes` of one character holds exactly when some position holds it |
| Text.ToLower | src/screens/SummaryScreen.tsx:161 | same length, each ASCII capital lowered, everything else kept |
| Text.PadStart | src/screens/SummaryScreen.tsx:51 | `padStart`: the string right-aligned to the width with the fill character in front |
| Text.Pad2 | src/screens/SummaryScreen.tsx:51 | at least two digits reading back as the number |
| Text.ParseInt | src/screens/SummaryScreen.tsx:75 | NaN exactly when no digit follows the leading white space and optional sign |
| Text.ParseIntRoundTrip | src/screens/SummaryScreen.tsx:75 | `parseInt` of a rendered integer gives the integer |
| Text.JsRem | src/screens/HomeScreen.tsx:139-140 | JavaScript's `%`: the remainder has the sign of the dividend and the magnitude of the Euclidean one |
| Text.Utf16Length | src/screens/RegisterScreen.tsx:94 | JavaScript's `length`: one unit per character below U+10000 and two above, so between the number of characters and twice it, and equal to it for text without astral characters |
| Lists.Filter | src/screens/MyReservationsScreen.tsx:95-96 | keeps exactly the elements satisfying the test, in input order |
| Lists.FindIndex | src/screens/RankingScreen.tsx:136 | the first position satisfying the test, or −1 when none does |
| Lists.Find | src/screens/MyReservationsScreen.tsx:89-93 | None exactly when no element passes the test; otherwise the element at the first passing position |
| Lists.Take | src/screens/MyReservationsScreen.tsx:462 | `slice(0, n)`: the first min(n, length) elements |
| Storage.DeviceStorage.SetItem | src/screens/LoginScreen.tsx:90 | the key maps to the value; every other key is kept |
| Storage.DeviceStorage.RemoveItem | src/screens/LoginScreen.tsx:101-102 | the key is gone; every other key is kept |

## Left out

- Network I/O, URL building and the backend are not modelled. Each call's outcome is an input: an `Option`, a `Transport` for `enhancedFetch`, or an `EndpointOutcome` (answered, unavailable, body not parsable) for the pending calls. JSON parsing itself and the server-side rules (conflicts, scores, streaks) are not modelled.
- Of the request bodies only `createReservation`'s is modelled, as its list of key/value pairs. `JSON.stringify`'s text and the other calls' bodies are not.
- `Promise.allSettled`/`Promise.all` fan-out, the 300 ms debounce, `setInterval`/`setTimeout` scheduling and async ordering are not modelled. Only the resulting values and a single timer tick are.
- React rendering, styles, navigation stacks, Alert dialogs and Lottie are left out. A dialog or route is returned as a value. The pan/zoom gestures and `resetView` of the floor plan are left out too.
- JavaScript `Date` is not modelled: time zones, DST, `toISOString`, `toLocaleTimeString`/`toLocaleDateString`. Times are epoch milliseconds or calendar fields. The local hour and weekday are parameters, and the hours of `TimeSlots` are taken as `(nowHour + i) % 24` (no clock change within the day).
- `MapFloor.ClassifyChair`: the estimate compares integer hundredths where the source compares binary floating-point fractions. A value equal to a threshold that floats round differently (for example 0.65 against 0.7 − 0.05) may be classified differently.
- `Booking.OccupancyPercent`: the source rounds `(c / 200) * 100` in floating point. The model rounds c/2 exactly (its contract pins that value), so the double rounding at a few counts (c = 29, 57, 113, 115) is not modelled.
- `Math.random` is not modelled. The random draws of the home occupancy fallback and of the sample student id are parameters.
- Regular expressions are written as character predicates. `toLowerCase` maps only the ASCII letters, so non-ASCII case mapping (Turkish `İ`, for example) is left out.
- The `catch` branch of `analyzeReservation` (fixed 50 % and three fixed lines) is not modelled. Every step of its `try` body is total in the model.
- `Ranking.SortDesc` does not state that equal keys keep their input order (`Array.prototype.sort` is stable); it states ordering and permutation only.
- `parseInt` is modelled on unbounded integers, so precision loss above 2^53 is not modelled.
- `Text.Utf16Length`: strings are sequences of Unicode scalar values, so a lone surrogate cannot occur. JavaScript's `length` is otherwise counted exactly, one unit below U+10000 and two above.
- Registration's storage writes and its profile/score prefetch (`handleRegister`) are not modelled; only its error message is. The login's store writes are modelled as always succeeding.
- The home screen's `loadNotifications` keeping the five most recent notifications is not modelled.
- ProfileScreen and AuthLoadingScreen are not part of this model. Their only logic is removing `userId` on logout and routing on its presence.
- Console logging and the debug dialog's `JSON.stringify` output are not modelled.

## Findings

| source | as written | input that shows it | evidently intended | confidence | as-written member | corrected member |
|---|---|---|---|---|---|---|
| src/screens/HomeScreen.tsx:130 | a positive countdown drops by 1000 even when less than 1000 remains | remaining = 500 off a break ticks to −500, shown as `-1:-1:-1` for one second | the countdown stops at `00:00:00` | not executed | Home.NegativeTickShown | Home.CountdownTimer.TickClamped |
| src/api/api.ts:202-227 | the room-pending call resolves with `[]` when its endpoint and its fallback both fail, so the floor plan's `Promise.allSettled` records it as fulfilled | every request failing: the plan is drawn as live with all 200 seats free, labelled `KÄ±smi veriler` | a total outage shows the estimated plan under `Tahmini veri` | medium, not executed | MapFloor.TotalOutageShowsFreeFloor | MapFloor.TotalOutageShowsEstimate |
