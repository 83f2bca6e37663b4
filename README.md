# Geofence transition handler — a Dafny model

This project models the one piece of logic in the Cordova geofence plugin's Android
side: `ReceiveTransitionsIntentService.onHandleIntent`, which reacts to a geofence
transition delivered by the location services, and the static helper `addDays`.

When a transition arrives the handler:

- answers a platform error with the broadcast extra `"Location Services error: " + code`;
- answers a transition that is neither ENTER nor EXIT with `"Geofence transition error: " + type`;
- otherwise walks the triggered fence ids in order, looks each one up in the
  notification store, decides for each stored payload whether to call `notify`
  (a payload with `byDate` set goes through a date-window test), stamps every found
  configuration with the transition type, and attaches the collected list as
  `transitionData` when it is not empty.

The model replaces the platform with values:

- The event is the datatype `GeofencingEvent` (`hasError`, `errorCode`, `transitionType`, `ids`).
- The store is a read-only `map<string, GeoNotification>`.
- The clock is a millisecond reading `nowMillis` on the local wall clock, passed in.
- `SimpleDateFormat.parse` with the pattern `yyyy-MM-dd HH:mm` is a partial function
  `parse: string -> Option<int>`, passed in, giving whole minutes on the same clock.
- The calls to `notify` are the output sequence `notified`.
- The broadcast is the `Outcome`: `Broadcast(extras)` or `Aborted`.
- The transition constants are the location services API's ENTER = 1, EXIT = 2, DWELL = 4.

Files:

- `wrappers.dfy`: `Option`.
- `decimal.dfy`: `Integer.toString(int)` and its inverse.
- `wall_clock.dfy`: truncating now to the minute, and `addDays`.
- `transitions.dfy`: the data model, the window decision `Decide`, the specification
  `Handle`, and the imperative `OnHandleIntent` with its loop proved against `Handle`.
- `transition_properties.dfy`: the properties of the handler.

Points where the code differs from its obvious reading, modelled as the code does them:

- **The lead-time bound is anchored on now.** `futureDate = addDays(today, preTimeRange)`.
  So a dated payload fires iff `today < since < today + preTimeRange days` and
  `today < until`. It fires while the start is still ahead, never inside since..until
  (`InsideWindowNeverFires`).
- **The emptiness guard compares references.** `since != ""` is Java reference
  comparison. Strings are modelled as `JavaString = Null | EmptyLiteral | Chars(text)`.
  Only the interned empty literal fails the guard. An empty string built at run time
  passes it (`EmptyTextPassesGuard`). A `null` field passes too and concatenates as "null".
- **The midnight fallback is dead.** The second `time != ""` test repeats the guard,
  so the `" 00:00"` branch is never taken (`MidnightFallbackUnreachable`).
- **A parse failure crashes the handler.** The `catch` only prints the exception
  and leaves the dates null. The window test then dereferences them:
  - a start date that fails to parse always throws (`DecideSinceUnparsed`);
  - an end date that fails to parse throws only when the first two conjuncts hold (`DecideUntilUnparsed`).

  The handler then ends before `sendBroadcast`. The model calls this `Aborted`, and
  the `notify` calls made for earlier ids stay in `notified`.

## Model

| member | source | states |
|---|---|---|
| `ReceiveTransitions.OnHandleIntent` | src/android/ReceiveTransitionsIntentService.java:57-135 | The handler's outcome and notify calls are exactly `Handle`'s: the two error broadcasts, or the loop over the triggered ids with the collected list, the notify calls and the first crash. |
| `ReceiveTransitions.CheckDateWindow` | src/android/ReceiveTransitionsIntentService.java:92-114 | The guard, the nullable dates assigned in the `try` block and the window test give exactly the decision `Decide` makes for a dated payload at the minute of `nowMillis`. |
| `ReceiveTransitions.FirstCrash` | src/android/ReceiveTransitionsIntentService.java:83-111 | When some triggered id crashes, there is a first position that crashes, and no id before it crashes. |
| `ReceiveTransitions.FirstCrashAt` | src/android/ReceiveTransitionsIntentService.java:83-111 | A crash directly after a crash-free prefix is the first crash. |
| `ReceiveTransitions.LookupsConcat` | src/android/ReceiveTransitionsIntentService.java:83-121 | The list collected for `a + b` is the list for `a` followed by the list for `b`: trigger order is kept. |
| `ReceiveTransitions.FiredConcat` | src/android/ReceiveTransitionsIntentService.java:83-117 | The notify calls for `a + b` are those for `a` followed by those for `b`. |
| `TransitionProperties.LocationErrorReported` | src/android/ReceiveTransitionsIntentService.java:68-74 | With an error, the broadcast carries "Location Services error: " plus the code, which reads back as the code. Nothing is notified. The result does not depend on the store, the clock or the parser. |
| `TransitionProperties.LocationErrorsDistinguishCodes` | src/android/ReceiveTransitionsIntentService.java:70-71 | Different error codes give different broadcasts. |
| `TransitionProperties.TransitionErrorReported` | src/android/ReceiveTransitionsIntentService.java:77-131 | A transition other than ENTER or EXIT is broadcast as "Geofence transition error: " plus the type, which reads back as the type. Nothing is notified. The store, the clock and the parser are not consulted. |
| `TransitionProperties.LookupsEmptyIff` | src/android/ReceiveTransitionsIntentService.java:124-127 | The collected list is empty exactly when no triggered id has a stored configuration. |
| `TransitionProperties.LookupsAreStampedConfigs` | src/android/ReceiveTransitionsIntentService.java:119-120 | Every listed entry carries the event's transition type, and is a stored configuration of some triggered id with that stamp. |
| `TransitionProperties.OccurrenceContribution` | src/android/ReceiveTransitionsIntentService.java:83-121 | The id at position k adds its own share to the list and to the notify calls, between those of the earlier and the later ids. So duplicates are processed once per occurrence. |
| `TransitionProperties.AbsentIdContributesNothing` | src/android/ReceiveTransitionsIntentService.java:85-88 | An id with no stored configuration adds nothing to the list or to the notify calls, and cannot crash. |
| `TransitionProperties.NullPayloadListedNotNotified` | src/android/ReceiveTransitionsIntentService.java:88-121 | A configuration whose payload is null is listed, stamped, at its position, and never notified. |
| `TransitionProperties.UndatedNotifiedPerOccurrence` | src/android/ReceiveTransitionsIntentService.java:115-117 | A payload without `byDate` is notified exactly once at each occurrence of its id, and its configuration is listed there. |
| `TransitionProperties.DatedNotifiedWhenEligible` | src/android/ReceiveTransitionsIntentService.java:91-120 | A dated payload is listed at each occurrence, and notified there exactly when its window decision is Fire. |
| `TransitionProperties.FiredAreEligiblePayloads` | src/android/ReceiveTransitionsIntentService.java:88-117 | Every notified payload belongs to a stored configuration of a triggered id, and its window decision is Fire. |
| `TransitionProperties.HandleListsStoredConfigs` | src/android/ReceiveTransitionsIntentService.java:124-127 | On ENTER/EXIT without a crash, all eligible payloads are notified in trigger order. The broadcast carries the collected list when some triggered id is stored, and no extra otherwise. |
| `TransitionProperties.HandleAbortsOnCrash` | src/android/ReceiveTransitionsIntentService.java:108-111 | If any triggered id crashes, nothing is broadcast. The notify calls made are exactly those of the ids before the first crash, a crashing position at or before that id with no crash before it. |
| `TransitionProperties.DwellReported` | src/android/ReceiveTransitionsIntentService.java:128-131 | A DWELL event (type 4) is broadcast as exactly "Geofence transition error: 4", with nothing notified. |
| `TransitionProperties.DecideUndated` | src/android/ReceiveTransitionsIntentService.java:115-117 | A payload without `byDate` always fires. |
| `TransitionProperties.DecideGuardRejects` | src/android/ReceiveTransitionsIntentService.java:92 | A dated payload with a window field equal to the empty literal is passed over. |
| `TransitionProperties.EmptyTextPassesGuard` | src/android/ReceiveTransitionsIntentService.java:92 | Fields holding an empty string that is not the literal pass the guard. |
| `TransitionProperties.MidnightFallbackUnreachable` | src/android/ReceiveTransitionsIntentService.java:102-105 | Under the guard, the start text is always the date joined with `time`. |
| `TransitionProperties.DecideDatedWindow` | src/android/ReceiveTransitionsIntentService.java:99-113 | When both dates parse, a dated payload never crashes. It fires iff `today < since`, `since < addDays(today, preTimeRange)` and `today < until`. |
| `TransitionProperties.DecideSinceUnparsed` | src/android/ReceiveTransitionsIntentService.java:103-111 | A start date that does not parse always crashes. |
| `TransitionProperties.DecideUntilUnparsed` | src/android/ReceiveTransitionsIntentService.java:106-111 | An end date that does not parse never fires. It crashes iff `today < since < addDays(today, preTimeRange)`. |
| `TransitionProperties.FiringNeedsLeadTime` | src/android/ReceiveTransitionsIntentService.java:101-111 | A dated payload fires only with `preTimeRange > 0`. Its start then lies strictly between now and `preTimeRange` days after now. |
| `TransitionProperties.InsideWindowNeverFires` | src/android/ReceiveTransitionsIntentService.java:111 | Once the start minute has come, the payload does not fire. |
| `WallClock.TruncateToMinute` | src/android/ReceiveTransitionsIntentService.java:100 | `today` is the minute containing the millisecond reading. |
| `WallClock.AddDays` | src/android/ReceiveTransitionsIntentService.java:40-46 | `addDays` moves the calendar day by `days` and keeps the time of day. |
| `WallClock.AddDaysIsCalendarShift` | src/android/ReceiveTransitionsIntentService.java:40-46 | Any instant on the shifted day at the same time of day is `AddDays`'s result. |
| `WallClock.AddDaysZero` | src/android/ReceiveTransitionsIntentService.java:40-46 | A shift by zero days returns the same instant. |
| `WallClock.AddDaysCompose` | src/android/ReceiveTransitionsIntentService.java:40-46 | Two shifts compose to one shift by the sum. |
| `WallClock.AddDaysInverse` | src/android/ReceiveTransitionsIntentService.java:40-46 | Shifting back by the same count restores the instant. |
| `WallClock.AddDaysOrder` | src/android/ReceiveTransitionsIntentService.java:44 | A positive count moves later and a negative count moves earlier. |
| `Decimal.IntToString` | src/android/ReceiveTransitionsIntentService.java:71 | `Integer.toString` starts with a minus sign exactly for negative numbers, followed by digits only, with no leading zero except for 0 itself. |
| `Decimal.NatDigitsRoundTrip` | src/android/ReceiveTransitionsIntentService.java:71 | The decimal digits of a natural number read back as that number. |
| `Decimal.IntToStringRoundTrip` | src/android/ReceiveTransitionsIntentService.java:71 | The rendering of any integer reads back as that integer. |
| `Decimal.IntToStringInjective` | src/android/ReceiveTransitionsIntentService.java:129 | Different integers render differently. |

## Left out

- Android plumbing is not modelled: the `IntentService` lifecycle, the constructor, `NotificationManager`, `BeepHelper`, `Logger`, `sendBroadcast` and the intent action. The model records only what the broadcast would carry.
- `GeofencingEvent.fromIntent` and the Google Play `Geofence` types are not modelled. They are replaced by the `GeofencingEvent` datatype; a fence is its request id.
- The notification store's persistence is not modelled. It is a read-only map. Each lookup is taken to return its own copy of the configuration, so stamping it does not write back into the store. Every stamp in one call uses the same transition type, so the collected list would be the same with shared copies.
- `GeoNotificationNotifier.notify` rendering is not modelled. Each call is recorded in `notified`.
- The Gson serialisation of the list and `GeofencePlugin.onTransitionReceived` are foreign calls. Both are represented by the `TransitionData` extra, which the code produces under the same condition.
- `SimpleDateFormat` parsing (its leniency and accepted inputs) is not modelled. It is the `parse` parameter.
- Time zones and daylight-saving transitions are not modelled. The wall clock counts plain minutes with 1440 per day, so `AddDays` is exact only on days without a clock change.
- `OnHandleIntent`: the source reads `System.currentTimeMillis()` afresh for every dated payload. The model uses one reading `nowMillis` for the whole call.
- A thrown exception is modelled only as `Aborted`. What the platform does with an exception from `onHandleIntent` is not modelled.
- Fields of the stored configuration and payload that the handler does not read (coordinates, radius, notification text) are not modelled.
