# Booking report dashboard — Dafny model

A model of the logic inside the `ReportDashboard` micro-frontend component.
The component reads the booking history from local storage and reduces it to
three views: the total number of tickets, the seats per user and the seats
per hour. It refreshes those views whenever a `ticketBooked` event arrives.
It shows them only to a session user whose role is `admin` or `manager`.

Modules, one per concept of the component:

- `Bookings`: the `Booking` record, its seat count and its effective user. An empty id counts as `"unknown"`.
- `Clock`: hour labels `"H:00"`. The local-time decomposition `Date.getHours()` is a parameter `hourOf: int -> Hour`. A timestamp outside the `Date` range gives `"NaN:00"`.
- `Tally`: the insertion-ordered counter standing for the plain object plus `Object.keys`. `Bump` adds to an existing key in place or appends a new key.
- `Aggregator`: `CalculateStats`. `Group` is the left-to-right grouping pass. `KeySeq` (keys in input order) and `SeatsUnder` (seats per key) are independent reference definitions that the lemmas relate it to.
- `Storage`: the decoded local store. `LoadBookings` reads an absent key as `[]`. `OnTicketBooked` is the event handler: load, append, write back, recompute.
- `Access`: the session user and the `canViewReports` gate.
- `Dashboard`: mount, event delivery, replay of an event sequence, and rendering as access denied or report.
- `ObjectRecord`: the per-user grouping as written on a plain object literal, including the keys on which such an object is not a dictionary (see Findings).
- `Counting`, `Wrappers`: a pigeonhole lemma and `Option`.

Hour labels are `"0:00"`…`"23:00"` and one more. `new Date(ts)` is an invalid
date when `ts` lies outside the `Date` range. `getHours()` of an invalid date
is `NaN`, so the template literal yields `"NaN:00"` for such a booking. The
model includes that label.

## Model

| member | source | states |
|---|---|---|
| `Bookings.EffectiveUser` | src/components/ReportDashboard.tsx:52 | specified by `Bookings.UnknownMerges` |
| `Bookings.TotalSeats` | src/components/ReportDashboard.tsx:46 | specified by `Bookings.TotalSeatsAppend` and by `Aggregator.Group`, whose counts sum to it |
| `Bookings.TotalSeatsAppend` | src/components/ReportDashboard.tsx:46 | the total of a concatenated history is the sum of the parts' totals |
| `Clock.HourLabel` | src/components/ReportDashboard.tsx:62-63 | specified by `Clock.HourLabelShape` and `Aggregator.PerHourLabels` |
| `Tally.Bump` | src/components/ReportDashboard.tsx:53 | adding n under a key: a known key keeps its place and grows by n, an unseen key is appended last; the sum grows by n and every other key's count is unchanged |
| `Tally.LookupAbsent` | src/components/ReportDashboard.tsx:53 | a key the tally does not hold reads as 0, the default the update falls back to |
| `Tally.BumpDistinct` | src/components/ReportDashboard.tsx:50-54 | the accumulator stays a dictionary: keys remain pairwise distinct |
| `Bookings.UnknownMerges` | src/components/ReportDashboard.tsx:52 | a booking is counted under "unknown" exactly when its id is empty or is literally "unknown" |
| `Aggregator.Group` | src/components/ReportDashboard.tsx:50-57 | one grouping pass has distinct keys, its counts sum to the total seats, it has at most one entry per booking, and it is empty exactly when there are no bookings |
| `Aggregator.CalculateStats` | src/components/ReportDashboard.tsx:44-69 | total == sum of per-user counts == sum of per-hour counts; both groupings have distinct keys; the per-hour view is empty iff there are no bookings |
| `Aggregator.GroupCounts` | src/components/ReportDashboard.tsx:51-54 | the count looked up under any key equals the seats of exactly the bookings carrying that key (0 when none do) |
| `Aggregator.GroupKeys` | src/components/ReportDashboard.tsx:50-57 | a key has an entry iff some booking carries it |
| `Aggregator.GroupEntryCounts` | src/components/ReportDashboard.tsx:51-56 | every listed entry's count is the seat total of the bookings with its key |
| `Aggregator.GroupFirstAppearance` | src/components/ReportDashboard.tsx:50-57 | entries are listed in the order their keys first occur in the input |
| `Aggregator.PerUserView` | src/components/ReportDashboard.tsx:49-57 | per-user entries: one per effective user present, in first-appearance order, each counting exactly that user's seats |
| `Aggregator.UnknownBucket` | src/components/ReportDashboard.tsx:52-53 | the "unknown" entry counts the seats of bookings with an empty id together with those whose id is "unknown" |
| `Aggregator.PerHourView` | src/components/ReportDashboard.tsx:59-68 | per-hour entries: one per hour label present, in first-appearance order, each counting the seats booked under that label |
| `Aggregator.PerHourLabels` | src/components/ReportDashboard.tsx:62-64 | every per-hour label is "H:00" with 0 <= H <= 23 or "NaN:00", and never "NaN:00" when all timestamps are valid dates |
| `Aggregator.PerHourBound` | src/components/ReportDashboard.tsx:60-68 | at most 25 per-hour entries, and at most 24 when all timestamps are valid dates |
| `Aggregator.SampleReport` | src/components/ReportDashboard.test.tsx:49-67 | user1 with seats [1,2] and user2 with [3] give total 3 and the list user1: 2, user2: 1 |
| `Clock.HourLabelRoundTrip` | src/components/ReportDashboard.tsx:63 | the label of hour H parses back to H |
| `Clock.ParseHourLabelCanonical` | src/components/ReportDashboard.tsx:63 | a label that parses to H is exactly H's label (decimal, no leading zero) |
| `Clock.HourLabelInjective` | src/components/ReportDashboard.tsx:63 | distinct hours get distinct labels |
| `Clock.HourLabelShape` | src/components/ReportDashboard.tsx:62-63 | a valid timestamp is labelled with its local hour; a timestamp is labelled "NaN:00" iff it is not a valid date, and "NaN:00" is no hour's label |
| `Storage.LoadBookings` | src/components/ReportDashboard.tsx:39-42 | specified by `Dashboard.EmptyHistoryReport` (absent key: no bookings) and `Storage.AppendKeepsHistory` |
| `Storage.OnTicketBooked` | src/components/ReportDashboard.tsx:89-93 | the handler writes "bookings", leaves every other storage key as it was, and its statistics are those of the stored list |
| `Storage.AppendKeepsHistory` | src/components/ReportDashboard.tsx:90-92 | the stored history grows by exactly one record; earlier records stay in place and in order; the payload is last |
| `Storage.IncrementalStats` | src/components/ReportDashboard.tsx:89-93 | recomputing from scratch equals bumping the previous views by the payload: total + its seats, its user's and hour's entries bumped, all other users unchanged |
| `Storage.LiveUpdateSample` | src/components/ReportDashboard.test.tsx:69-92 | a user3 booking with seats [4,5] adds 2 to user3's entry, and on an empty store yields the single entry user3: 2 |
| `Access.CurrentUser` | src/components/ReportDashboard.tsx:74-81 | specified by `Dashboard.GateDecidesView` and `Dashboard.ReplayFromMount`: an absent or unreadable "user" record gives no user |
| `Access.CanViewReports` | src/components/ReportDashboard.tsx:105-106 | specified by `Access.GateIsCaseSensitive` and `Dashboard.GateDecidesView` |
| `Access.GateIsCaseSensitive` | src/components/ReportDashboard.tsx:105-106 | "Admin", "MANAGER" and "customer" are refused and "admin" is admitted |
| `Dashboard.Mount` | src/components/ReportDashboard.tsx:72-84 | specified by `Dashboard.ReplayFromMount` with no events and by `Dashboard.EmptyHistoryReport` |
| `Dashboard.Replay` | src/components/ReportDashboard.tsx:89-94 | specified by `Dashboard.ReplayAppends` and `Dashboard.ReplayFromMount` |
| `Dashboard.Render` | src/components/ReportDashboard.tsx:104-115 | specified by `Dashboard.GateDecidesView` |
| `Dashboard.Deliver` | src/components/ReportDashboard.tsx:89-94 | a live event appends its payload to storage, recomputes the statistics from the stored list, and keeps the user |
| `Dashboard.ReplayAppends` | src/components/ReportDashboard.tsx:89-94 | after any number of events the history is the earlier one followed by the events in order and the user is unchanged; after at least one event the statistics are those of the whole history |
| `Dashboard.ReplayFromMount` | src/components/ReportDashboard.tsx:72-94 | after mount and any events the statistics equal CalculateStats of the initial history plus the events |
| `Dashboard.GateDecidesView` | src/components/ReportDashboard.tsx:104-115 | the report is shown iff session storage holds a readable "user" record whose role is admin or manager, whatever the stored data and events, and it then shows the whole history's statistics |
| `Dashboard.EmptyHistoryReport` | src/components/ReportDashboard.tsx:39-46 | with no stored bookings an admitted user sees total 0, no users and no hours |
| `ObjectRecord.BumpObjectRecord` | src/components/ReportDashboard.tsx:53 | specified by `ObjectRecord.BumpAgrees`, `ObjectRecord.ProtoUserLost` and `ObjectRecord.InheritedNameGarbled` |
| `ObjectRecord.GroupAsWritten` | src/components/ReportDashboard.tsx:50-54 | specified by `ObjectRecord.RecordAgrees` and the counterexample lemmas below |
| `ObjectRecord.BumpAgrees` | src/components/ReportDashboard.tsx:53 | on a key that is neither "__proto__" nor an inherited `Object.prototype` method name, the object update is exactly the dictionary bump |
| `ObjectRecord.RecordAgrees` | src/components/ReportDashboard.tsx:50-54 | on such keys the object the code fills holds exactly the intended counts, in creation order |
| `ObjectRecord.SortByRank` | src/components/ReportDashboard.tsx:56 | sorting keeps each property exactly as often as it occurs (with `ObjectRecord.SortByRankPermutes`) and puts them in ascending numeric order |
| `ObjectRecord.SortByRankPermutes` | src/components/ReportDashboard.tsx:56 | the sorted index properties are a permutation of the stored ones |
| `ObjectRecord.ObjectEntries` | src/components/ReportDashboard.tsx:56 | specified by `ObjectRecord.ObjectEntriesPermutes` and `ObjectRecord.NoIndexKeysListedInOrder` |
| `ObjectRecord.ObjectEntriesPermutes` | src/components/ReportDashboard.tsx:56 | `Object.keys(...).map(...)` lists every own property exactly once, array-index properties first in ascending numeric order |
| `ObjectRecord.NoIndexKeysListedInOrder` | src/components/ReportDashboard.tsx:56 | a record without array-index keys is listed in creation order |
| `ObjectRecord.PerUserAsWritten` | src/components/ReportDashboard.tsx:50-57 | specified by `ObjectRecord.ProtoUserLost`, `ObjectRecord.InheritedNameGarbled`, `ObjectRecord.IndexKeysReordered` and `ObjectRecord.AsWrittenAgreesOnOrdinaryKeys` |
| `ObjectRecord.ProtoUserLost` | src/components/ReportDashboard.tsx:50-57 | as written, a one-seat booking by "__proto__" gives total 1 but an empty per-user list; the intended grouping lists it |
| `ObjectRecord.InheritedNameGarbled` | src/components/ReportDashboard.tsx:50-57 | as written, a one-seat booking by "constructor" lists that user with a string instead of the count 1; the intended grouping counts 1 |
| `ObjectRecord.IndexKeysReordered` | src/components/ReportDashboard.tsx:50-57 | as written, bookings by "42" then "7" list "7" first; the intended grouping keeps first-appearance order |
| `ObjectRecord.AsWrittenAgreesOnOrdinaryKeys` | src/components/ReportDashboard.tsx:50-57 | when no key is "__proto__", an inherited method name or an array index, the list the code builds is the intended grouping: same keys, same order, same counts |
| `ObjectRecord.HourLabelOrdinary` | src/components/ReportDashboard.tsx:62-64 | no hour label is "__proto__", an inherited method name or an array index |
| `ObjectRecord.PerHourUnaffected` | src/components/ReportDashboard.tsx:60-68 | the per-hour list as written always equals the intended one |

## Left out

- Rendering: the React hooks, component state setters, JSX, the Recharts bar chart and the "No booking data yet" branch. They only present the aggregate. The model's `View` is just denial or report.
- JSON encoding: `JSON.parse` and `JSON.stringify`. Storage is modelled by its decoded contents. A malformed, empty or non-object session record is `Unreadable`, so there is no user. The warning it logs is not modelled.
- A stored booking without a `userId` field: the model's ids are strings, so such a record is written with the empty id, which is equally falsy and lands under "unknown".
- A corrupt stored booking list: text on which `JSON.parse` throws, or text that parses to something other than an array (`"null"`, `"{}"`, `"5"`), on which `allBookings.reduce` or `[...saved, payload]` throws. The model's store always holds a decoded list.
- The event-bus subscription lifecycle. Subscribing to `ticketBooked`, the degraded standalone mode when `authApp/EventBus` is missing, and unsubscribing at unmount all go through an external capability that is declared only by type. Only the handler body is modelled, as `OnTicketBooked`.
- Concurrent writers to the shared "bookings" key, such as other tabs. The model delivers events one at a time on a store that nothing else writes.
- Time zones: `Date.getHours()` is the parameter `hourOf`. Timestamps are integers, so a fractional or NaN timestamp is not modelled.
- Aggregator.PerUserView: states the intended dictionary. The code differs for three kinds of user id: "__proto__" (the seats are lost), the inherited `Object.prototype` method names such as "constructor" or "toString" (the count becomes a string), and array-index-like ids such as "42" (`Object.keys` lists them first, in ascending numeric order). `ObjectRecord` models all three. Hour labels are never such keys.
- ObjectRecord.AsWrittenAgreesOnOrdinaryKeys: requires ordinary keys, because on the other keys the code and the intended grouping really differ, as the three counterexample lemmas show.
- ObjectRecord.Value: a count that became a string is `Text`, without its characters. A later bump of that key keeps it a string, and that is all the model needs.
- Counts are unbounded naturals. The source adds IEEE doubles, which are exact only below 2^53.

## Findings

| source | as written | input that shows it | evidently intended | confidence | as-written member | corrected member |
|---|---|---|---|---|---|---|
| src/components/ReportDashboard.tsx:50-57 | per-user counts go into an object literal. For the key "__proto__", reading yields `Object.prototype`, so the value written back is the string "[object Object]1". The `__proto__` setter ignores it because it is not an object | one booking `{userId: "__proto__", seats: [1]}`: total 1, per-user list empty | every booking counted under its user, so the per-user counts add up to the total | medium, not executed | `ObjectRecord.ProtoUserLost` | `Aggregator.CalculateStats` |
| src/components/ReportDashboard.tsx:50-57 | for a user id naming an inherited `Object.prototype` method, reading `groupedByUser[u]` yields the inherited function, which is truthy, so the fallback to 0 is skipped and `+` makes the count a string | one booking `{userId: "constructor", seats: [1]}`: the count is the string "function Object() { [native code] }1", not 1 | that user listed with count 1 | medium, not executed | `ObjectRecord.InheritedNameGarbled` | `Aggregator.CalculateStats` |
