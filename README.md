# Trip activities grouped by day

A model of the handler behind `GET /trips/:tripId/activities` in the
nlw-journey Node.js service. Once the trip has been looked up, the handler
either throws a `ClientError` with the message "Trip not found." or returns
`{ activities }`. That is a list of day buckets, one per day from the trip's
start: bucket `i` is dated `starts_at + i` days and holds the trip's
activities that occur on that calendar day, in the order the lookup returned
them (ascending `occurs_at`).

Modules:

- `DayCalendar` (`day_calendar.dfy`): the date arithmetic the handler takes
  from its date library. Instants are integer milliseconds read in one fixed
  reference calendar (UTC). `DAY` is 86 400 000. `CalendarDay` is the floored
  quotient by `DAY`. `DiffDays` is the library's whole-day difference, which
  truncates toward zero. `AddDays` adds whole days. `IsSameDay` follows the
  library's own test: start of t's day <= reference <= end of t's day.
- `Sequences` (`sequences.dfy`): `IsSubsequence`, the order-preserving
  subsequence relation that `Array.prototype.filter` produces.
- `GetActivities` (`get_activities.dfy`): the trip, activity and bucket
  values, the handler's outcome, the bucket count (`Array.from` with the
  language's clamp of a negative length to 0), the per-day filter, the
  grouping, the handler, and the lemmas about them.
- `GetActivitiesScenarios` (`scenarios.dfy`): concrete trips worked through.

Two behaviours of the handler are easy to misread; the model keeps both:

- The day difference truncates toward zero (the library's `diff` in days).
  It does not floor. The two differ only when the end is before the start.
  In that case a gap of under one day still gives one bucket (`DayCount`).
- Activities on the last calendar day are not always listed. When `ends_at`
  has an earlier time of day than `starts_at`, the trip gets one bucket fewer
  than the calendar days it spans. The activities on its last day then appear
  in no bucket. `TruncatedDayCount` and `LateStartDropsLastDay` state this
  behaviour. The model keeps it rather than correcting it.

## Model

| member | source | states |
|---|---|---|
| DayCalendar.CalendarDay | src/routes/get-activities.ts:51 | the calendar day `d` of an instant satisfies `d*DAY <= t < (d+1)*DAY` |
| DayCalendar.TimeOfDay | src/routes/get-activities.ts:38-46 | the time of day is in `[0, DAY)`, and day plus time of day rebuilds the instant |
| DayCalendar.StartOfDay | src/routes/get-activities.ts:51 | `startOf('day')` is on the same calendar day, at time of day 0, and at most `t` |
| DayCalendar.EndOfDay | src/routes/get-activities.ts:51 | `endOf('day')` is on the same calendar day, at time of day `DAY-1`, and at least `t` |
| DayCalendar.DiffDays | src/routes/get-activities.ts:38-41 | the whole-day difference truncates toward zero: for `later >= earlier`, `n*DAY <= later-earlier < (n+1)*DAY` with `n >= 0`; for `later < earlier`, the mirror bound with `n <= 0` |
| DayCalendar.AddDays | src/routes/get-activities.ts:46 | adding `n` days moves the calendar day by exactly `n` and keeps the time of day |
| DayCalendar.WithinDayIsSameCalendarDay | src/routes/get-activities.ts:51 | an instant lies between the start and the end of another's day exactly when both have the same calendar day |
| DayCalendar.IsSameDay | src/routes/get-activities.ts:51 | `dayjs(occurs_at).isSame(date, 'day')`, tested as the library does (the date within the activity's day), holds exactly when both instants have the same calendar day |
| Sequences.SubsequenceMultiset | src/routes/get-activities.ts:50-52 | a subsequence holds each element at most as often as the sequence, so it is no longer |
| GetActivities.ArrayFromLength | src/routes/get-activities.ts:43-44 | `Array.from({length})` has the requested length, or 0 when that is negative |
| GetActivities.DayCount | src/routes/get-activities.ts:38-44 | the bucket count `n` is `max(diff+1, 0)`: for `start <= end`, `n >= 1` and `(n-1)*DAY <= end-start < n*DAY`; for `end < start`, `n` is 1 when the gap is under a day and 0 otherwise |
| GetActivities.ActivitiesOn | src/routes/get-activities.ts:50-52 | the filter keeps every activity on the date's day as often as it occurs in the input, and keeps nothing else; the result is an order-preserving subsequence of the input |
| GetActivities.GroupByDay | src/routes/get-activities.ts:43-54 | there are `DayCount` buckets, and bucket `i` is on calendar day `start + i` at the start's time of day |
| GetActivities.HandleGetActivities | src/routes/get-activities.ts:34-56 | the handler throws exactly when the trip is absent, with the message "Trip not found."; otherwise it returns the grouped buckets of that trip |
| GetActivities.SubsequenceKeepsOrder | src/routes/get-activities.ts:26-30 | a subsequence of activities sorted by `occurs_at` is sorted too |
| GetActivities.BucketDates | src/routes/get-activities.ts:45-46 | bucket `i` is dated exactly `start + i*DAY`; consecutive buckets are one calendar day apart; calendar days strictly increase, so no two buckets share a day |
| GetActivities.BucketContents | src/routes/get-activities.ts:50-52 | an activity is in bucket `i` iff it is a trip activity on calendar day `start + i`, with the trip's multiplicity; the bucket is a subsequence of the trip's activities and is sorted when they are |
| GetActivities.ActivityPlacement | src/routes/get-activities.ts:45-52 | a trip activity is in bucket `k` (its day minus the start's day) and in no other bucket, so no activity is in two buckets; if `k` is not a bucket index, it is in no bucket |
| GetActivities.EmptyDaysKeepTheirBucket | src/routes/get-activities.ts:43-54 | in any trip, a bucket whose day has no activity still exists (its index is below the bucket count) and holds an empty list |
| GetActivities.TruncatedDayCount | src/routes/get-activities.ts:38-44 | for `start <= end`, the bucket count is the inclusive calendar-day span when the end's time of day is not earlier than the start's, and one less otherwise; in that case no activity on the end's day is in any bucket |
| GetActivitiesScenarios.ThreeDayTrip | src/routes/get-activities.ts:34-56 | a trip from 2024-01-01 to 2024-01-03, with activities at 10:00 and 18:00 on 01-02, gives three buckets; the middle one holds both activities in order and the others are empty |
| GetActivitiesScenarios.LateStartDropsLastDay | src/routes/get-activities.ts:38-52 | a trip from 01-01T12:00 to 01-03T08:00 gets two buckets, and an activity at 01-03T09:00 is in neither |
| GetActivitiesScenarios.UnknownTrip | src/routes/get-activities.ts:34-36 | an absent trip throws `ClientError("Trip not found.")` and returns no buckets |

## Left out

- Route registration, the async request and reply handling, and the UUID validation of `tripId` (src/routes/get-activities.ts:8-19). These are HTTP plumbing. The model starts from the looked-up trip.
- The database query (src/routes/get-activities.ts:21-32). It is I/O. Its answer is the input `Option<Trip>`. The ordering of activities by `occurs_at` is a hypothesis only where a lemma needs it (`BucketContents`, `SubsequenceKeepsOrder`). The grouping itself does not need it.
- Time zones and daylight saving. The date library works in the server's local zone. The model reads every instant in one fixed calendar in which every day lasts `DAY` milliseconds. The library's zone-offset correction in `diff` is therefore zero.
- The conversion of a bucket's date with `toDate()`. A bucket's date is kept as the instant itself.
- The range of JavaScript dates (about ±8.64·10^15 ms) and invalid dates. Instants are unbounded integers. Within that range, `diff + 1` is far below the array-length limits, so the upper clamp of ToLength and the `RangeError` of an over-long array cannot happen.
- The `ClientError` class. It is a datatype carrying its message. How the error middleware maps it to an HTTP status is not part of this model.
- Activity fields other than `id`, `title` and `occurs_at`, and trip fields other than `id`, `starts_at`, `ends_at` and the activities. The schema file is not part of this model, and the grouping reads only `occurs_at`.
