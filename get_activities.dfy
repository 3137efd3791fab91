/**
 * The handler of `GET /trips/:tripId/activities`: once the trip has been
 * looked up, it either fails with "Trip not found." or lists one bucket per
 * day of the trip, each holding the trip's activities that occur on that
 * day in the order the lookup returned them.
 *
 * The lookup itself (a database query that returns the trip with its
 * activities ordered by occurrence time) is not modelled: its answer is the
 * handler's input, an `Option<Trip>`.
 */
module GetActivities {
  import opened DayCalendar
  import opened Sequences

  datatype Option<+T> = None | Some(value: T)

  /** An activity of a trip; only its occurrence time matters to the grouping. */
  datatype Activity = Activity(id: string, title: string, occursAt: Instant)

  /** A trip as the lookup returns it, with its activities included. */
  datatype Trip = Trip(id: string, startsAt: Instant, endsAt: Instant, activities: seq<Activity>)

  /** One element of the response: a date and the activities on that day. */
  datatype DayBucket = DayBucket(date: Instant, activities: seq<Activity>)

  /** The error the handler throws for a request the client got wrong. */
  datatype ClientError = ClientError(message: string)

  /** Either the handler throws, or it returns the body `{ activities }`. */
  datatype Outcome = Thrown(error: ClientError) | Returned(activities: seq<DayBucket>)

  const TripNotFound: string := "Trip not found."

  /** The activities occur in ascending order of `occursAt`. */
  predicate SortedByOccurrence(s: seq<Activity>)
  {
    forall i, j :: 0 <= i < j < |s| ==> s[i].occursAt <= s[j].occursAt
  }

  /**
   * The length `Array.from({ length })` gives its array: the language's
   * ToLength clamps a negative length to zero.
   */
  function ArrayFromLength(length: int): (n: nat)
    ensures n == length || (length < 0 && n == 0)
  {
    if length < 0 then 0 else length
  }

  /**
   * How many buckets a trip gets: its whole-day difference, truncated, plus
   * one, clamped at zero.
   */
  function DayCount(startsAt: Instant, endsAt: Instant): (n: nat)
    ensures startsAt <= endsAt ==> 1 <= n && (n - 1) * DAY <= endsAt - startsAt < n * DAY
    ensures endsAt < startsAt ==> n <= 1 && (n == 1 <==> startsAt - endsAt < DAY)
  {
    ArrayFromLength(DiffDays(endsAt, startsAt) + 1)
  }

  /**
   * `activities.filter(activity => dayjs(activity.occurs_at).isSame(date, 'day'))`:
   * exactly the activities on the date's day, each as often as it occurs,
   * in their original order.
   */
  function ActivitiesOn(activities: seq<Activity>, date: Instant): (r: seq<Activity>)
    ensures forall a :: multiset(r)[a] == if IsSameDay(a.occursAt, date) then multiset(activities)[a] else 0
    ensures IsSubsequence(r, activities)
  {
    if activities == [] then []
    else
      assert activities == [activities[0]] + activities[1..];
      var rest := ActivitiesOn(activities[1..], date);
      if IsSameDay(activities[0].occursAt, date) then [activities[0]] + rest else rest
  }

  /**
   * The buckets the handler builds with
   * `Array.from({ length: diff + 1 }).map((_, index) => ...)`: bucket
   * `index` is dated `index` days after the trip starts and holds the
   * activities on that date's day.
   */
  function GroupByDay(startsAt: Instant, endsAt: Instant, activities: seq<Activity>): (buckets: seq<DayBucket>)
    ensures |buckets| == DayCount(startsAt, endsAt)
    ensures forall i :: 0 <= i < |buckets| ==>
      CalendarDay(buckets[i].date) == CalendarDay(startsAt) + i && TimeOfDay(buckets[i].date) == TimeOfDay(startsAt)
  {
    seq(DayCount(startsAt, endsAt), index =>
      var date := AddDays(startsAt, index);
      DayBucket(date, ActivitiesOn(activities, date)))
  }

  /**
   * The handler body, from the looked-up trip to what it throws or returns.
   * What the returned buckets hold is stated by the lemmas below
   * (`BucketDates`, `BucketContents`, `ActivityPlacement`).
   */
  function HandleGetActivities(trip: Option<Trip>): (outcome: Outcome)
    ensures outcome.Thrown? <==> trip.None?
    ensures outcome.Thrown? ==> outcome.error.message == "Trip not found."
    ensures outcome.Returned? ==>
      outcome.activities == GroupByDay(trip.value.startsAt, trip.value.endsAt, trip.value.activities)
  {
    match trip
    case None => Thrown(ClientError(TripNotFound))
    case Some(t) => Returned(GroupByDay(t.startsAt, t.endsAt, t.activities))
  }

  // ---------------------------------------------------------------------
  // Properties of the grouping

  /** Keeping the order of a sorted sequence, a subsequence is sorted too. */
  lemma {:induction false} SubsequenceKeepsOrder(xs: seq<Activity>, ys: seq<Activity>)
    requires IsSubsequence(xs, ys) && SortedByOccurrence(ys)
    ensures SortedByOccurrence(xs)
    decreases |ys|
  {
    if xs != [] {
      if xs[0] == ys[0] && IsSubsequence(xs[1..], ys[1..]) {
        SubsequenceKeepsOrder(xs[1..], ys[1..]);
        SubsequenceMultiset(xs[1..], ys[1..]);
        forall j | 0 < j < |xs| ensures xs[0].occursAt <= xs[j].occursAt {
          assert xs[j] in multiset(xs[1..]);
          var k :| 0 <= k < |ys[1..]| && ys[1..][k] == xs[j];
          assert ys[k + 1] == xs[j];
        }
      } else {
        SubsequenceKeepsOrder(xs, ys[1..]);
      }
    }
  }

  /** Bucket dates start at the trip's start and rise by exactly one day. */
  lemma BucketDates(startsAt: Instant, endsAt: Instant, activities: seq<Activity>)
    ensures var buckets := GroupByDay(startsAt, endsAt, activities);
      && (forall i :: 0 <= i < |buckets| ==> buckets[i].date == startsAt + i * DAY)
      && (forall i :: 0 < i < |buckets| ==> CalendarDay(buckets[i].date) == CalendarDay(buckets[i - 1].date) + 1)
      && (forall i, j :: 0 <= i < j < |buckets| ==> CalendarDay(buckets[i].date) < CalendarDay(buckets[j].date))
  {
  }

  /**
   * Bucket i holds exactly the trip's activities on calendar day
   * start + i, with their multiplicities, as a subsequence of the trip's
   * activities; so it is sorted when they are.
   */
  lemma BucketContents(startsAt: Instant, endsAt: Instant, activities: seq<Activity>, i: nat)
    requires i < DayCount(startsAt, endsAt)
    ensures var bucket := GroupByDay(startsAt, endsAt, activities)[i];
      && (forall a :: a in bucket.activities <==> a in activities && CalendarDay(a.occursAt) == CalendarDay(startsAt) + i)
      && (forall a :: multiset(bucket.activities)[a] ==
            if CalendarDay(a.occursAt) == CalendarDay(startsAt) + i then multiset(activities)[a] else 0)
      && IsSubsequence(bucket.activities, activities)
      && (SortedByOccurrence(activities) ==> SortedByOccurrence(bucket.activities))
  {
    var bucket := GroupByDay(startsAt, endsAt, activities)[i];
    if SortedByOccurrence(activities) {
      SubsequenceKeepsOrder(bucket.activities, activities);
    }
  }

  /**
   * An activity of the trip lands in the one bucket whose day is its own,
   * and in no other; when its day is not one of the buckets' days it lands
   * in none.
   */
  lemma ActivityPlacement(startsAt: Instant, endsAt: Instant, activities: seq<Activity>, a: Activity)
    requires a in activities
    ensures var buckets := GroupByDay(startsAt, endsAt, activities);
      var k := CalendarDay(a.occursAt) - CalendarDay(startsAt);
      && (forall i :: 0 <= i < |buckets| ==> (a in buckets[i].activities <==> i == k))
      && (0 <= k < |buckets| ==> a in buckets[k].activities)
      && (!(0 <= k < |buckets|) ==> forall i :: 0 <= i < |buckets| ==> a !in buckets[i].activities)
  {
    var buckets := GroupByDay(startsAt, endsAt, activities);
    forall i | 0 <= i < |buckets| ensures a in buckets[i].activities <==> i == CalendarDay(a.occursAt) - CalendarDay(startsAt) {
      BucketContents(startsAt, endsAt, activities, i);
    }
  }

  /**
   * A day of the trip on which no activity occurs still gets its bucket,
   * with an empty list.
   */
  lemma EmptyDaysKeepTheirBucket(startsAt: Instant, endsAt: Instant, activities: seq<Activity>, i: nat)
    requires i < DayCount(startsAt, endsAt)
    requires forall a :: a in activities ==> CalendarDay(a.occursAt) != CalendarDay(startsAt) + i
    ensures i < |GroupByDay(startsAt, endsAt, activities)|
    ensures GroupByDay(startsAt, endsAt, activities)[i].activities == []
  {
    BucketContents(startsAt, endsAt, activities, i);
  }

  /**
   * Because the day difference truncates, a trip whose end has an earlier
   * time of day than its start gets one bucket fewer than the calendar days
   * it spans, and the activities on its last day are in no bucket.
   */
  lemma TruncatedDayCount(startsAt: Instant, endsAt: Instant, activities: seq<Activity>)
    requires startsAt <= endsAt
    ensures var span := CalendarDay(endsAt) - CalendarDay(startsAt) + 1;
      DayCount(startsAt, endsAt) == if TimeOfDay(startsAt) <= TimeOfDay(endsAt) then span else span - 1
    ensures TimeOfDay(endsAt) < TimeOfDay(startsAt) ==>
      forall a, i :: a in activities && CalendarDay(a.occursAt) == CalendarDay(endsAt) && 0 <= i < DayCount(startsAt, endsAt) ==>
        a !in GroupByDay(startsAt, endsAt, activities)[i].activities
  {
    var n := DayCount(startsAt, endsAt);
    var span := CalendarDay(endsAt) - CalendarDay(startsAt) + 1;
    assert endsAt - startsAt == (span - 1) * DAY + TimeOfDay(endsAt) - TimeOfDay(startsAt);
    if TimeOfDay(endsAt) < TimeOfDay(startsAt) {
      forall a, i | a in activities && CalendarDay(a.occursAt) == CalendarDay(endsAt) && 0 <= i < n
        ensures a !in GroupByDay(startsAt, endsAt, activities)[i].activities
      {
        ActivityPlacement(startsAt, endsAt, activities, a);
      }
    }
  }
}
