/**
 * Two concrete trips, with instants written as milliseconds since the epoch
 * (UTC).
 */
module GetActivitiesScenarios {
  import opened DayCalendar
  import opened GetActivities

  const Jan1: Instant := 1_704_067_200_000  // 2024-01-01T00:00
  const Jan2: Instant := Jan1 + DAY
  const Jan3: Instant := Jan1 + 2 * DAY

  /**
   * A trip from 2024-01-01 to 2024-01-03 with activities at 10:00 and 18:00
   * on 2024-01-02 gets three buckets; the middle one holds both activities
   * in their original order and the other two are empty.
   */
  lemma ThreeDayTrip()
    ensures var museum := Activity("a1", "Museum", Jan2 + 10 * 3_600_000);
      var dinner := Activity("a2", "Dinner", Jan2 + 18 * 3_600_000);
      var trip := Trip("t1", Jan1, Jan3, [museum, dinner]);
      HandleGetActivities(Some(trip)) ==
        Returned([DayBucket(Jan1, []), DayBucket(Jan2, [museum, dinner]), DayBucket(Jan3, [])])
  {
    var museum := Activity("a1", "Museum", Jan2 + 10 * 3_600_000);
    var dinner := Activity("a2", "Dinner", Jan2 + 18 * 3_600_000);
    var activities := [museum, dinner];
    var buckets := GroupByDay(Jan1, Jan3, activities);
    assert |buckets| == 3;
    assert buckets[0] == DayBucket(Jan1, ActivitiesOn(activities, Jan1));
    assert buckets[1] == DayBucket(Jan2, ActivitiesOn(activities, Jan2));
    assert buckets[2] == DayBucket(Jan3, ActivitiesOn(activities, Jan3));
    assert ActivitiesOn(activities, Jan1) == [] by {
      assert !IsSameDay(museum.occursAt, Jan1) && !IsSameDay(dinner.occursAt, Jan1);
      assert activities[1..] == [dinner];
    }
    assert ActivitiesOn(activities, Jan2) == [museum, dinner] by {
      assert IsSameDay(museum.occursAt, Jan2) && IsSameDay(dinner.occursAt, Jan2);
      assert activities[1..] == [dinner];
    }
    assert ActivitiesOn(activities, Jan3) == [] by {
      assert !IsSameDay(museum.occursAt, Jan3) && !IsSameDay(dinner.occursAt, Jan3);
      assert activities[1..] == [dinner];
    }
  }

  /**
   * A trip from 2024-01-01T12:00 to 2024-01-03T08:00 spans three calendar
   * days but gets two buckets, so an activity at 09:00 on its last day is
   * listed nowhere.
   */
  lemma LateStartDropsLastDay()
    ensures var lastMorning := Activity("a3", "Checkout", Jan3 + 9 * 3_600_000);
      var buckets := GroupByDay(Jan1 + 12 * 3_600_000, Jan3 + 8 * 3_600_000, [lastMorning]);
      && |buckets| == 2
      && buckets[0].activities == [] && buckets[1].activities == []
  {
    var lastMorning := Activity("a3", "Checkout", Jan3 + 9 * 3_600_000);
    var startsAt, endsAt := Jan1 + 12 * 3_600_000, Jan3 + 8 * 3_600_000;
    assert DiffDays(endsAt, startsAt) == 1;
    var buckets := GroupByDay(startsAt, endsAt, [lastMorning]);
    assert !IsSameDay(lastMorning.occursAt, buckets[0].date);
    assert !IsSameDay(lastMorning.occursAt, buckets[1].date);
  }

  /** An unknown trip makes the handler throw "Trip not found." and list nothing. */
  lemma UnknownTrip()
    ensures HandleGetActivities(None) == Thrown(ClientError("Trip not found."))
  {
  }
}
