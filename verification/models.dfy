/**
 The domain records of the fitness bot and its goal arithmetic: the daily
 statistics record, the user profile, the water and calorie goal formulas,
 the workout calorie table, lazy creation of today's record and the goal
 refresh. Python floats are modelled as exact reals.
 */
module Models {
  import opened Wrappers

  /** An ISO calendar date, supplied by the caller (the process clock is not modelled). */
  type Date = string
  /** An ISO timestamp stored with log entries, supplied by the caller. */
  type Timestamp = string

  const WaterPerKg: real := 30.0
  const WaterPerActivity: real := 500.0
  const WaterPerWorkout: int := 200
  const WaterHotWeather: real := 500.0
  /** Temperatures strictly above this earn the hot-weather bonus. */
  const HotTemperature: real := 25.0
  /** The temperature assumed when the weather lookup fails on first use of a day. */
  const FallbackTemperature: real := 20.0

  /** Calories burned per minute for each known workout type. */
  const WorkoutCalories: map<string, int> :=
    map["run" := 10, "walk" := 5, "jump" := 8, "tennis" := 14, "football" := 12]

  /** The workout types in the table's declaration order, as listed to the user. */
  const WorkoutTypes: seq<string> := ["run", "walk", "jump", "tennis", "football"]

  datatype FoodEntry = FoodEntry(name: string, grams: real, calories: real, timestamp: Timestamp)

  datatype WorkoutEntry = WorkoutEntry(kind: string, minutes: int, calories: int, timestamp: Timestamp)

  datatype DailyStats = DailyStats(
    date: Date,
    loggedWater: real,
    loggedCalories: real,
    burnedCalories: real,
    waterGoal: real,
    calorieGoal: real,
    temperature: real,
    foodLog: seq<FoodEntry>,
    workoutLog: seq<WorkoutEntry>)

  datatype UserProfile = UserProfile(
    userId: int,
    weight: real,
    height: real,
    age: int,
    activityMinutes: int,
    city: string,
    dailyStats: map<Date, DailyStats>)

  /** Today's record as returned by a stats lookup, together with the profile that now holds it. */
  datatype Fetched = Fetched(profile: UserProfile, stats: DailyStats)

  /** A record built with only its date given: every other field takes its default. */
  function FreshDay(date: Date): DailyStats
  {
    DailyStats(date, 0.0, 0.0, 0.0, 0.0, 0.0, 0.0, [], [])
  }

  /**
   The daily water goal in ml. `/ 30` is Dafny's Euclidean division, which
   agrees with Python's floor division `//` because the divisor is positive.
   */
  function WaterGoal(p: UserProfile, temperature: real): real
  {
    var base := p.weight * WaterPerKg;
    var activity := (p.activityMinutes / 30) as real * WaterPerActivity;
    var hot := if temperature > HotTemperature then WaterHotWeather else 0.0;
    base + activity + hot
  }

  /** The daily calorie goal in kcal: a Mifflin-St Jeor BMR without the sex term plus activity. */
  function CalorieGoal(p: UserProfile): real
  {
    var bmr := 10.0 * p.weight + 6.25 * p.height - 5.0 * (p.age as real);
    var activity := (p.activityMinutes * 4) as real;
    bmr + activity
  }

  /** `d` with both goals recomputed for temperature `t` and `t` stored. */
  function WithGoals(p: UserProfile, d: DailyStats, t: real): DailyStats
  {
    d.(waterGoal := WaterGoal(p, t), calorieGoal := CalorieGoal(p), temperature := t)
  }

  /** The profile with the record for `date` set to `d`. */
  function Store(p: UserProfile, date: Date, d: DailyStats): UserProfile
  {
    p.(dailyStats := p.dailyStats[date := d])
  }

  /** The profile's attributes other than its statistics are those of `p`. */
  predicate SameAttributes(p: UserProfile, q: UserProfile)
  {
    q.(dailyStats := p.dailyStats) == p
  }

  /** `d` is a record created today with goals seeded for temperature `t`. */
  predicate SeededDay(p: UserProfile, d: DailyStats, today: Date, t: real)
  {
    && d.date == today
    && d.loggedWater == 0.0 && d.loggedCalories == 0.0 && d.burnedCalories == 0.0
    && d.foodLog == [] && d.workoutLog == []
    && d.temperature == t
    && d.waterGoal == WaterGoal(p, t)
    && d.calorieGoal == CalorieGoal(p)
  }

  /** Both maps agree on every date other than `date`. */
  predicate OthersUnchanged(m: map<Date, DailyStats>, m': map<Date, DailyStats>, date: Date)
  {
    m' - {date} == m - {date}
  }

  /**
   `get_current_stats`: today's record, created on first use. A new record
   asks the weather lookup once (`weather`); with a temperature it goes through
   the goal refresh, without one its goals are seeded for 20 degrees. An
   existing record is returned as it is and `weather` is not consulted.
   */
  function CurrentStats(p: UserProfile, today: Date, weather: Option<real>): (r: Fetched)
    decreases if today in p.dailyStats then 0 else 1, 0
    ensures SameAttributes(p, r.profile)
    ensures today in r.profile.dailyStats && r.profile.dailyStats[today] == r.stats
    ensures r.profile.dailyStats.Keys == p.dailyStats.Keys + {today}
    ensures OthersUnchanged(p.dailyStats, r.profile.dailyStats, today)
    ensures today in p.dailyStats ==> r.profile == p
    ensures today !in p.dailyStats ==> SeededDay(p, r.stats, today, weather.GetOr(FallbackTemperature))
  {
    if today in p.dailyStats then
      Fetched(p, p.dailyStats[today])
    else
      var created := Store(p, today, FreshDay(today));
      match weather
      case Some(t) =>
        var refreshed := UpdateDailyGoals(created, today, weather, t);
        Fetched(refreshed, refreshed.dailyStats[today])
      case None =>
        var seeded := WithGoals(created, created.dailyStats[today], FallbackTemperature);
        Fetched(Store(created, today, seeded), seeded)
  }

  /**
   `update_daily_goals(t)`: looks up today's record (creating it, with
   `weather` as the lookup's answer, if absent), then overwrites both goals
   and the stored temperature.
   */
  function UpdateDailyGoals(p: UserProfile, today: Date, weather: Option<real>, t: real): (r: UserProfile)
    decreases if today in p.dailyStats then 0 else 1, 1
    ensures SameAttributes(p, r)
    ensures r.dailyStats.Keys == p.dailyStats.Keys + {today}
    ensures OthersUnchanged(p.dailyStats, r.dailyStats, today)
    ensures r.dailyStats[today].temperature == t
    ensures r.dailyStats[today].waterGoal == WaterGoal(p, t)
    ensures r.dailyStats[today].calorieGoal == CalorieGoal(p)
    ensures today in p.dailyStats ==>
      r.dailyStats[today] == p.dailyStats[today].(waterGoal := WaterGoal(p, t), calorieGoal := CalorieGoal(p), temperature := t)
    ensures today !in p.dailyStats ==> r.dailyStats[today] == WithGoals(p, FreshDay(today), t)
  {
    var f := CurrentStats(p, today, weather);
    Store(f.profile, today, WithGoals(f.profile, f.stats, t))
  }

  /** Only temperatures strictly above 25 earn the bonus: 25 itself earns none. */
  lemma HotBonusThreshold(p: UserProfile, t: real)
    ensures WaterGoal(p, HotTemperature) == WaterGoal(p, 0.0)
    ensures t > HotTemperature ==> WaterGoal(p, t) == WaterGoal(p, HotTemperature) + WaterHotWeather
    ensures t <= HotTemperature ==> WaterGoal(p, t) == WaterGoal(p, HotTemperature)
  {
  }

  /** A warmer day never lowers the water goal. */
  lemma WaterGoalMonotone(p: UserProfile, t1: real, t2: real)
    requires t1 <= t2
    ensures WaterGoal(p, t1) <= WaterGoal(p, t2)
  {
  }

  /** The goals at any two temperatures differ by 0 or by exactly the 500 ml bonus. */
  lemma WaterGoalSpread(p: UserProfile, t1: real, t2: real)
    ensures var diff := WaterGoal(p, t2) - WaterGoal(p, t1);
            diff == 0.0 || diff == WaterHotWeather || diff == -WaterHotWeather
  {
  }

  /** Every complete 30-minute block of activity adds 500 ml; a partial block adds nothing. */
  lemma WaterGoalActivityBlocks(p: UserProfile, t: real)
    ensures WaterGoal(p.(activityMinutes := p.activityMinutes + 30), t) == WaterGoal(p, t) + WaterPerActivity
    ensures p.activityMinutes % 30 != 29 ==>
      WaterGoal(p.(activityMinutes := p.activityMinutes + 1), t) == WaterGoal(p, t)
  {
    var a := p.activityMinutes;
    assert a == 30 * (a / 30) + a % 30;
    assert (a + 30) / 30 == a / 30 + 1;
    if a % 30 != 29 {
      assert a + 1 == 30 * (a / 30) + (a % 30 + 1);
      assert (a + 1) / 30 == a / 30;
    }
  }

  /** Refreshing twice with the same temperature is the same as refreshing once. */
  lemma UpdateDailyGoalsIdempotent(p: UserProfile, today: Date, w1: Option<real>, w2: Option<real>, t: real)
    ensures var once := UpdateDailyGoals(p, today, w1, t);
            UpdateDailyGoals(once, today, w2, t) == once
  {
    var once := UpdateDailyGoals(p, today, w1, t);
    var twice := UpdateDailyGoals(once, today, w2, t);
    assert twice.dailyStats[today] == once.dailyStats[today];
    assert twice.dailyStats == once.dailyStats;
  }

  /** The refresh leaves the calorie goal the same whatever the temperature. */
  lemma CalorieGoalIgnoresTemperature(p: UserProfile, today: Date, w: Option<real>, t1: real, t2: real)
    ensures UpdateDailyGoals(p, today, w, t1).dailyStats[today].calorieGoal
         == UpdateDailyGoals(p, today, w, t2).dailyStats[today].calorieGoal
  {
  }

  /** Once today's record exists, asking again returns it unchanged, whatever the weather says. */
  lemma CurrentStatsStable(p: UserProfile, today: Date, w1: Option<real>, w2: Option<real>)
    ensures var f := CurrentStats(p, today, w1);
            CurrentStats(f.profile, today, w2) == f
  {
  }

  /** The goals of a new record are the formulas at the looked-up temperature, or at 20 degrees on failure. */
  lemma NewDayGoals(p: UserProfile, today: Date, weather: Option<real>)
    requires today !in p.dailyStats
    ensures var d := CurrentStats(p, today, weather).stats;
            && (weather.None? ==> d.temperature == 20.0 && d.waterGoal == WaterGoal(p, 20.0))
            && (weather.Some? ==> d.temperature == weather.value && d.waterGoal == WaterGoal(p, weather.value))
            && d.calorieGoal == CalorieGoal(p)
  {
  }
}
