/**
 Properties of whole flows: several handler calls in a row, as a user
 drives them.
 */
module Flows {
  import opened Wrappers
  import opened States
  import opened Models
  import opened Handlers

  /** Today's logged water of `uid`, when the record exists. */
  function WaterOf(s: Session, uid: UserId, today: Date): real
  {
    if uid in s.users && today in s.users[uid].dailyStats then s.users[uid].dailyStats[today].loggedWater else 0.0
  }

  /** Two inline water logs leave the same session whichever comes first. */
  lemma WaterLogsCommute(s: Session, uid: UserId, today: Date, args1: string, args2: string,
                         a: real, b: real, w: Option<real>)
    requires args1 != "" && args2 != ""
    ensures LogWater(LogWater(s, uid, today, args1, Some(a), w).session, uid, today, args2, Some(b), w).session
         == LogWater(LogWater(s, uid, today, args2, Some(b), w).session, uid, today, args1, Some(a), w).session
  {
    if uid in s.users {
      var ab := LogWater(LogWater(s, uid, today, args1, Some(a), w).session, uid, today, args2, Some(b), w).session;
      var ba := LogWater(LogWater(s, uid, today, args2, Some(b), w).session, uid, today, args1, Some(a), w).session;
      assert ab.users[uid].dailyStats[today] == ba.users[uid].dailyStats[today];
      assert ab.users[uid].dailyStats == ba.users[uid].dailyStats;
      assert ab.users[uid] == ba.users[uid];
    }
  }

  function Sum(xs: seq<real>): real
    decreases |xs|
  {
    if xs == [] then 0.0 else xs[0] + Sum(xs[1..])
  }

  /**
   The session after logging each amount in turn with `/log_water <amount>`.
   `args` is the command's argument text; only whether it is empty matters,
   since the amounts arrive already parsed.
   */
  function LogWaterEach(s: Session, uid: UserId, today: Date, args: string, amounts: seq<real>, w: Option<real>): Session
    decreases |amounts|
  {
    if amounts == [] then s
    else LogWaterEach(LogWater(s, uid, today, args, Some(amounts[0]), w).session, uid, today, args, amounts[1..], w)
  }

  /** Water logs add up: no log is lost, whatever the amounts. */
  lemma {:induction false} WaterLogsAccumulate(s: Session, uid: UserId, today: Date, args: string, amounts: seq<real>, w: Option<real>)
    requires args != "" && uid in s.users && today in s.users[uid].dailyStats
    ensures var r := LogWaterEach(s, uid, today, args, amounts, w);
            && uid in r.users && today in r.users[uid].dailyStats
            && WaterOf(r, uid, today) == WaterOf(s, uid, today) + Sum(amounts)
            && r.phase == s.phase && r.pending == s.pending
    decreases |amounts|
  {
    if amounts != [] {
      var s1 := LogWater(s, uid, today, args, Some(amounts[0]), w).session;
      WaterLogsAccumulate(s1, uid, today, args, amounts[1..], w);
    }
  }

  /** `n` logs of 100 ml on a new day add up to exactly n times 100 ml. */
  lemma {:induction false} RepeatedLogsSum(s: Session, uid: UserId, today: Date, args: string, n: nat, w: Option<real>)
    requires args != "" && uid in s.users && today !in s.users[uid].dailyStats
    ensures WaterOf(LogWaterEach(s, uid, today, args, seq(n, _ => 100.0), w), uid, today) == (n * 100) as real
  {
    var xs := seq(n, _ => 100.0);
    if n == 0 {
      assert xs == [];
    } else {
      var s1 := LogWater(s, uid, today, args, Some(100.0), w).session;
      var f := CurrentStats(s.users[uid], today, w);
      assert f.stats.loggedWater == 0.0;
      assert WaterOf(s1, uid, today) == 100.0;
      assert xs[0] == 100.0 && xs[1..] == seq(n - 1, _ => 100.0);
      assert LogWaterEach(s, uid, today, args, xs, w) == LogWaterEach(s1, uid, today, args, xs[1..], w);
      WaterLogsAccumulate(s1, uid, today, args, xs[1..], w);
      SumConstant(n - 1);
    }
  }

  lemma {:induction false} SumConstant(n: nat)
    ensures Sum(seq(n, _ => 100.0)) == (n * 100) as real
  {
    if n > 0 {
      assert seq(n, _ => 100.0)[1..] == seq(n - 1, _ => 100.0);
      SumConstant(n - 1);
    }
  }

  /**
   The whole setup flow from any session: `/set_profile`, then a weight,
   height, age, activity and a city with known weather, stores exactly the
   answered profile with a freshly seeded record for today and ends in no
   state.
   */
  lemma SetupFlow(s: Session, uid: UserId, weight: real, height: real, age: int, activity: int,
                  city: string, today: Date, t: real, seed: Option<real>)
    ensures
      var s1 := SetProfile(s).session;
      var s2 := ProcessWeight(s1, Some(weight)).session;
      var s3 := ProcessHeight(s2, Some(height)).session;
      var s4 := ProcessAge(s3, Some(age)).session;
      var s5 := ProcessActivity(s4, Some(activity)).session;
      var r := ProcessCity(s5, uid, city, today, Some(t), seed);
      var p := UserProfile(uid, weight, height, age, activity, city, map[]);
      && r.session.phase == Idle && r.session.pending == NoPending
      && uid in r.session.users
      && r.session.users[uid].dailyStats.Keys == {today}
      && r.session.users[uid] == Store(p, today, r.session.users[uid].dailyStats[today])
      && SeededDay(p, r.session.users[uid].dailyStats[today], today, seed.GetOr(FallbackTemperature))
      && r.reply == ProfileReady(WaterGoal(p, seed.GetOr(FallbackTemperature)), CalorieGoal(p))
  {
  }

  /** A failed city lookup stores nothing and keeps the user at the city step, ready to retry. */
  lemma CityFailureRetries(s: Session, uid: UserId, city: string, today: Date, seed: Option<real>)
    requires s.phase == ProfileSetup(City)
    requires s.pending.weight.Some? && s.pending.height.Some? && s.pending.age.Some? && s.pending.activity.Some?
    ensures var r := ProcessCity(s, uid, city, today, None, seed);
            r.session == s && r.session.phase == ProfileSetup(City) && r.reply == WeatherUnavailable
  {
  }

  /** Setting up a profile again starts the day from zero: earlier logs of the day are dropped. */
  lemma ResetupDropsProgress(s: Session, uid: UserId, city: string, today: Date, t: real, seed: Option<real>)
    requires s.pending.weight.Some? && s.pending.height.Some? && s.pending.age.Some? && s.pending.activity.Some?
    ensures var r := ProcessCity(s, uid, city, today, Some(t), seed);
            WaterOf(r.session, uid, today) == 0.0
            && r.session.users[uid].dailyStats[today].foodLog == []
            && r.session.users[uid].dailyStats[today].workoutLog == []
  {
  }

  /**
   A found food followed by its weight logs one entry with the food's
   calories for that weight and ends in no state.
   */
  lemma FoodFlow(s: Session, uid: UserId, today: Date, query: string, name: string, per100: real,
                 grams: real, w: Option<real>, stamp: Timestamp)
    requires query != "" && uid in s.users && today in s.users[uid].dailyStats
    ensures
      var s1 := LogFood(s, query, Found(name, Some(per100))).session;
      var r := ProcessFoodWeight(s1, uid, today, Some(grams), w, stamp);
      var before := s.users[uid].dailyStats[today];
      var after := r.session.users[uid].dailyStats[today];
      && r.session.phase == Idle
      && after.foodLog == before.foodLog + [FoodEntry(name, grams, per100 * grams / 100.0, stamp)]
      && after.loggedCalories == before.loggedCalories + per100 * grams / 100.0
      && after.loggedWater == before.loggedWater && after.burnedCalories == before.burnedCalories
  {
    var s1 := LogFood(s, query, Found(name, Some(per100))).session;
    assert s1.users == s.users && s1.phase == WaitingForWeight;
    assert s1.pending.caloriesPer100 == Some(per100) && s1.pending.foodName == Some(name);
    var r := ProcessFoodWeight(s1, uid, today, Some(grams), w, stamp);
    assert r.reply.FoodLogged?;
    assert CurrentStats(s.users[uid], today, w).stats == s.users[uid].dailyStats[today];
  }

  /**
   `/log_workout <type>` with a known type from a cleared session, then a
   duration, logs one workout of that type, adds its calories and advises
   200 ml per complete half hour.
   */
  lemma WorkoutFlow(s: Session, uid: UserId, today: Date, kind: string, minutes: int,
                    w: Option<real>, stamp: Timestamp)
    requires s.phase == Idle && s.pending == NoPending
    requires kind in WorkoutCalories && uid in s.users && today in s.users[uid].dailyStats
    ensures
      var s1 := LogWorkout(s, uid, today, kind, w, stamp).session;
      var r := ProcessWorkoutDuration(s1, uid, today, Some(minutes), w, stamp);
      var before := s.users[uid].dailyStats[today];
      var after := r.session.users[uid].dailyStats[today];
      && r.session.phase == Idle && r.session.pending == NoPending
      && after.burnedCalories == before.burnedCalories + (WorkoutCalories[kind] * minutes) as real
      && after.workoutLog == before.workoutLog + [WorkoutEntry(kind, minutes, WorkoutCalories[kind] * minutes, stamp)]
      && after.loggedWater == before.loggedWater
      && r.reply.WorkoutLogged? && r.reply.waterAdvice == (minutes / 30) * WaterPerWorkout
  {
  }

  /** An unknown type, inline or as a reply, leaves the session as it was. */
  lemma UnknownWorkoutTypeStays(s: Session, uid: UserId, today: Date, kind: string, w: Option<real>, stamp: Timestamp)
    requires kind !in WorkoutCalories && kind != ""
    requires s.phase != CommitWorkout && s.pending.workoutType.None?
    ensures ProcessWorkoutType(s, kind).session == s
    ensures LogWorkout(s, uid, today, kind, w, stamp).session == s
  {
  }

  /** The temperature-change notice never fires: the comparison runs after the refresh stored the new temperature. */
  lemma NoticeNeverFires(s: Session, uid: UserId, today: Date, w1: Option<real>, w2: Option<real>)
    requires uid in s.users
    ensures CheckProgress(s, uid, today, w1, w2).reply.notice == None
  {
  }

  /** Checking progress twice with the same weather answers is the same as checking once. */
  lemma CheckProgressIdempotent(s: Session, uid: UserId, today: Date, w1: Option<real>, w2: Option<real>)
    ensures var once := CheckProgress(s, uid, today, w1, w2).session;
            CheckProgress(once, uid, today, w1, w2).session == once
  {
    if uid in s.users {
      var once := CheckProgress(s, uid, today, w1, w2).session;
      var twice := CheckProgress(once, uid, today, w1, w2).session;
      assert twice.users[uid].dailyStats[today] == once.users[uid].dailyStats[today];
      assert twice.users[uid].dailyStats == once.users[uid].dailyStats;
      assert twice.users[uid] == once.users[uid];
    }
  }
}
