/**
 The consistency a conversation keeps: the FSM data holds what the current
 state's handler will read, and every stored daily record has goals that
 match its profile and stored temperature and totals that match its logs.
 Every delivered message preserves it.
 */
module Invariants {
  import opened Wrappers
  import opened States
  import opened Models
  import opened Handlers
  import opened Middlewares
  import opened Dispatch

  /** The calories recorded in a food log. */
  function FoodTotal(log: seq<FoodEntry>): real
    decreases |log|
  {
    if log == [] then 0.0 else log[0].calories + FoodTotal(log[1..])
  }

  /** The calories recorded in a workout log. */
  function WorkoutTotal(log: seq<WorkoutEntry>): real
    decreases |log|
  {
    if log == [] then 0.0 else log[0].calories as real + WorkoutTotal(log[1..])
  }

  lemma {:induction false} FoodTotalAppend(log: seq<FoodEntry>, e: FoodEntry)
    ensures FoodTotal(log + [e]) == FoodTotal(log) + e.calories
    decreases |log|
  {
    if log == [] {
      assert [e][1..] == [];
    } else {
      assert (log + [e])[1..] == log[1..] + [e];
      FoodTotalAppend(log[1..], e);
    }
  }

  lemma {:induction false} WorkoutTotalAppend(log: seq<WorkoutEntry>, e: WorkoutEntry)
    ensures WorkoutTotal(log + [e]) == WorkoutTotal(log) + e.calories as real
    decreases |log|
  {
    if log == [] {
      assert [e][1..] == [];
    } else {
      assert (log + [e])[1..] == log[1..] + [e];
      WorkoutTotalAppend(log[1..], e);
    }
  }

  /** The FSM data holds every value the handler of the current state reads. */
  predicate PendingFits(phase: Phase, d: Pending)
  {
    && (phase == Idle ==> d == NoPending)
    && (d.workoutType.Some? ==> ValidWorkoutType(d.workoutType.value))
    && (phase == ProfileSetup(Height) ==> d.weight.Some?)
    && (phase == ProfileSetup(Age) ==> d.weight.Some? && d.height.Some?)
    && (phase == ProfileSetup(Activity) ==> d.weight.Some? && d.height.Some? && d.age.Some?)
    && (phase == ProfileSetup(City) ==> d.weight.Some? && d.height.Some? && d.age.Some? && d.activity.Some?)
    && (phase == WaitingForWeight ==> d.foodName.Some? && d.caloriesPer100.Some?)
    && (phase == WaitingForWorkoutDuration ==> d.workoutType.Some?)
    && (phase == CommitWorkout ==> d.workoutType.Some? && d.workoutDuration.Some?)
  }

  /** A daily record agrees with its profile, its date, its temperature and its logs. */
  predicate DayConsistent(p: UserProfile, date: Date, d: DailyStats)
  {
    && d.date == date
    && d.waterGoal == WaterGoal(p, d.temperature)
    && d.calorieGoal == CalorieGoal(p)
    && d.loggedCalories == FoodTotal(d.foodLog)
    && d.burnedCalories == WorkoutTotal(d.workoutLog)
  }

  predicate ProfileConsistent(uid: UserId, p: UserProfile)
  {
    && p.userId == uid
    && forall date :: date in p.dailyStats ==> DayConsistent(p, date, p.dailyStats[date])
  }

  predicate RegistryConsistent(users: map<UserId, UserProfile>)
  {
    forall u :: u in users ==> ProfileConsistent(u, users[u])
  }

  predicate Consistent(s: Session)
  {
    PendingFits(s.phase, s.pending) && RegistryConsistent(s.users)
  }

  /** The goal formulas read only the attributes that a stats update keeps. */
  lemma SameAttributesSameGoals(p: UserProfile, q: UserProfile, t: real)
    requires SameAttributes(p, q)
    ensures WaterGoal(p, t) == WaterGoal(q, t) && CalorieGoal(p) == CalorieGoal(q)
  {
    assert p.weight == q.weight && p.activityMinutes == q.activityMinutes;
    assert p.height == q.height && p.age == q.age;
  }

  /** Creating today's record keeps a consistent profile consistent. */
  lemma CurrentStatsConsistent(uid: UserId, p: UserProfile, today: Date, weather: Option<real>)
    requires ProfileConsistent(uid, p)
    ensures var f := CurrentStats(p, today, weather);
            ProfileConsistent(uid, f.profile) && DayConsistent(f.profile, today, f.stats)
  {
    var f := CurrentStats(p, today, weather);
    forall t: real ensures WaterGoal(p, t) == WaterGoal(f.profile, t) && CalorieGoal(p) == CalorieGoal(f.profile) {
      SameAttributesSameGoals(p, f.profile, t);
    }
    forall date | date in f.profile.dailyStats
      ensures DayConsistent(f.profile, date, f.profile.dailyStats[date])
    {
      if date != today {
        assert f.profile.dailyStats[date] == (f.profile.dailyStats - {today})[date];
      }
    }
  }

  /** Refreshing the goals keeps a consistent profile consistent. */
  lemma UpdateDailyGoalsConsistent(uid: UserId, p: UserProfile, today: Date, weather: Option<real>, t: real)
    requires ProfileConsistent(uid, p)
    ensures ProfileConsistent(uid, UpdateDailyGoals(p, today, weather, t))
  {
    var r := UpdateDailyGoals(p, today, weather, t);
    var f := CurrentStats(p, today, weather);
    CurrentStatsConsistent(uid, p, today, weather);
    forall x: real ensures WaterGoal(p, x) == WaterGoal(r, x) && CalorieGoal(p) == CalorieGoal(r) {
      SameAttributesSameGoals(p, r, x);
    }
    assert r == Store(f.profile, today, WithGoals(f.profile, f.stats, t));
    forall date | date in r.dailyStats
      ensures DayConsistent(r, date, r.dailyStats[date])
    {
      if date != today {
        assert r.dailyStats[date] == (r.dailyStats - {today})[date];
      }
    }
  }

  /** Replacing a profile by a consistent one keeps the registry consistent. */
  lemma RegistryUpdate(users: map<UserId, UserProfile>, uid: UserId, p: UserProfile)
    requires RegistryConsistent(users) && ProfileConsistent(uid, p)
    ensures RegistryConsistent(users[uid := p])
  {
  }

  /** Writing a consistent record for today into a consistent profile keeps it consistent. */
  lemma StoreConsistent(uid: UserId, p: UserProfile, today: Date, d: DailyStats)
    requires ProfileConsistent(uid, p) && DayConsistent(p, today, d)
    ensures ProfileConsistent(uid, Store(p, today, d))
  {
    var q := Store(p, today, d);
    forall x: real ensures WaterGoal(p, x) == WaterGoal(q, x) && CalorieGoal(p) == CalorieGoal(q) {
      SameAttributesSameGoals(p, q, x);
    }
  }

  lemma ProcessCityPreserves(s: Session, uid: UserId, city: string, today: Date, w1: Option<real>, w2: Option<real>)
    requires Consistent(s) && s.phase == ProfileSetup(City)
    ensures ProcessCity(s, uid, city, today, w1, w2).reply != Unhandled
    ensures Consistent(ProcessCity(s, uid, city, today, w1, w2).session)
  {
    if w1.Some? {
      var profile := ProfileFrom(uid, s.pending, city);
      CurrentStatsConsistent(uid, profile, today, w2);
      RegistryUpdate(s.users, uid, CurrentStats(profile, today, w2).profile);
    }
  }

  lemma LogWaterPreserves(s: Session, uid: UserId, today: Date, args: string, amount: Option<real>, w: Option<real>)
    requires Consistent(s)
    ensures Consistent(LogWater(s, uid, today, args, amount, w).session)
  {
    if args != "" && uid in s.users {
      var f := CurrentStats(s.users[uid], today, w);
      CurrentStatsConsistent(uid, s.users[uid], today, w);
      RegistryUpdate(s.users, uid, f.profile);
      if amount.Some? {
        var d := f.stats.(loggedWater := f.stats.loggedWater + amount.value);
        assert d.(loggedWater := f.stats.loggedWater) == f.stats;
        assert DayConsistent(f.profile, today, d);
        StoreConsistent(uid, f.profile, today, d);
        RegistryUpdate(s.users, uid, Store(f.profile, today, d));
      }
    }
  }

  lemma ProcessFoodWeightPreserves(s: Session, uid: UserId, today: Date, grams: Option<real>, w: Option<real>, stamp: Timestamp)
    requires Consistent(s) && s.phase == WaitingForWeight
    ensures ProcessFoodWeight(s, uid, today, grams, w, stamp).reply != Unhandled || uid !in s.users
    ensures Consistent(ProcessFoodWeight(s, uid, today, grams, w, stamp).session)
  {
    if grams.Some? && uid in s.users {
      var g := grams.value;
      var kcal := FoodCalories(s.pending.caloriesPer100.value, g);
      var f := CurrentStats(s.users[uid], today, w);
      CurrentStatsConsistent(uid, s.users[uid], today, w);
      var e := FoodEntry(s.pending.foodName.value, g, kcal, stamp);
      FoodTotalAppend(f.stats.foodLog, e);
      var d := f.stats.(loggedCalories := f.stats.loggedCalories + kcal, foodLog := f.stats.foodLog + [e]);
      StoreConsistent(uid, f.profile, today, d);
      RegistryUpdate(s.users, uid, Store(f.profile, today, d));
    }
  }

  lemma CommitWorkoutPreserves(s: Session, uid: UserId, today: Date, w: Option<real>, stamp: Timestamp)
    requires Consistent(s) && s.phase == CommitWorkout
    ensures uid in s.users ==> CommitWorkoutEntry(s, uid, today, w, stamp).reply.WorkoutLogged?
    ensures Consistent(CommitWorkoutEntry(s, uid, today, w, stamp).session)
  {
    if uid in s.users {
      var kind := s.pending.workoutType.value;
      var minutes := s.pending.workoutDuration.value;
      var burned := WorkoutCalories[kind] * minutes;
      var f := CurrentStats(s.users[uid], today, w);
      CurrentStatsConsistent(uid, s.users[uid], today, w);
      var e := WorkoutEntry(kind, minutes, burned, stamp);
      WorkoutTotalAppend(f.stats.workoutLog, e);
      var d := f.stats.(burnedCalories := f.stats.burnedCalories + burned as real, workoutLog := f.stats.workoutLog + [e]);
      StoreConsistent(uid, f.profile, today, d);
      RegistryUpdate(s.users, uid, Store(f.profile, today, d));
    }
  }

  lemma CheckProgressPreserves(s: Session, uid: UserId, today: Date, w1: Option<real>, w2: Option<real>)
    requires Consistent(s)
    ensures Consistent(CheckProgress(s, uid, today, w1, w2).session)
  {
    if uid in s.users {
      var f := CurrentStats(s.users[uid], today, w1);
      CurrentStatsConsistent(uid, s.users[uid], today, w1);
      if w2.Some? {
        UpdateDailyGoalsConsistent(uid, f.profile, today, w1, w2.value);
        RegistryUpdate(s.users, uid, UpdateDailyGoals(f.profile, today, w1, w2.value));
      } else {
        RegistryUpdate(s.users, uid, f.profile);
      }
    }
  }

  /** Every handler an admitted message runs keeps the session consistent. */
  lemma ApplyPreserves(s: Session, uid: UserId, e: Event, w: World)
    requires Consistent(s)
    ensures Consistent(Apply(s, uid, e, w).session)
  {
    match e
    case LogWaterCmd(m) => LogWaterPreserves(s, uid, w.today, m.text, m.asReal, w.weather);
    case LogWorkoutCmd(m) =>
      if s.phase == CommitWorkout {
        CommitWorkoutPreserves(s, uid, w.today, w.weather, w.stamp);
      }
    case CheckProgressCmd => CheckProgressPreserves(s, uid, w.today, w.weather, w.weatherAgain);
    case Text(m) => {
      match s.phase
      case ProfileSetup(City) => ProcessCityPreserves(s, uid, m.text, w.today, w.weather, w.weatherAgain);
      case WaitingForWater => LogWaterPreserves(Cleared(s), uid, w.today, m.text, m.asReal, w.weather);
      case WaitingForWeight => ProcessFoodWeightPreserves(s, uid, w.today, m.asReal, w.weather, w.stamp);
      case WaitingForWorkoutDuration =>
        if m.asInt.Some? {
          var s' := s.(phase := CommitWorkout, pending := s.pending.(workoutDuration := m.asInt));
          CommitWorkoutPreserves(s', uid, w.today, w.weather, w.stamp);
        }
      case _ =>
    }
    case _ =>
  }

  /** A delivered message, blocked or not, keeps the session consistent. */
  lemma DeliverPreserves(s: Session, uid: UserId, e: Event, w: World)
    requires Consistent(s)
    ensures Consistent(Deliver(s, uid, e, w).session)
  {
    if Admits(EventText(e), RawState(s.phase), uid in s.users) {
      ApplyPreserves(s, uid, e, w);
    }
  }

  /** A whole conversation keeps the session consistent. */
  lemma {:induction false} RunPreserves(s: Session, uid: UserId, steps: seq<(Event, World)>)
    requires Consistent(s)
    ensures Consistent(Run(s, uid, steps))
    decreases |steps|
  {
    if steps != [] {
      DeliverPreserves(s, uid, steps[0].0, steps[0].1);
      RunPreserves(Deliver(s, uid, steps[0].0, steps[0].1).session, uid, steps[1..]);
    }
  }

  /** The bot starts with no state, no data and no profiles. */
  lemma InitialConsistent()
    ensures Consistent(Session(Idle, NoPending, map[]))
  {
  }

  /** In a consistent session the progress summary's figures are the totals of today's logs. */
  lemma ProgressMatchesLogs(s: Session, uid: UserId, today: Date, w1: Option<real>, w2: Option<real>)
    requires Consistent(s) && uid in s.users
    ensures var r := CheckProgress(s, uid, today, w1, w2);
            var d := r.session.users[uid].dailyStats[today];
            && r.reply.Progress?
            && r.reply.report.consumed == FoodTotal(d.foodLog)
            && r.reply.report.burned == WorkoutTotal(d.workoutLog)
            && r.reply.report.balance == FoodTotal(d.foodLog) - CalorieGoal(s.users[uid]) - WorkoutTotal(d.workoutLog)
  {
    CheckProgressPreserves(s, uid, today, w1, w2);
    var r := CheckProgress(s, uid, today, w1, w2);
    SameAttributesSameGoals(s.users[uid], r.session.users[uid], 0.0);
  }
}
