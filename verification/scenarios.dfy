/** Worked examples of the goal formulas and flows, on concrete figures. */
module Scenarios {
  import opened Wrappers
  import opened States
  import opened Models
  import opened Handlers
  import opened Middlewares
  import opened Dispatch
  import opened Flows

  /** 70 kg, 45 active minutes, 30 degrees: 2100 + 500 + 500 ml. */
  lemma WaterGoalExample(p: UserProfile)
    requires p.weight == 70.0 && p.activityMinutes == 45
    ensures WaterGoal(p, 30.0) == 3100.0
    ensures WaterGoal(p, 25.0) == 2600.0
  {
  }

  /** 70 kg, 175 cm, 30 years, 60 active minutes: 700 + 1093.75 - 150 + 240 kcal. */
  lemma CalorieGoalExample(p: UserProfile)
    requires p.weight == 70.0 && p.height == 175.0 && p.age == 30 && p.activityMinutes == 60
    ensures CalorieGoal(p) == 1883.75
  {
  }

  /** 150 g of a food with 52 kcal per 100 g is 78 kcal. */
  lemma FoodCaloriesExample()
    ensures FoodCalories(52.0, 150.0) == 78.0
  {
  }

  /** 45 minutes of running burns 450 kcal and advises 200 ml. */
  lemma RunExample(s: Session, uid: UserId, today: Date, w: Option<real>, stamp: Timestamp)
    requires s.phase == Idle && s.pending == NoPending && uid in s.users && today in s.users[uid].dailyStats
    ensures
      var s1 := LogWorkout(s, uid, today, "run", w, stamp).session;
      ProcessWorkoutDuration(s1, uid, today, Some(45), w, stamp).reply == WorkoutLogged("run", 45, 450, 200)
  {
    WorkoutFlow(s, uid, today, "run", 45, w, stamp);
  }

  /**
   300 ml then 200 ml, or the other way round: 500 ml either way. The
   argument text `"amount"` only marks the command as having an argument;
   the parsed amounts are the list.
   */
  lemma WaterOrderExample(s: Session, uid: UserId, today: Date, w: Option<real>)
    requires uid in s.users && today in s.users[uid].dailyStats
    requires s.users[uid].dailyStats[today].loggedWater == 0.0
    ensures WaterOf(LogWaterEach(s, uid, today, "amount", [300.0, 200.0], w), uid, today) == 500.0
    ensures WaterOf(LogWaterEach(s, uid, today, "amount", [200.0, 300.0], w), uid, today) == 500.0
  {
    WaterLogsAccumulate(s, uid, today, "amount", [300.0, 200.0], w);
    WaterLogsAccumulate(s, uid, today, "amount", [200.0, 300.0], w);
  }

  /** "swim" is not a workout type: the user stays where they were. */
  lemma SwimExample(s: Session)
    requires s.phase == WaitingForWorkoutType
    ensures ProcessWorkoutType(s, "swim") == Outcome(s, UnknownWorkoutType(["run", "walk", "jump", "tennis", "football"]))
  {
  }

  /** Without a profile, `/log_water 500` gets the setup prompt and changes nothing; `/set_profile` goes through. */
  lemma NoProfileExample(uid: UserId, w: World)
    ensures var s := Session(Idle, NoPending, map[]);
            && Deliver(s, uid, LogWaterCmd(Message("500", Some(500.0), Some(500))), w) == Outcome(s, SetupPrompt)
            && Deliver(s, uid, SetProfileCmd, w).session.phase == ProfileSetup(Weight)
  {
    var s := Session(Idle, NoPending, map[]);
    CommandsNeedProfile(s, uid, LogWaterCmd(Message("500", Some(500.0), Some(500))), w);
    SetProfileAlwaysStarts(s, uid, w);
  }

  /** Without a profile and with no state, plain "hello" matches no handler: no prompt, no reply, nothing changes. */
  lemma StrayTextExample(uid: UserId, w: World)
    ensures var s := Session(Idle, NoPending, map[]);
            Deliver(s, uid, Text(Message("hello", None, None)), w) == Outcome(s, NoReply)
  {
  }

  /** `/start` and `/help` reach their handlers for a user without a profile, in any state. */
  lemma OnboardingRunsHandlers(s: Session, uid: UserId, w: World)
    ensures Deliver(s, uid, StartCmd, w) == Start(s)
    ensures Deliver(s, uid, HelpCmd, w) == Help(s)
  {
    OnboardingPasses("/start", RawState(s.phase), uid in s.users);
    OnboardingPasses("/help", RawState(s.phase), uid in s.users);
  }
}
