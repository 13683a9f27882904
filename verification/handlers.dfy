/**
 The message handlers of the bot as pure transitions over one user's
 session: their FSM state and data, and the registry of all profiles.
 Parsed numbers, weather and food lookups, today's date and the entry
 timestamp are inputs; reply texts are reduced to tags carrying the
 figures they report.
 */
module Handlers {
  import opened Wrappers
  import opened States
  import opened Models

  type UserId = int

  /** One user's conversation state and data, and the registry of every profile. */
  datatype Session = Session(phase: Phase, pending: Pending, users: map<UserId, UserProfile>)

  /** What the food search returned. */
  datatype FoodLookup =
    | FoodMissing                                          // no result (`None`)
    | LookupError(detail: string, suggestion: Option<string>)  // a result flagged "error"
    | Found(name: string, calories: Option<real>)          // `None` when the energy field is not a number

  datatype TempChange = Increased | Decreased

  /** The figures of the daily progress summary. */
  datatype ProgressReport = ProgressReport(
    drunk: real,
    waterGoal: real,
    waterRemaining: real,
    consumed: real,
    calorieGoal: real,
    burned: real,
    balance: real)

  datatype Reply =
    | Greeting
    | CommandList
    | AskWeight | AskHeight | AskAge | AskActivity | AskCity
    | NotANumber                       // "Submit a number"
    | NotAWholeNumber                  // "Submit a whole number"
    | ProfileReady(waterGoal: real, calorieGoal: real)
    | WeatherUnavailable
    | AskWater
    | WaterLogged(amount: real, remaining: real)
    | InvalidWater
    | AskFoodName
    | FoodNotFound
    | FoodLookupFailed(detail: string, suggestion: Option<string>)
    | FoodUnreadable
    | FoodFound(name: string, caloriesPer100: real)
    | InvalidFoodWeight
    | FoodLogged(name: string, grams: real, calories: real)
    | AskWorkoutType(types: seq<string>)
    | UnknownWorkoutType(types: seq<string>)
    | AskDuration
    | InvalidDuration
    | WorkoutLogged(kind: string, minutes: int, burned: int, waterAdvice: int)
    | WorkoutFailed
    | Progress(notice: Option<TempChange>, report: ProgressReport)
    | SetupPrompt                      // the access guard's "Set up your profile"
    | NoReply                          // the handler returned without answering
    | Unhandled                        // the handler raised; nothing is answered

  datatype Outcome = Outcome(session: Session, reply: Reply)

  /** `state.clear()`: no state and no data. */
  function Cleared(s: Session): Session
  {
    s.(phase := Idle, pending := NoPending)
  }

  /** The session with the profile of `uid` replaced by `p`. */
  function WithProfile(s: Session, uid: UserId, p: UserProfile): Session
  {
    s.(users := s.users[uid := p])
  }

  /** Only the profile of `uid` may differ between the two registries. */
  predicate OthersKept(s: Session, s': Session, uid: UserId)
  {
    s'.users - {uid} == s.users - {uid}
  }

  function Max0(x: real): (r: real)
    ensures r >= 0.0 && r >= x
    ensures r == 0.0 || r == x
  {
    if x > 0.0 then x else 0.0
  }

  function Abs(x: real): (r: real)
    ensures r >= 0.0 && (r == x || r == -x)
  {
    if x < 0.0 then -x else x
  }

  // ---------------------------------------------------------------------
  // Static commands and profile setup
  // ---------------------------------------------------------------------

  function Start(s: Session): (r: Outcome)
    ensures r.session == s && r.reply == Greeting
  {
    Outcome(s, Greeting)
  }

  function Help(s: Session): (r: Outcome)
    ensures r.session == s && r.reply == CommandList
  {
    Outcome(s, CommandList)
  }

  /** `/set_profile`: enters the weight step; data from earlier flows is kept. */
  function SetProfile(s: Session): (r: Outcome)
    ensures r.session.phase == ProfileSetup(Weight)
    ensures r.session.pending == s.pending && r.session.users == s.users
    ensures r.reply == AskWeight
  {
    Outcome(s.(phase := ProfileSetup(Weight)), AskWeight)
  }

  /** `process_weight`: stores a parsed weight and moves to the height step. */
  function ProcessWeight(s: Session, weight: Option<real>): (r: Outcome)
    ensures weight.None? ==> r == Outcome(s, NotANumber)
    ensures weight.Some? ==>
      && r.session == s.(phase := ProfileSetup(Height), pending := s.pending.(weight := weight))
      && r.reply == AskHeight
  {
    match weight
    case None => Outcome(s, NotANumber)
    case Some(w) => Outcome(s.(phase := ProfileSetup(Height), pending := s.pending.(weight := Some(w))), AskHeight)
  }

  /** `process_height`: stores a parsed height and moves to the age step. */
  function ProcessHeight(s: Session, height: Option<real>): (r: Outcome)
    ensures height.None? ==> r == Outcome(s, NotANumber)
    ensures height.Some? ==>
      && r.session == s.(phase := ProfileSetup(Age), pending := s.pending.(height := height))
      && r.reply == AskAge
  {
    match height
    case None => Outcome(s, NotANumber)
    case Some(h) => Outcome(s.(phase := ProfileSetup(Age), pending := s.pending.(height := Some(h))), AskAge)
  }

  /** `process_age`: stores a parsed whole number (negative ones included) and moves to the activity step. */
  function ProcessAge(s: Session, age: Option<int>): (r: Outcome)
    ensures age.None? ==> r == Outcome(s, NotAWholeNumber)
    ensures age.Some? ==>
      && r.session == s.(phase := ProfileSetup(Activity), pending := s.pending.(age := age))
      && r.reply == AskActivity
  {
    match age
    case None => Outcome(s, NotAWholeNumber)
    case Some(a) => Outcome(s.(phase := ProfileSetup(Activity), pending := s.pending.(age := Some(a))), AskActivity)
  }

  /** `process_activity`: stores a parsed whole number of minutes and moves to the city step. */
  function ProcessActivity(s: Session, activity: Option<int>): (r: Outcome)
    ensures activity.None? ==> r == Outcome(s, NotAWholeNumber)
    ensures activity.Some? ==>
      && r.session == s.(phase := ProfileSetup(City), pending := s.pending.(activity := activity))
      && r.reply == AskCity
  {
    match activity
    case None => Outcome(s, NotAWholeNumber)
    case Some(a) => Outcome(s.(phase := ProfileSetup(City), pending := s.pending.(activity := Some(a))), AskCity)
  }

  /** The profile that the collected setup data and `city` describe, with no statistics yet. */
  function ProfileFrom(uid: UserId, d: Pending, city: string): UserProfile
    requires d.weight.Some? && d.height.Some? && d.age.Some? && d.activity.Some?
  {
    UserProfile(uid, d.weight.value, d.height.value, d.age.value, d.activity.value, city, map[])
  }

  /**
   `process_city`: checks the city with one weather lookup (`cityWeather`).
   Without a temperature nothing is stored and the user stays at the city
   step. With one, the new profile replaces any earlier one for the user,
   its first record is seeded by a second lookup (`seedWeather`), and the
   state is cleared. A missing setup value raises before either lookup.
   */
  function ProcessCity(s: Session, uid: UserId, city: string, today: Date,
                       cityWeather: Option<real>, seedWeather: Option<real>): (r: Outcome)
    ensures !(s.pending.weight.Some? && s.pending.height.Some? && s.pending.age.Some? && s.pending.activity.Some?)
            ==> r == Outcome(s, Unhandled)
    ensures cityWeather.None? ==> r.session == s
    ensures r.session.users.Keys <= s.users.Keys + {uid}
    ensures OthersKept(s, r.session, uid)
    ensures r.reply.ProfileReady? <==>
      s.pending.weight.Some? && s.pending.height.Some? && s.pending.age.Some? && s.pending.activity.Some?
      && cityWeather.Some?
    ensures !r.reply.ProfileReady? ==> r.session == s
    ensures r.reply.ProfileReady? ==>
      && r.session.phase == Idle && r.session.pending == NoPending
      && uid in r.session.users
      && var p := r.session.users[uid];
         && p.dailyStats.Keys == {today}
         && p == Store(ProfileFrom(uid, s.pending, city), today, p.dailyStats[today])
         && SeededDay(p, p.dailyStats[today], today, seedWeather.GetOr(FallbackTemperature))
         && r.reply == ProfileReady(p.dailyStats[today].waterGoal, p.dailyStats[today].calorieGoal)
  {
    var d := s.pending;
    if !(d.weight.Some? && d.height.Some? && d.age.Some? && d.activity.Some?) then
      Outcome(s, Unhandled)
    else
      var profile := ProfileFrom(uid, d, city);
      match cityWeather
      case None => Outcome(s, WeatherUnavailable)
      case Some(_) =>
        var f := CurrentStats(profile, today, seedWeather);
        Outcome(WithProfile(Cleared(s), uid, f.profile), ProfileReady(f.stats.waterGoal, f.stats.calorieGoal))
  }

  // ---------------------------------------------------------------------
  // Water
  // ---------------------------------------------------------------------

  /**
   `/log_water [amount]`. Without an argument it waits for the amount.
   With one it looks up today's record first (creating it if needed), then
   adds the parsed amount and reports what is left to drink, never below 0.
   */
  function LogWater(s: Session, uid: UserId, today: Date, args: string,
                    amount: Option<real>, weather: Option<real>): (r: Outcome)
    ensures args == "" ==> r == Outcome(s.(phase := WaitingForWater), AskWater)
    ensures args != "" && uid !in s.users ==> r == Outcome(s, Unhandled)
    ensures args != "" ==> r.session.phase == s.phase && r.session.pending == s.pending
    ensures OthersKept(s, r.session, uid) && r.session.users.Keys == s.users.Keys
    ensures args != "" && uid in s.users ==>
      var f := CurrentStats(s.users[uid], today, weather);
      && uid in r.session.users
      && SameAttributes(s.users[uid], r.session.users[uid])
      && match amount
         case None =>
           r == Outcome(WithProfile(s, uid, f.profile), InvalidWater)
         case Some(a) =>
           var q := r.session.users[uid];
           && q.dailyStats.Keys == f.profile.dailyStats.Keys
           && OthersUnchanged(f.profile.dailyStats, q.dailyStats, today)
           && q.dailyStats[today] == f.stats.(loggedWater := f.stats.loggedWater + a)
           && r.reply == WaterLogged(a, Max0(f.stats.waterGoal - q.dailyStats[today].loggedWater))
  {
    if args == "" then
      Outcome(s.(phase := WaitingForWater), AskWater)
    else if uid !in s.users then
      Outcome(s, Unhandled)
    else
      var f := CurrentStats(s.users[uid], today, weather);
      match amount
      case None => Outcome(WithProfile(s, uid, f.profile), InvalidWater)
      case Some(a) =>
        var d := f.stats.(loggedWater := f.stats.loggedWater + a);
        Outcome(WithProfile(s, uid, Store(f.profile, today, d)), WaterLogged(a, Max0(d.waterGoal - d.loggedWater)))
  }

  /**
   `process_water_logging`: clears the state first, then handles the text as
   the argument of `/log_water`; so an unparsable amount ends in no state.
   */
  function ProcessWaterLogging(s: Session, uid: UserId, today: Date, text: string,
                               amount: Option<real>, weather: Option<real>): (r: Outcome)
    ensures r == LogWater(Cleared(s), uid, today, text, amount, weather)
    ensures text != "" ==> r.session.phase == Idle && r.session.pending == NoPending
    ensures text == "" ==> r.session.phase == WaitingForWater && r.session.pending == NoPending
    ensures r.session.users.Keys == s.users.Keys
    ensures amount.None? ==> !r.reply.WaterLogged?
    ensures amount.None? && uid in s.users && today in s.users[uid].dailyStats ==> r.session.users == s.users
  {
    LogWater(Cleared(s), uid, today, text, amount, weather)
  }

  // ---------------------------------------------------------------------
  // Food
  // ---------------------------------------------------------------------

  /**
   `/log_food [query]`. Without an argument it waits for the food name.
   With one it consults the food search: a hit with a numeric energy value
   is kept as pending data and the user is asked for the grams; every
   failure answers and leaves the session as it was.
   */
  function LogFood(s: Session, args: string, lookup: FoodLookup): (r: Outcome)
    ensures r.session.users == s.users
    ensures args == "" ==> r == Outcome(s.(phase := WaitingForFoodName), AskFoodName)
    ensures args != "" && !(lookup.Found? && lookup.calories.Some?) ==> r.session == s
    ensures args != "" && lookup.FoodMissing? ==> r.reply == FoodNotFound
    ensures args != "" && lookup.LookupError? ==> r.reply == FoodLookupFailed(lookup.detail, lookup.suggestion)
    ensures args != "" && lookup.Found? && lookup.calories.None? ==> r.reply == FoodUnreadable
    ensures args != "" && lookup.Found? && lookup.calories.Some? ==>
      && r.session.phase == WaitingForWeight
      && r.session.pending == s.pending.(foodName := Some(lookup.name), caloriesPer100 := lookup.calories)
      && r.reply == FoodFound(lookup.name, lookup.calories.value)
  {
    if args == "" then
      Outcome(s.(phase := WaitingForFoodName), AskFoodName)
    else
      match lookup
      case FoodMissing => Outcome(s, FoodNotFound)
      case LookupError(detail, suggestion) => Outcome(s, FoodLookupFailed(detail, suggestion))
      case Found(name, None) => Outcome(s, FoodUnreadable)
      case Found(name, Some(c)) =>
        Outcome(s.(phase := WaitingForWeight, pending := s.pending.(foodName := Some(name), caloriesPer100 := Some(c))),
                FoodFound(name, c))
  }

  /** `process_food_name`: clears the state, then handles the text as the argument of `/log_food`. */
  function ProcessFoodName(s: Session, text: string, lookup: FoodLookup): (r: Outcome)
    ensures r.session.users == s.users
    ensures r.session.phase in {Idle, WaitingForFoodName, WaitingForWeight}
    ensures r.session.phase == WaitingForWeight <==> text != "" && lookup.Found? && lookup.calories.Some?
    ensures r.session.phase != WaitingForWeight ==> r.session.pending == NoPending
    ensures text == "" ==> r == Outcome(Cleared(s).(phase := WaitingForFoodName), AskFoodName)
    ensures text != "" && !(lookup.Found? && lookup.calories.Some?) ==> r.session == Cleared(s)
    ensures text != "" && lookup.FoodMissing? ==> r.reply == FoodNotFound
    ensures text != "" && lookup.LookupError? ==> r.reply == FoodLookupFailed(lookup.detail, lookup.suggestion)
    ensures text != "" && lookup.Found? && lookup.calories.None? ==> r.reply == FoodUnreadable
    ensures r.session.phase == WaitingForWeight ==>
      && r.session.pending == NoPending.(foodName := Some(lookup.name), caloriesPer100 := lookup.calories)
      && r.reply == FoodFound(lookup.name, lookup.calories.value)
  {
    LogFood(Cleared(s), text, lookup)
  }

  /** The calories in `grams` of a food with `per100` kcal per 100 g. */
  function FoodCalories(per100: real, grams: real): (kcal: real)
    ensures kcal * 100.0 == per100 * grams
    ensures grams == 100.0 ==> kcal == per100
    ensures grams == 0.0 || per100 == 0.0 ==> kcal == 0.0
    ensures per100 >= 0.0 && grams >= 0.0 ==> kcal >= 0.0
  {
    per100 * grams / 100.0
  }

  /**
   `process_food_weight`: on a parsed weight, adds the food's calories to
   today's total, appends one entry to the food log and clears the state.
   An unparsable weight re-prompts and changes nothing. Missing pending data
   or a missing profile raises (the name is read only after the total grew).
   */
  function ProcessFoodWeight(s: Session, uid: UserId, today: Date, grams: Option<real>,
                             weather: Option<real>, stamp: Timestamp): (r: Outcome)
    ensures grams.None? ==> r == Outcome(s, InvalidFoodWeight)
    ensures r.session.users.Keys == s.users.Keys && OthersKept(s, r.session, uid)
    ensures grams.Some? && (s.pending.caloriesPer100.None? || uid !in s.users) ==> r == Outcome(s, Unhandled)
    ensures r.reply.FoodLogged? <==>
      grams.Some? && s.pending.caloriesPer100.Some? && s.pending.foodName.Some? && uid in s.users
    ensures grams.Some? && s.pending.caloriesPer100.Some? && uid in s.users && s.pending.foodName.None? ==>
      var f := CurrentStats(s.users[uid], today, weather);
      var kcal := FoodCalories(s.pending.caloriesPer100.value, grams.value);
      var d := f.stats.(loggedCalories := f.stats.loggedCalories + kcal);
      && r.reply == Unhandled
      && r.session == s.(users := s.users[uid := Store(f.profile, today, d)])
      && r.session.users[uid].dailyStats[today].loggedCalories == f.stats.loggedCalories + kcal
      && r.session.users[uid].dailyStats[today].foodLog == f.stats.foodLog
    ensures r.reply.FoodLogged? ==>
      var f := CurrentStats(s.users[uid], today, weather);
      var kcal := FoodCalories(s.pending.caloriesPer100.value, grams.value);
      var q := r.session.users[uid];
      && r.session.phase == Idle && r.session.pending == NoPending
      && SameAttributes(s.users[uid], q)
      && q.dailyStats.Keys == f.profile.dailyStats.Keys
      && OthersUnchanged(f.profile.dailyStats, q.dailyStats, today)
      && q.dailyStats[today].loggedCalories == f.stats.loggedCalories + kcal
      && q.dailyStats[today].foodLog == f.stats.foodLog + [FoodEntry(s.pending.foodName.value, grams.value, kcal, stamp)]
      && q.dailyStats[today] == f.stats.(loggedCalories := q.dailyStats[today].loggedCalories,
                                         foodLog := q.dailyStats[today].foodLog)
      && r.reply == FoodLogged(s.pending.foodName.value, grams.value, kcal)
  {
    match grams
    case None => Outcome(s, InvalidFoodWeight)
    case Some(g) =>
      if s.pending.caloriesPer100.None? || uid !in s.users then
        Outcome(s, Unhandled)
      else
        var kcal := FoodCalories(s.pending.caloriesPer100.value, g);
        var f := CurrentStats(s.users[uid], today, weather);
        var d := f.stats.(loggedCalories := f.stats.loggedCalories + kcal);
        match s.pending.foodName
        case None => Outcome(WithProfile(s, uid, Store(f.profile, today, d)), Unhandled)
        case Some(name) =>
          var d' := d.(foodLog := d.foodLog + [FoodEntry(name, g, kcal, stamp)]);
          Outcome(WithProfile(Cleared(s), uid, Store(f.profile, today, d')), FoodLogged(name, g, kcal))
  }

  // ---------------------------------------------------------------------
  // Workouts
  // ---------------------------------------------------------------------

  /** `validate_workout_type`: a non-empty name from the calorie table. */
  predicate ValidWorkoutType(kind: string)
  {
    kind != "" && kind in WorkoutCalories
  }

  /** The listed workout types are exactly the valid ones. */
  lemma WorkoutTypesListed(kind: string)
    ensures ValidWorkoutType(kind) <==> kind in WorkoutTypes
  {
  }

  /** `process_workout_type`: a known type is stored and the duration asked; an unknown one re-prompts in place. */
  function ProcessWorkoutType(s: Session, text: string): (r: Outcome)
    ensures r.session.users == s.users
    ensures !ValidWorkoutType(text) ==> r == Outcome(s, UnknownWorkoutType(WorkoutTypes))
    ensures ValidWorkoutType(text) ==>
      && r.session.phase == WaitingForWorkoutDuration
      && r.session.pending == s.pending.(workoutType := Some(text))
      && r.reply == AskDuration
  {
    if !ValidWorkoutType(text) then
      Outcome(s, UnknownWorkoutType(WorkoutTypes))
    else
      Outcome(s.(phase := WaitingForWorkoutDuration, pending := s.pending.(workoutType := Some(text))), AskDuration)
  }

  /** Calories burned by a workout of a known type. */
  function BurnedCalories(kind: string, minutes: int): (kcal: int)
    requires kind in WorkoutCalories
    ensures minutes >= 0 ==> kcal >= 0
    ensures kind == "run" ==> kcal == 10 * minutes
    ensures kind == "walk" ==> kcal == 5 * minutes
    ensures kind == "jump" ==> kcal == 8 * minutes
    ensures kind == "tennis" ==> kcal == 14 * minutes
    ensures kind == "football" ==> kcal == 12 * minutes
  {
    WorkoutCalories[kind] * minutes
  }

  /** The water advised after a workout: 200 ml per complete half hour (floor division). */
  function WorkoutWater(minutes: int): (ml: int)
    ensures ml % WaterPerWorkout == 0
    ensures 0 <= minutes < 30 ==> ml == 0
    ensures minutes >= 0 ==> 0 <= ml && ml * 30 <= minutes * WaterPerWorkout
    ensures ml / WaterPerWorkout * 30 <= minutes < (ml / WaterPerWorkout + 1) * 30
  {
    (minutes / 30) * WaterPerWorkout
  }

  /**
   The commit branch of `cmd_log_workout`: looks up today's record, adds
   the burned calories, appends one workout entry and clears the state.
   The advised water is reported, not logged.
   */
  function CommitWorkoutEntry(s: Session, uid: UserId, today: Date,
                              weather: Option<real>, stamp: Timestamp): (r: Outcome)
    ensures uid !in s.users ==> r == Outcome(s, Unhandled)
    ensures r.session.users.Keys == s.users.Keys && OthersKept(s, r.session, uid)
    ensures r.reply.WorkoutLogged? <==>
      uid in s.users && s.pending.workoutType.Some? && s.pending.workoutDuration.Some?
      && s.pending.workoutType.value in WorkoutCalories
    ensures !r.reply.WorkoutLogged? ==> r.session.phase == s.phase && r.session.pending == s.pending
    ensures uid in s.users && !r.reply.WorkoutLogged? ==>
      && r.session == s.(users := s.users[uid := CurrentStats(s.users[uid], today, weather).profile])
      && r.reply == (if s.pending.workoutType.None? || s.pending.workoutDuration.None? then Unhandled else WorkoutFailed)
    ensures r.reply.WorkoutLogged? ==>
      var f := CurrentStats(s.users[uid], today, weather);
      var kind := s.pending.workoutType.value;
      var minutes := s.pending.workoutDuration.value;
      var burned := WorkoutCalories[kind] * minutes;
      var q := r.session.users[uid];
      && r.session.phase == Idle && r.session.pending == NoPending
      && SameAttributes(s.users[uid], q)
      && q.dailyStats.Keys == f.profile.dailyStats.Keys
      && OthersUnchanged(f.profile.dailyStats, q.dailyStats, today)
      && q.dailyStats[today].burnedCalories == f.stats.burnedCalories + burned as real
      && q.dailyStats[today].workoutLog == f.stats.workoutLog + [WorkoutEntry(kind, minutes, burned, stamp)]
      && q.dailyStats[today].loggedWater == f.stats.loggedWater
      && q.dailyStats[today] == f.stats.(burnedCalories := q.dailyStats[today].burnedCalories,
                                         workoutLog := q.dailyStats[today].workoutLog)
      && r.reply == WorkoutLogged(kind, minutes, burned, (minutes / 30) * WaterPerWorkout)
  {
    if uid !in s.users then
      Outcome(s, Unhandled)
    else
      var f := CurrentStats(s.users[uid], today, weather);
      if s.pending.workoutType.None? || s.pending.workoutDuration.None? then
        Outcome(WithProfile(s, uid, f.profile), Unhandled)
      else
        var kind := s.pending.workoutType.value;
        var minutes := s.pending.workoutDuration.value;
        if kind !in WorkoutCalories then
          Outcome(WithProfile(s, uid, f.profile), WorkoutFailed)
        else
          var burned := BurnedCalories(kind, minutes);
          var d := f.stats.(burnedCalories := f.stats.burnedCalories + burned as real,
                            workoutLog := f.stats.workoutLog + [WorkoutEntry(kind, minutes, burned, stamp)]);
          Outcome(WithProfile(Cleared(s), uid, Store(f.profile, today, d)),
                  WorkoutLogged(kind, minutes, burned, WorkoutWater(minutes)))
  }

  /**
   `/log_workout [type]`. Outside the commit state it only asks for what is
   missing: the type (taken from the argument when it is a known one) and
   then the duration; with both already present it does nothing. In the
   commit state it logs the workout.
   */
  function LogWorkout(s: Session, uid: UserId, today: Date, args: string,
                      weather: Option<real>, stamp: Timestamp): (r: Outcome)
    ensures s.phase != CommitWorkout ==> r.session.users == s.users
    ensures s.phase != CommitWorkout && s.pending.workoutType.None? && args == "" ==>
      r == Outcome(s.(phase := WaitingForWorkoutType), AskWorkoutType(WorkoutTypes))
    ensures s.phase != CommitWorkout && s.pending.workoutType.None? && args != "" ==>
      if ValidWorkoutType(args) then
        r == Outcome(s.(phase := WaitingForWorkoutDuration, pending := s.pending.(workoutType := Some(args))), AskDuration)
      else
        r == Outcome(s, UnknownWorkoutType(WorkoutTypes))
    ensures s.phase != CommitWorkout && s.pending.workoutType.Some? ==>
      && r.session.pending == s.pending
      && (s.pending.workoutDuration.None? ==> r.session.phase == WaitingForWorkoutDuration && r.reply == AskDuration)
      && (s.pending.workoutDuration.Some? ==> r == Outcome(s, NoReply))
    ensures s.phase == CommitWorkout ==> r == CommitWorkoutEntry(s, uid, today, weather, stamp)
  {
    if s.phase != CommitWorkout then
      if s.pending.workoutType.None? then
        if args != "" then
          if ValidWorkoutType(args) then
            Outcome(s.(phase := WaitingForWorkoutDuration, pending := s.pending.(workoutType := Some(args))), AskDuration)
          else
            Outcome(s, UnknownWorkoutType(WorkoutTypes))
        else
          Outcome(s.(phase := WaitingForWorkoutType), AskWorkoutType(WorkoutTypes))
      else if s.pending.workoutDuration.None? then
        Outcome(s.(phase := WaitingForWorkoutDuration), AskDuration)
      else
        Outcome(s, NoReply)
    else
      CommitWorkoutEntry(s, uid, today, weather, stamp)
  }

  /**
   `process_workout_duration`: a parsed whole number (negative ones
   included) is stored, the state set to commit, and the workout logged.
   */
  function ProcessWorkoutDuration(s: Session, uid: UserId, today: Date, minutes: Option<int>,
                                  weather: Option<real>, stamp: Timestamp): (r: Outcome)
    ensures minutes.None? ==> r == Outcome(s, InvalidDuration)
    ensures minutes.Some? ==>
      r == CommitWorkoutEntry(s.(phase := CommitWorkout, pending := s.pending.(workoutDuration := minutes)),
                              uid, today, weather, stamp)
  {
    match minutes
    case None => Outcome(s, InvalidDuration)
    case Some(m) =>
      LogWorkout(s.(phase := CommitWorkout, pending := s.pending.(workoutDuration := Some(m))), uid, today, "", weather, stamp)
  }

  // ---------------------------------------------------------------------
  // Progress
  // ---------------------------------------------------------------------

  /** The summary figures of a daily record. */
  function Report(d: DailyStats): (r: ProgressReport)
    ensures r.waterRemaining >= 0.0 && r.waterRemaining >= d.waterGoal - d.loggedWater
    ensures r.waterRemaining == 0.0 || r.waterRemaining == d.waterGoal - d.loggedWater
    ensures r.balance + r.calorieGoal + r.burned == r.consumed
    ensures r.drunk == d.loggedWater && r.waterGoal == d.waterGoal
    ensures r.consumed == d.loggedCalories && r.calorieGoal == d.calorieGoal && r.burned == d.burnedCalories
  {
    ProgressReport(d.loggedWater, d.waterGoal, Max0(d.waterGoal - d.loggedWater),
                   d.loggedCalories, d.calorieGoal, d.burnedCalories,
                   d.loggedCalories - d.calorieGoal - d.burnedCalories)
  }

  /** The temperature-change notice: sent when `now` differs from `stored` by more than 5 degrees. */
  function TemperatureNotice(now: real, stored: real): (n: Option<TempChange>)
    ensures n.Some? <==> Abs(now - stored) > 5.0
    ensures n == Some(Increased) ==> now > stored + 5.0
    ensures n == Some(Decreased) ==> now < stored - 5.0
  {
    if Abs(now - stored) > 5.0 then
      Some(if now > stored then Increased else Decreased)
    else
      None
  }

  /**
   `/check_progress`: looks up today's record (`seedWeather` answers the
   lookup if it is created), asks the weather again (`nowWeather`) and on an
   answer refreshes the goals; the temperature-change notice compares the
   answer with the record's temperature after that refresh.
   */
  function CheckProgress(s: Session, uid: UserId, today: Date,
                         seedWeather: Option<real>, nowWeather: Option<real>): (r: Outcome)
    ensures uid !in s.users ==> r == Outcome(s, Unhandled)
    ensures r.session.phase == s.phase && r.session.pending == s.pending
    ensures r.session.users.Keys == s.users.Keys && OthersKept(s, r.session, uid)
    ensures uid in s.users ==>
      var f := CurrentStats(s.users[uid], today, seedWeather);
      var q := r.session.users[uid];
      && SameAttributes(s.users[uid], q)
      && q.dailyStats.Keys == f.profile.dailyStats.Keys
      && OthersUnchanged(f.profile.dailyStats, q.dailyStats, today)
      && r.reply.Progress?
      && r.reply.report == Report(q.dailyStats[today])
      && (nowWeather.None? ==> q.dailyStats[today] == f.stats)
      && (nowWeather.Some? ==>
            q.dailyStats[today] == f.stats.(waterGoal := WaterGoal(s.users[uid], nowWeather.value),
                                            calorieGoal := CalorieGoal(s.users[uid]),
                                            temperature := nowWeather.value))
  {
    if uid !in s.users then
      Outcome(s, Unhandled)
    else
      var f := CurrentStats(s.users[uid], today, seedWeather);
      var p := if nowWeather.Some? then UpdateDailyGoals(f.profile, today, seedWeather, nowWeather.value) else f.profile;
      var d := p.dailyStats[today];
      var notice := match nowWeather
        case Some(t) => TemperatureNotice(t, d.temperature)
        case None => None;
      Outcome(WithProfile(s, uid, p), Progress(notice, Report(d)))
  }
}
