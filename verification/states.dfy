/**
 The conversation states of the bot (the aiogram state groups) and the
 per-user FSM data that the handlers accumulate with `update_data`.
 */
module States {
  import opened Wrappers

  /** The five steps of the `ProfileSetup` group, in the order they are asked. */
  datatype SetupStep = Weight | Height | Age | Activity | City

  /** The current FSM state of one user; `Idle` is the cleared state (no state). */
  datatype Phase =
    | Idle
    | ProfileSetup(step: SetupStep)
    | WaitingForWeight                 // FoodLogging.waiting_for_weight (grams of food)
    | WaitingForFoodName               // FoodLogging.waiting_for_food_name
    | WaitingForWater                  // WaterLogging.waiting_for_water
    | WaitingForWorkoutType            // WorkoutLogging.waiting_for_workout_type
    | WaitingForWorkoutDuration        // WorkoutLogging.waiting_for_workout_duration
    | CommitWorkout                    // WorkoutLogging.commit_workout

  /** The FSM data dictionary; a key that was never stored is `None`. */
  datatype Pending = Pending(
    weight: Option<real>,
    height: Option<real>,
    age: Option<int>,
    activity: Option<int>,
    foodName: Option<string>,
    caloriesPer100: Option<real>,
    workoutType: Option<string>,
    workoutDuration: Option<int>)

  /** The data after `state.clear()`: no key stored. */
  const NoPending: Pending := Pending(None, None, None, None, None, None, None, None)

  function SetupStepName(step: SetupStep): string
  {
    match step
    case Weight => "weight"
    case Height => "height"
    case Age => "age"
    case Activity => "activity"
    case City => "city"
  }

  /**
   The raw state string the framework stores, `<Group>:<state>`; a cleared
   state has none.
   */
  function RawState(phase: Phase): Option<string>
  {
    match phase
    case Idle => None
    case ProfileSetup(step) => Some("ProfileSetup:" + SetupStepName(step))
    case WaitingForWeight => Some("FoodLogging:waiting_for_weight")
    case WaitingForFoodName => Some("FoodLogging:waiting_for_food_name")
    case WaitingForWater => Some("WaterLogging:waiting_for_water")
    case WaitingForWorkoutType => Some("WorkoutLogging:waiting_for_workout_type")
    case WaitingForWorkoutDuration => Some("WorkoutLogging:waiting_for_workout_duration")
    case CommitWorkout => Some("WorkoutLogging:commit_workout")
  }

  predicate StartsWith(s: string, prefix: string)
  {
    |prefix| <= |s| && s[..|prefix|] == prefix
  }

  /** The raw state names the `ProfileSetup` prefix exactly for the setup steps. */
  lemma RawStateSetupPrefix(phase: Phase)
    ensures (RawState(phase).Some? && StartsWith(RawState(phase).value, "ProfileSetup"))
            <==> phase.ProfileSetup?
  {
    match phase
    case ProfileSetup(step) =>
      assert RawState(phase).value[..12] == "ProfileSetup";
    case Idle =>
    case _ =>
      assert RawState(phase).value[0] != 'P';
  }
}
