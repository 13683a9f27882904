/**
 How a user's message reaches the handlers. A message first needs a
 handler whose filter matches: a command handler (commands match in every
 state) or the handler registered for the user's current state. Only then
 does the access guard run, as an inner middleware, before that handler.
 A conversation is a sequence of such deliveries.
 */
module Dispatch {
  import opened Wrappers
  import opened States
  import opened Models
  import opened Handlers
  import opened Middlewares

  /** A message's text with the numbers it parses as (`float()` and `int()`, abstracted). */
  datatype Message = Message(text: string, asReal: Option<real>, asInt: Option<int>)

  /**
   What the outside world answers while one message is handled: today's
   date, the entry timestamp, the weather lookup (and a second lookup where
   a handler asks twice), and the food search.
   */
  datatype World = World(today: Date, stamp: Timestamp, weather: Option<real>, weatherAgain: Option<real>, food: FoodLookup)

  /**
   One incoming message. The seven commands have their own constructors;
   `Text` carries only text that is none of them (the model does not parse
   command text out of plain messages).
   */
  datatype Event =
    | StartCmd
    | HelpCmd
    | SetProfileCmd
    | LogWaterCmd(args: Message)
    | LogFoodCmd(args: Message)
    | LogWorkoutCmd(args: Message)
    | CheckProgressCmd
    | Text(msg: Message)

  function CommandText(command: string, args: string): string
  {
    if args == "" then command else command + " " + args
  }

  /** The message text the access guard sees. */
  function EventText(e: Event): string
  {
    match e
    case StartCmd => "/start"
    case HelpCmd => "/help"
    case SetProfileCmd => "/set_profile"
    case LogWaterCmd(m) => CommandText("/log_water", m.text)
    case LogFoodCmd(m) => CommandText("/log_food", m.text)
    case LogWorkoutCmd(m) => CommandText("/log_workout", m.text)
    case CheckProgressCmd => "/check_progress"
    case Text(m) => m.text
  }

  /** The handler an admitted message runs; plain text goes to the handler of the current state, if any. */
  function Apply(s: Session, uid: UserId, e: Event, w: World): Outcome
  {
    match e
    case StartCmd => Start(s)
    case HelpCmd => Help(s)
    case SetProfileCmd => SetProfile(s)
    case LogWaterCmd(m) => LogWater(s, uid, w.today, m.text, m.asReal, w.weather)
    case LogFoodCmd(m) => LogFood(s, m.text, w.food)
    case LogWorkoutCmd(m) => LogWorkout(s, uid, w.today, m.text, w.weather, w.stamp)
    case CheckProgressCmd => CheckProgress(s, uid, w.today, w.weather, w.weatherAgain)
    case Text(m) =>
      match s.phase
      case ProfileSetup(Weight) => ProcessWeight(s, m.asReal)
      case ProfileSetup(Height) => ProcessHeight(s, m.asReal)
      case ProfileSetup(Age) => ProcessAge(s, m.asInt)
      case ProfileSetup(Activity) => ProcessActivity(s, m.asInt)
      case ProfileSetup(City) => ProcessCity(s, uid, m.text, w.today, w.weather, w.weatherAgain)
      case WaitingForWater => ProcessWaterLogging(s, uid, w.today, m.text, m.asReal, w.weather)
      case WaitingForFoodName => ProcessFoodName(s, m.text, w.food)
      case WaitingForWeight => ProcessFoodWeight(s, uid, w.today, m.asReal, w.weather, w.stamp)
      case WaitingForWorkoutType => ProcessWorkoutType(s, m.text)
      case WaitingForWorkoutDuration => ProcessWorkoutDuration(s, uid, w.today, m.asInt, w.weather, w.stamp)
      case Idle => Outcome(s, NoReply)
      case CommitWorkout => Outcome(s, NoReply)
  }

  /** Some handler's filter matches: every command does, and plain text does in every state except these two. */
  predicate Matched(phase: Phase, e: Event)
  {
    !(e.Text? && (phase == Idle || phase == CommitWorkout))
  }

  /**
   A matched message passes the guard, then its handler runs; a blocked one
   changes nothing and gets only the setup prompt. An unmatched message
   never reaches the guard and is dropped without a reply.
   */
  function Deliver(s: Session, uid: UserId, e: Event, w: World): (r: Outcome)
    ensures !Matched(s.phase, e) ==> r == Outcome(s, NoReply)
    ensures Matched(s.phase, e) && !Admits(EventText(e), RawState(s.phase), uid in s.users) ==> r == Outcome(s, SetupPrompt)
    ensures Admits(EventText(e), RawState(s.phase), uid in s.users) ==> r == Apply(s, uid, e, w)
    ensures uid in s.users || s.phase.ProfileSetup? ==> r == Apply(s, uid, e, w)
  {
    RawStateSetupPrefix(s.phase);
    if !Matched(s.phase, e) || Admits(EventText(e), RawState(s.phase), uid in s.users) then Apply(s, uid, e, w)
    else Outcome(s, SetupPrompt)
  }

  /** The session after one user's messages, in order. */
  function Run(s: Session, uid: UserId, steps: seq<(Event, World)>): Session
    decreases |steps|
  {
    if steps == [] then s
    else Run(Deliver(s, uid, steps[0].0, steps[0].1).session, uid, steps[1..])
  }

  /** The guard's verdict on the logging commands: a user without a profile gets only the setup prompt. */
  lemma CommandsNeedProfile(s: Session, uid: UserId, e: Event, w: World)
    requires uid !in s.users && !s.phase.ProfileSetup?
    requires e.LogWaterCmd? || e.LogFoodCmd? || e.LogWorkoutCmd? || e.CheckProgressCmd?
    ensures Deliver(s, uid, e, w) == Outcome(s, SetupPrompt)
  {
    var t := EventText(e);
    assert t[1] == 'l' || t[1] == 'c';
    BlockedExactly(t, s.phase, false);
    forall i | 0 <= i < |AllowedCommands|
      ensures !StartsWith(t, AllowedCommands[i])
    {
      assert AllowedCommands[i][1] == 's' || AllowedCommands[i][1] == 'h';
    }
  }

  /** `/set_profile` always reaches its handler and starts the setup. */
  lemma SetProfileAlwaysStarts(s: Session, uid: UserId, w: World)
    ensures Deliver(s, uid, SetProfileCmd, w) == SetProfile(s)
  {
    OnboardingPasses("/set_profile", RawState(s.phase), uid in s.users);
  }
}
