# Fitness bot core, modelled in Dafny

This project models the domain logic of a Telegram fitness-tracking bot. It
leaves out the messaging framework and works only with typed records and
pure functions:

- **Goal arithmetic and the daily record** (`models.dfy`, module `Models`).
  This covers the water and calorie goal formulas, the workout calorie table,
  and `get_current_stats`, which creates today's `DailyStats` on first use
  with a 20 °C fallback when the weather lookup fails. It also covers
  `update_daily_goals`, which overwrites both goals and the stored
  temperature. These last two are mutually recursive, as in the source.
- **The conversation state machine** (`states.dfy`, `handlers.dfy`, modules
  `States` and `Handlers`). Each handler is a transition over a `Session`:
  the user's FSM state (`Phase`), the FSM data (`Pending`) and the registry
  of profiles. The transition returns the new session and a `Reply` tag that
  carries the reported figures.
- **The access guard** (`middlewares.dfy`, module `Middlewares`). This is
  the predicate that decides whether a message reaches a handler.
- **Dispatch** (`dispatch.dfy`). Commands reach their handler in every
  state, and plain text reaches the handler registered for the current
  state. `bot.py` registers the guard as an inner middleware, so it runs
  only once some handler's filter has matched. Plain text with no state
  (or in the commit state) matches nothing and is dropped without a reply,
  even for a user without a profile. `Run` replays a conversation.
- **Invariants** (`invariants.dfy`). Every delivered message keeps a session
  `Consistent`. In a consistent session, the FSM data holds everything the
  current state's handler reads. Every stored day has goals that match its
  profile and its stored temperature. Its calorie totals equal the sums of
  its food and workout logs.
- **Flows and examples** (`flows.dfy`, `scenarios.dfy`). These cover
  multi-step properties and concrete figures.

Handlers take their outside inputs as parameters: weather answers
(`Option<real>`), food-search answers (`FoodLookup`), parsed numbers
(`Option<real>`/`Option<int>`, where `None` means `float()`/`int()` failed),
today's date and the entry timestamp.

Python floats are modelled as exact reals. Floor division by 30 is written
as Dafny's `/`, which gives the same result because the divisor is positive.

A Python exception that the handler does not catch becomes the reply
`Unhandled`. The session it returns is the state at the point of the raise.

The model keeps these behaviours of the code as written:

- The water reply handler clears the state before it validates the amount.
- A failed city lookup leaves the user at the city step.
- `process_city` asks the weather twice. The first answer only checks the
  city. The second answer seeds the goals, and if it fails the goals are
  seeded for 20 °C.
- Age, activity and duration accept negative integers.
- Weight, height, water amounts and grams accept any parsed number, zero and
  negatives included, so `/log_water -500` lowers the logged water.
- Setting up the profile again drops the logs already recorded for the day.
- The progress check's temperature-change notice can never fire, because it
  compares the temperature after the refresh has already stored it.

Two behaviours of the code differ from what the bot is evidently meant
to do; the model follows the code:

- Age and activity accept negative numbers, although only non-negative
  ones make sense.
- The progress notice, meant for a change of more than 5 degrees, never
  fires.

## Model

| member | source | states |
|---|---|---|
| States.RawStateSetupPrefix | states.py:5-29 | A stored state name starts with `ProfileSetup` exactly when the state is one of the five setup steps. |
| Models.CurrentStats | models.py:44-58 | Today's record exists afterwards. An existing record is returned unchanged and no lookup is made. A new record has zero totals, empty logs, temperature = the lookup's answer or 20, and goals computed by the formulas at that temperature. No other date and no profile attribute changes. |
| Models.UpdateDailyGoals | models.py:71-75 | Sets the temperature to t and both goals to the formulas at t. Touches no other field of today's record, no other date and no profile attribute. A missing day is first created fresh: dated today, zero totals, empty logs. |
| Models.HotBonusThreshold | models.py:60-64 | The 500 ml bonus needs a temperature strictly above 25. At 25 the goal equals the cold-day goal. |
| Models.WaterGoalMonotone | models.py:60-64 | The water goal never decreases as the temperature rises. |
| Models.WaterGoalSpread | models.py:63 | Goals at any two temperatures differ by 0 or ±500 ml. |
| Models.WaterGoalActivityBlocks | models.py:62 | For any activity value, negative ones included, 30 more minutes add exactly 500 ml, and one more minute adds nothing unless it completes a block of 30. |
| Models.UpdateDailyGoalsIdempotent | models.py:71-75 | Refreshing twice with the same temperature gives the same profile as refreshing once. |
| Models.CalorieGoalIgnoresTemperature | models.py:66-69 | The calorie goal after a refresh does not depend on the temperature. |
| Models.CurrentStatsStable | models.py:46 | A second lookup on the same day returns the same record and profile, whatever the weather answers. |
| Models.NewDayGoals | models.py:49-56 | A new record's temperature and water goal use the lookup's answer, or 20 °C when the lookup fails. The calorie goal is the formula. |
| Handlers.Start | handlers.py:18-29 | `/start` answers with the greeting and changes nothing. |
| Handlers.Help | handlers.py:32-41 | `/help` answers with the command list and changes nothing. |
| Handlers.SetProfile | handlers.py:44-47 | `/set_profile` moves to the weight step and keeps the FSM data and profiles. |
| Handlers.ProcessWeight | handlers.py:50-58 | A parse failure leaves the session unchanged. A parsed weight is stored and the user moves to the height step. |
| Handlers.ProcessHeight | handlers.py:61-69 | A parse failure leaves the session unchanged. A parsed height is stored and the user moves to the age step. |
| Handlers.ProcessAge | handlers.py:72-80 | A parse failure leaves the session unchanged. Any parsed integer, negative ones included, is stored and the user moves to the activity step. |
| Handlers.ProcessActivity | handlers.py:83-91 | A parse failure leaves the session unchanged. A parsed integer is stored and the user moves to the city step. |
| Handlers.ProcessCity | handlers.py:94-129 | No temperature: the session is unchanged and the user stays at the city step. Missing setup data raises. On success the collected profile replaces the old one with only a freshly seeded record for today, the state is cleared, and the seeded goals are reported. Other users are untouched. |
| Handlers.LogWater | handlers.py:132-153 | No argument: the user waits for the amount. Otherwise the amount is added to today's water and nothing else changes. The remaining amount reported is max(0, goal − logged). A bad number only creates the day record. A missing profile raises. |
| Handlers.ProcessWaterLogging | handlers.py:156-159 | Runs `/log_water` on the cleared session. Any non-empty text ends with no state, and an invalid number leaves existing totals unchanged. |
| Handlers.LogFood | handlers.py:162-203 | No argument: the user waits for the name. Not found, a lookup error (with its detail and suggestion) or unreadable calories leave the session unchanged, each with its own reply. A hit stores name and kcal/100 g and moves to the grams step. |
| Handlers.ProcessFoodName | handlers.py:206-209 | Clears, then runs `/log_food`. Empty text waits for a name again. The user ends at the grams step exactly when the search found usable calories, holding only that food's name and kcal/100 g as FSM data. Every miss ends with no state and empty FSM data, with the same reply `/log_food` gives: not found, the lookup error with its suggestion, or unreadable calories. |
| Handlers.FoodCalories | handlers.py:217 | kcal·100 = per100·grams, so it is proportional to the weight: 0 for 0 g, per100 for 100 g, non-negative for non-negative inputs. |
| Handlers.ProcessFoodWeight | handlers.py:212-236 | Invalid grams leave the session unchanged. With a missing food name the calories are added and then it raises, with no log entry. On success exactly per100·grams/100 is added to today's calories, exactly one entry is appended to the food log, every other field is kept, and the state is cleared. |
| Handlers.WorkoutTypesListed | handlers.py:239-246 | The types listed to the user are exactly the types the validation accepts. |
| Handlers.ProcessWorkoutType | handlers.py:249-256 | An unknown type leaves the session unchanged and lists the types. A known type is stored and the user moves to the duration step. |
| Handlers.BurnedCalories | models.py:13-19 | Per minute: run 10, walk 5, jump 8, tennis 14, football 12 kcal. A non-negative duration burns a non-negative amount. |
| Handlers.WorkoutWater | handlers.py:304 | The advice is a multiple of 200 ml, k·200 with k·30 ≤ duration < (k+1)·30 for any duration: 200 ml per complete half hour, rounded down. |
| Handlers.CommitWorkoutEntry | handlers.py:297-322 | rate·duration is added to burned calories and one workout entry is appended. Logged water is unchanged. (duration div 30)·200 ml is reported and the state is cleared. With a profile, an unknown type or missing data only creates today's record, and replies with the failure or raises. |
| Handlers.LogWorkout | handlers.py:272-295 | Outside the commit state it asks only for what is missing. An inline known type is stored, an unknown one leaves the session unchanged, and with both values present nothing happens. In the commit state it commits. |
| Handlers.ProcessWorkoutDuration | handlers.py:259-269 | A parse failure leaves the session unchanged. A parsed integer is stored and the commit runs. |
| Handlers.Report | handlers.py:342-353 | Remaining water is max(0, goal − drunk): it is ≥ 0, ≥ goal − drunk, and one of the two. Balance + calorie goal + burned = consumed. |
| Handlers.TemperatureNotice | handlers.py:335-340 | A notice is produced exactly when the two temperatures differ by more than 5. It says increased only for a rise and decreased only for a fall. |
| Handlers.CheckProgress | handlers.py:325-353 | With a temperature, today's goals and temperature are refreshed. Without one, the record is as looked up. The report is that of the stored record. FSM state and other users are untouched. |
| Middlewares.StartsWithAnyMeans | middlewares.py:14 | The prefix test holds exactly when some allowed command is a prefix of the text. |
| Middlewares.OnboardingPasses | middlewares.py:11-14 | Text starting with `/set_profile`, `/start` or `/help` always passes. |
| Middlewares.PrefixNotWholeCommand | middlewares.py:14 | `/helpme` passes, because the test is a prefix test. |
| Middlewares.SetupPasses | middlewares.py:15-19 | Any message sent during profile setup passes, with or without a profile. |
| Middlewares.BlockedExactly | middlewares.py:13-25 | Outside setup, a message is blocked exactly when it starts with no allowed command and there is no profile. |
| Dispatch.Deliver | middlewares.py:13-25 | A message no handler matches is dropped without a reply. A matched message the guard blocks leaves the session unchanged and gets only the setup prompt. A message the guard admits (onboarding prefix, setup state or profile) runs its handler. |
| Dispatch.CommandsNeedProfile | middlewares.py:21-23 | Without a profile and outside setup, the water, food, workout and progress commands only get the setup prompt. |
| Dispatch.SetProfileAlwaysStarts | handlers.py:44-47 | `/set_profile` reaches its handler in every state, with or without a profile. |
| Invariants.FoodTotalAppend | handlers.py:221-227 | Appending a food entry adds exactly its calories to the log's total. |
| Invariants.WorkoutTotalAppend | handlers.py:306-312 | Appending a workout entry adds exactly its calories to the log's total. |
| Invariants.CurrentStatsConsistent | models.py:44-58 | Creating today's record keeps every day's goals consistent with the profile and temperature, and keeps its totals equal to its logs. |
| Invariants.UpdateDailyGoalsConsistent | models.py:71-75 | The goal refresh keeps every day consistent. |
| Invariants.ProcessCityPreserves | handlers.py:94-129 | In a consistent session at the city step, the handler never raises and the session stays consistent. |
| Invariants.LogWaterPreserves | handlers.py:132-153 | Water logging keeps the session consistent. |
| Invariants.ProcessFoodWeightPreserves | handlers.py:212-236 | At the grams step, food logging raises only for a missing profile and keeps the session consistent. |
| Invariants.CommitWorkoutPreserves | handlers.py:297-318 | At the commit step with a profile, the workout is always logged and the session stays consistent. |
| Invariants.CheckProgressPreserves | handlers.py:325-333 | The progress check keeps the session consistent. |
| Invariants.ApplyPreserves | handlers.py:44-353 | Every handler keeps the session consistent. |
| Invariants.DeliverPreserves | middlewares.py:13-25 | Every delivered message, blocked or not, keeps the session consistent. |
| Invariants.RunPreserves | handlers.py:44-353 | Any conversation from a consistent session ends consistent. |
| Invariants.InitialConsistent | states.py:3 | The empty registry with no state is consistent. |
| Invariants.ProgressMatchesLogs | handlers.py:342-351 | In a consistent session, the reported consumed and burned figures are the totals of today's logs. Balance = food total − calorie goal − workout total. |
| Flows.WaterLogsCommute | handlers.py:144-146 | Two inline water logs commute: either order leaves the same session. |
| Flows.WaterLogsAccumulate | handlers.py:144-146 | A sequence of water logs adds exactly the sum of the amounts and leaves the FSM state alone. |
| Flows.RepeatedLogsSum | handlers.py:144-146 | n logs of 100 ml on a new day total exactly n·100 ml. |
| Flows.SetupFlow | handlers.py:44-129 | `/set_profile` followed by the five answers stores exactly the answered profile with a seeded record for today, ends with no state, and reports the formula goals. |
| Flows.CityFailureRetries | handlers.py:109-129 | A failed city lookup keeps the session, so the user can retry at the city step. |
| Flows.ResetupDropsProgress | handlers.py:100-115 | Setting up the profile again starts the day with zero water and empty logs. |
| Flows.FoodFlow | handlers.py:162-236 | A found food followed by its grams appends one entry and adds per100·grams/100 kcal. Water and burned calories are unchanged and the flow ends with no state. |
| Flows.WorkoutFlow | handlers.py:259-318 | `/log_workout <type>` then a duration logs one entry, adds rate·duration and advises (duration div 30)·200 ml. Water is unchanged and the flow ends with no state. |
| Flows.UnknownWorkoutTypeStays | handlers.py:239-256 | An unknown type, inline or as a reply, leaves the session unchanged. |
| Flows.NoticeNeverFires | handlers.py:331-340 | The temperature-change notice never fires, because the comparison runs after the refresh. |
| Flows.CheckProgressIdempotent | handlers.py:325-335 | A second progress check with the same weather answers changes nothing. |
| Scenarios.WaterGoalExample | models.py:60-64 | 70 kg with 45 active minutes needs 3100 ml at 30 °C and 2600 ml at 25 °C. |
| Scenarios.CalorieGoalExample | models.py:66-69 | 70 kg, 175 cm, 30 years and 60 minutes give 1883.75 kcal. |
| Scenarios.FoodCaloriesExample | handlers.py:217 | 150 g at 52 kcal/100 g is 78 kcal. |
| Scenarios.RunExample | handlers.py:303-304 | 45 minutes of running burns 450 kcal and advises 200 ml. |
| Scenarios.WaterOrderExample | handlers.py:146 | 300 ml then 200 ml totals 500 ml, in either order. |
| Scenarios.SwimExample | handlers.py:249-252 | "swim" leaves the user waiting for a type and lists the five types. |
| Scenarios.NoProfileExample | middlewares.py:21-23 | Without a profile, `/log_water 500` only gets the setup prompt, while `/set_profile` starts the setup. |
| Scenarios.StrayTextExample | bot.py:14 | Without a profile and with no state, "hello" matches no handler, so the guard never runs: no prompt and no change. |
| Scenarios.OnboardingRunsHandlers | middlewares.py:13-19 | `/start` and `/help` reach their handlers in every state, with or without a profile. |

## Left out

- external_api.py: the HTTP calls to the weather and food services. Only
  their answers are modelled, as `Option<real>` and `FoodLookup` inputs. A
  network exception (as opposed to a `None` answer) is not modelled.
- logger.py, bot.py and config.py hold logging, bootstrap and environment
  settings, with no domain logic. `LoggingMiddleware` only logs. The one
  fact taken from bot.py is that the guard is an inner middleware, which
  `Dispatch.Deliver` models.
- The framework's handler precedence. A command received in a waiting state
  is handled by whichever matching handler was registered first. In the
  model, commands reach their own handler in every state and plain text
  reaches the current state's handler. The framework's FSM storage is modelled by
  `Phase` and `Pending`.
- The `HistoryPeriod` state group: it is declared but no handler uses it.
- The grammar of Python's `float()` and `int()` is not modelled. Parsing is
  an input `Option`, so NaN and infinity are not modelled either.
- Floating-point rounding: arithmetic is exact over the reals.
- Non-text messages (`message.text` is `None`) are not modelled. Text is a
  string, and an empty string stands for a missing command argument.
- Reply wording and number formatting are not modelled. A formatting error
  while replying to a found food (`:.1f` on a non-number, after the state
  was already set) is not modelled either.
- The clock: today's date and entry timestamps are inputs.
- Concurrency: the source has no per-user locking, and the model is
  sequential.
- The guard's test of the state object against the `ProfileSetup` class is
  always false, because the object is the FSM context. Only the raw state
  name is modelled.
- Handlers.ProcessWaterLogging: for a valid amount, its own contract states
  only the clearing. The added water is stated by `Handlers.LogWater`,
  which it is equal to.
