# Workout tracker, modelled in Dafny

A model of the core of a small in-memory fitness-logging library. It has two parts.

- **Exercises** (`exercises.dfy`, module `Exercises`). The four exercise classes are one tagged union `ExerciseData`:
  - `Plain` is the base `Exercise`;
  - `Cardio` stores distance and duration;
  - `Strength` stores weight, reps and sets;
  - `Flexibility` stores duration and an intensity label.

  The type `Exercise` holds the values the constructors can produce: a flexibility intensity is always a key of the multiplier table `{"low": 1.0, "medium": 1.5, "high": 2.0}`. Each class's constructor is a function:
  - `NewExercise`, `NewCardio` and `NewStrength` always succeed;
  - `NewFlexibility` lower-cases the label and returns `Err(ValueError(...))`, with the source's message, exactly when the lower-cased label is not a key.

  `Calories` and `Duration` are the per-class formulas:
  - base: 0 calories and 0 minutes;
  - cardio: `distance * 100` calories and the stored duration;
  - strength: `weight * reps * sets * 0.05` calories and `sets * 3` minutes;
  - flexibility: `duration * 2.5 * multiplier` calories and the stored duration.

  No numeric field is range-checked. Zero and negative values pass straight through the formulas, as in the source.

  `Render` is each class's `__str__`: `RenderParts` lists the pieces of its f-string and `Concat` lays them end to end. Floats are printed by a formatter given as a parameter, in the style each class uses (the integer reps and sets are printed by `IntText`, which the model defines as plain decimal text with a leading `-` for negatives):
  - `{x}` for the raw float;
  - `{x:.0f}` for the strength calories;
  - `{x:0f}` for the flexibility calories. This is six decimal places, not a rounded value.
- **Workout** (`workout.dfy`, module `Workouts`). Class `Workout` holds its exercises in a `seq` field.
  - `AddExercise` appends an exercise, or refuses any other `Value` with `TypeError` and leaves the sequence as it was.
  - `GetExercises` returns a fresh array copy.
  - `TotalCalories` and `TotalDuration` are `SumOf` over the sequence. `ExerciseCount` and `Length` give the count.
  - `GetSummary` builds the summary lines in a loop and joins them with `"\n"`.
  - `Describe` is the one-line `__str__`.

  `Split` reads a text back as lines. It lets the summary's line structure be stated about the text itself.

The clock and Python's float-to-text conversion are parameters:
- constructors take `today`, the date used when none is given;
- rendering takes `fmt: (real, FloatFormat) -> string`.

## Model

| member | source | states |
|---|---|---|
| `Exercises.NewExercise` | src/workout_tracker/exercises.py:14-47 | the base exercise stores the name, keeps a given date verbatim (today's date otherwise), and has 0 calories and 0 minutes |
| `Exercises.NewCardio` | src/workout_tracker/exercises.py:64-93 | any distance and duration are accepted; calories are `distance * 100` and the duration is the stored one |
| `Exercises.NewStrength` | src/workout_tracker/exercises.py:111-126 | any weight, reps and sets are accepted; calories are `weight * reps * sets * 0.05` and the duration is `3 * sets` |
| `Exercises.NewFlexibility` | src/workout_tracker/exercises.py:147-165 | succeeds iff the lower-cased label is a key of the multiplier table, else `ValueError` with the source's message; on success the stored intensity is that key, calories are `duration * 2.5 * multiplier` and the duration is the stored one |
| `Exercises.ToLower` | src/workout_tracker/exercises.py:152 | lower-casing keeps the length and maps each ASCII upper-case letter to its lower-case letter, leaving every other character alone |
| `Exercises.StrengthZeroFactor` | src/workout_tracker/exercises.py:122 | a strength exercise with zero weight, zero reps or zero sets burns 0 calories |
| `Exercises.StrengthDurationOnlySets` | src/workout_tracker/exercises.py:124-126 | two strength exercises with the same sets have the same duration, whatever their weight and reps |
| `Exercises.FlexibilityCaseInsensitive` | src/workout_tracker/exercises.py:152-156 | two labels with the same lower-cased form give the same construction result |
| `Exercises.FlexibilityCaloriesByLevel` | src/workout_tracker/exercises.py:141-165 | low, medium and high (in any case) give `duration * 2.5`, `* 3.75` and `* 5.0` calories; any accepted label lower-cases to one of the three |
| `Exercises.FlexibilityDefaultIntensity` | src/workout_tracker/exercises.py:147-165 | the default label "medium" is accepted and gives `duration * 3.75` calories |
| `Exercises.FlexibilityLabelExamples` | src/workout_tracker/exercises.py:152-156 | "LOW" and "High" are accepted and stored as "low" and "high"; "extreme" is rejected with `ValueError` |
| `Exercises.ParseNatText` | src/workout_tracker/workout.py:41 | the decimal text of a number, as printed for a line index or a count, reads back as that number |
| `Exercises.RenderShape` | src/workout_tracker/exercises.py:49-177 | every exercise's text (the pieces of its class's `__str__` f-string laid end to end) starts with its name and ends with " calories" |
| `Workouts.Workout.constructor` | src/workout_tracker/workout.py:8-9 | a new workout is empty: count 0, total calories 0, total duration 0 |
| `Workouts.Workout.AddExercise` | src/workout_tracker/workout.py:12-15 | an exercise is appended at the end (new sequence is old + [e]), the count rises by one and each total rises by that exercise's value; any other value gives `TypeError` and leaves the sequence unchanged |
| `Workouts.Workout.GetExercises` | src/workout_tracker/workout.py:18-19 | returns a freshly allocated copy equal to the stored sequence, of length `ExerciseCount()` |
| `Workouts.ChangeCopy` | src/workout_tracker/workout.py:18-19 | writing into the returned copy leaves the workout's exercises unchanged |
| `Workouts.TotalsAreLeftSums` | src/workout_tracker/workout.py:22-27 | total calories and total duration equal Python's `sum` over the exercises, taken from 0 and adding each exercise's value front to back (0 for an empty workout) |
| `Workouts.SumOfIsSumLeft` | src/workout_tracker/workout.py:22-27 | the recursive total used by the model agrees with the front-to-back sum on every sequence |
| `Workouts.SumOfAppend` | src/workout_tracker/workout.py:22-27 | the total over a concatenation is the sum of the totals over its parts |
| `Workouts.SumOfPermutation` | src/workout_tracker/workout.py:22-27 | totals do not depend on the order of the exercises: sequences with the same multiset have the same total |
| `Workouts.LengthIsCount` | src/workout_tracker/workout.py:30-59 | `len(workout)` and `exercise_count()` agree and equal the number of stored exercises |
| `Workouts.Workout.GetSummary` | src/workout_tracker/workout.py:34-48 | an empty workout gives exactly "Empty workout - no exercises added"; otherwise the summary is the header, line `i` = "{i}. " + the i-th exercise's text for i = 1..n, and the totals line, joined with "\n" |
| `Workouts.SplitJoin` | src/workout_tracker/workout.py:48 | joining lines that contain no line break and cutting the text at line breaks gives back the same lines |
| `Workouts.SummaryLineStructure` | src/workout_tracker/workout.py:34-48 | read back as text, a non-empty summary has n + 2 lines: the header, line i opening with the number i followed by ". " and the i-th exercise's text, and a last line starting with "Total: " |
| `Workouts.DescribeCount` | src/workout_tracker/workout.py:51-55 | the one-line description starts with "Workout with ", followed by the count in decimal, which reads back as the number of exercises |
| `Workouts.RunningAndBenchPress` | src/workout_tracker/workout.py:12-31 | running 3.0 miles in 30 minutes, then bench press 100 lbs x 10 reps x 3 sets, gives 450 calories, 39 minutes and a count of 2; adding a non-exercise afterwards changes none of these |

## Left out

- The system clock. When no date is given, the source stores the current local date. The model takes that date as the `today` parameter.
- Python's float-to-text conversion. This covers `{x}`, `{x:.0f}` and `{x:0f}`. It is the parameter `fmt`, and the model does not assume any rounding behaviour.
- IEEE-754 rounding. All quantities are exact `real`s, and `reps` and `sets` are `int`. Two results that are Python ints are modelled as reals of the same value: `sum` over an empty workout returns the integer `0` (the model gives `0.0`), and strength `get_duration` returns the integer `sets * 3` (the model gives that number as a real).
- Full Unicode `str.lower()`. Only ASCII letters are lower-cased. This changes no outcome: the model and the source accept and reject the same labels, with the same `ValueError`. A label holding a non-ASCII character is rejected by both, because no non-ASCII character lower-cases to a string made only of the letters in "low", "medium" and "high" (the Kelvin sign lower-cases to `k`, and the dotted capital I lower-cases to `i` followed by a combining dot).
- Subclasses. `isinstance` accepts an instance of any subclass of `Exercise`. The model's `Value` and `ExerciseData` are a closed union of the four classes in the source, so a user-defined subclass cannot be represented.
- Dynamic typing of the numeric fields. The source accepts any object as a distance, weight, reps or sets. The model fixes their types, so it does not capture a later `TypeError` from the arithmetic.
- Mutation of exercise attributes after construction. Python allows it, for example setting an intensity that is not a key, which makes `calculate_calories` raise `KeyError`. The model's exercises are immutable values that always satisfy the table invariant.
- `main.py` (the interactive prompt loop) and `src/workout_tracker/__init__.py` (re-exports and the version string) are not part of this model.
- Workouts.SummaryLineStructure: the line count is stated only when no exercise name and no printed number contains a line break. In the source, such a character in a name splits that line too.
- Workouts.Workout.Describe: apart from the count, read back by `DescribeCount`, the text of the calorie figure is left to the formatter.
