/**
 The four exercise kinds of the workout tracker (generic, cardio, strength,
 flexibility) as one tagged union, with the per-kind calorie and duration
 formulas, the validating flexibility constructor and the one-line rendering.
 */
module Exercises {

  /** An optional argument, as Python's `None` default. */
  datatype Option<+T> = None | Some(value: T)

  /** The exceptions the core raises, with the messages the source gives them. */
  datatype Error = ValueError(message: string) | TypeError(message: string)

  datatype Result<+T> = Ok(value: T) | Err(error: Error)

  const IntensityError: string := "Intensity must be 'low', 'medium', or 'high'"

  /** The class-level table of flexibility intensity multipliers. */
  const IntensityMultipliers: map<string, real> :=
    map["low" := 1.0, "medium" := 1.5, "high" := 2.0]

  const DefaultIntensity: string := "medium"

  // ---------------------------------------------------------------------------
  // ASCII lower-casing (the part of `str.lower` the intensity check relies on)

  predicate IsUpper(c: char) { 'A' <= c <= 'Z' }

  function LowerChar(c: char): (d: char)
    ensures !IsUpper(d)
    ensures IsUpper(c) ==> d as int == c as int + 32
    ensures !IsUpper(c) ==> d == c
  {
    if IsUpper(c) then (c as int + 32) as char else c
  }

  function ToLower(s: string): (r: string)
    ensures |r| == |s|
    ensures forall i :: 0 <= i < |s| ==> r[i] == LowerChar(s[i])
  {
    if s == [] then [] else [LowerChar(s[0])] + ToLower(s[1..])
  }

  // ---------------------------------------------------------------------------
  // Decimal text of integers (Python's `str(int)` / f-string `{n}`)

  function DigitChar(d: nat): (c: char)
    requires d < 10
    ensures '0' <= c <= '9'
  {
    ('0' as int + d) as char
  }

  function DigitValue(c: char): nat
  {
    if '0' <= c <= '9' then c as int - '0' as int else 0
  }

  function NatText(n: nat): (r: string)
    ensures |r| > 0
    ensures forall i :: 0 <= i < |r| ==> '0' <= r[i] <= '9'
  {
    if n < 10 then [DigitChar(n)] else NatText(n / 10) + [DigitChar(n % 10)]
  }

  function IntText(n: int): (r: string)
    ensures |r| > 0
  {
    if n < 0 then "-" + NatText(-n) else NatText(n)
  }

  /** Reads a string of decimal digits back as a number. */
  function ParseNat(s: string): nat
  {
    if s == [] then 0 else 10 * ParseNat(s[..|s| - 1]) + DigitValue(s[|s| - 1])
  }

  /** The decimal text of `n` reads back as `n`: distinct numbers get distinct text. */
  lemma {:induction false} ParseNatText(n: nat)
    ensures ParseNat(NatText(n)) == n
  {
    var t := NatText(n);
    if n >= 10 {
      ParseNatText(n / 10);
      assert t[..|t| - 1] == NatText(n / 10);
    }
  }

  // ---------------------------------------------------------------------------
  // Exercises

  /**
   The stored fields of each exercise class. `Plain` is the base `Exercise`
   class used directly. Reals model Python floats; `reps` and `sets` are ints.
   */
  datatype ExerciseData =
    | Plain(name: string, date: string)
    | Cardio(name: string, date: string, distance: real, duration: real)
    | Strength(name: string, date: string, weight: real, reps: int, sets: int)
    | Flexibility(name: string, date: string, duration: real, intensity: string)
  {
    /** What every constructed exercise satisfies: a flexibility intensity is a table key. */
    predicate WellFormed() {
      Flexibility? ==> intensity in IntensityMultipliers
    }
  }

  /** Exercises as the constructors produce them. */
  type Exercise = e: ExerciseData | e.WellFormed() witness Plain("", "")

  /** The date an exercise keeps: the given one verbatim, otherwise today's date. */
  function StoredDate(date: Option<string>, today: string): string
  {
    match date
    case Some(d) => d
    case None => today
  }

  function Calories(e: Exercise): real
  {
    match e
    case Plain(_, _) => 0.0
    case Cardio(_, _, distance, _) => distance * 100.0
    case Strength(_, _, weight, reps, sets) => weight * reps as real * sets as real * 0.05
    case Flexibility(_, _, duration, intensity) =>
      duration * 2.5 * IntensityMultipliers[intensity]
  }

  /** Minutes: stored for cardio and flexibility, derived from the sets for strength. */
  function Duration(e: Exercise): real
  {
    match e
    case Plain(_, _) => 0.0
    case Cardio(_, _, _, duration) => duration
    case Strength(_, _, _, _, sets) => (sets * 3) as real
    case Flexibility(_, _, duration, _) => duration
  }

  /** The base class: no calories, no minutes. */
  function NewExercise(name: string, date: Option<string>, today: string): (e: Exercise)
    ensures e.name == name && e.date == StoredDate(date, today)
    ensures date.Some? ==> e.date == date.value
    ensures Calories(e) == 0.0 && Duration(e) == 0.0
  {
    Plain(name, StoredDate(date, today))
  }

  /** Any distance and duration, zero or negative included, is accepted. */
  function NewCardio(name: string, distance: real, duration: real, date: Option<string>, today: string): (e: Exercise)
    ensures e.Cardio? && e.name == name && e.date == StoredDate(date, today)
    ensures e.distance == distance
    ensures Calories(e) == distance * 100.0
    ensures Duration(e) == duration
  {
    Cardio(name, StoredDate(date, today), distance, duration)
  }

  /** Any weight, reps and sets are accepted; the duration is three minutes per set. */
  function NewStrength(name: string, weight: real, reps: int, sets: int, date: Option<string>, today: string): (e: Exercise)
    ensures e.Strength? && e.name == name && e.date == StoredDate(date, today)
    ensures e.weight == weight && e.reps == reps && e.sets == sets
    ensures Calories(e) == weight * reps as real * sets as real * 0.05
    ensures Duration(e) == 3.0 * sets as real
  {
    Strength(name, StoredDate(date, today), weight, reps, sets)
  }

  /**
   The validating constructor: the label is lower-cased and the construction
   fails with a `ValueError` exactly when the lower-cased label is not a key of
   the multiplier table. On success the stored intensity is that key.
   */
  function NewFlexibility(name: string, duration: real, intensity: string, date: Option<string>, today: string): (r: Result<Exercise>)
    ensures r.Ok? <==> ToLower(intensity) in IntensityMultipliers
    ensures r.Err? ==> r.error == ValueError(IntensityError)
    ensures r.Ok? ==> r.value.Flexibility? && r.value.intensity == ToLower(intensity)
    ensures r.Ok? ==> r.value.intensity in IntensityMultipliers
    ensures r.Ok? ==> r.value.name == name && r.value.date == StoredDate(date, today)
    ensures r.Ok? ==> Calories(r.value) == duration * 2.5 * IntensityMultipliers[ToLower(intensity)]
    ensures r.Ok? ==> Duration(r.value) == duration
  {
    var level := ToLower(intensity);
    if level !in IntensityMultipliers then Err(ValueError(IntensityError))
    else Ok(Flexibility(name, StoredDate(date, today), duration, level))
  }

  // ---------------------------------------------------------------------------
  // Properties of the formulas

  /** A strength exercise burns nothing when any of weight, reps or sets is zero. */
  lemma StrengthZeroFactor(e: Exercise)
    requires e.Strength? && (e.weight == 0.0 || e.reps == 0 || e.sets == 0)
    ensures Calories(e) == 0.0
  {
  }

  /** Strength duration depends on the sets alone, never on weight or reps. */
  lemma StrengthDurationOnlySets(e1: Exercise, e2: Exercise)
    requires e1.Strength? && e2.Strength? && e1.sets == e2.sets
    ensures Duration(e1) == Duration(e2)
  {
  }

  /** Construction depends on the label only through its lower-cased form. */
  lemma FlexibilityCaseInsensitive(name: string, duration: real, a: string, b: string, date: Option<string>, today: string)
    requires ToLower(a) == ToLower(b)
    ensures NewFlexibility(name, duration, a, date, today) == NewFlexibility(name, duration, b, date, today)
  {
  }

  /** The multipliers by label: low 1.0, medium 1.5, high 2.0, and no other label. */
  lemma FlexibilityCaloriesByLevel(name: string, duration: real, intensity: string, date: Option<string>, today: string)
    ensures var r := NewFlexibility(name, duration, intensity, date, today);
      && (ToLower(intensity) == "low" ==> r.Ok? && Calories(r.value) == duration * 2.5)
      && (ToLower(intensity) == "medium" ==> r.Ok? && Calories(r.value) == duration * 3.75)
      && (ToLower(intensity) == "high" ==> r.Ok? && Calories(r.value) == duration * 5.0)
      && (r.Ok? ==> ToLower(intensity) in {"low", "medium", "high"})
  {
  }

  /** With the default intensity, calories are `duration * 3.75`. */
  lemma FlexibilityDefaultIntensity(name: string, duration: real, date: Option<string>, today: string)
    ensures NewFlexibility(name, duration, DefaultIntensity, date, today).Ok?
    ensures Calories(NewFlexibility(name, duration, DefaultIntensity, date, today).value) == duration * 3.75
  {
    assert ToLower(DefaultIntensity) == "medium";
  }

  /** "LOW" and "High" are accepted and normalised; "extreme" is rejected. */
  lemma FlexibilityLabelExamples(name: string, duration: real, date: Option<string>, today: string)
    ensures NewFlexibility(name, duration, "LOW", date, today).Ok?
    ensures NewFlexibility(name, duration, "LOW", date, today).value.intensity == "low"
    ensures NewFlexibility(name, duration, "High", date, today).Ok?
    ensures NewFlexibility(name, duration, "High", date, today).value.intensity == "high"
    ensures NewFlexibility(name, duration, "extreme", date, today) == Err(ValueError(IntensityError))
  {
    LowerOf("LOW", "low");
    LowerOf("High", "high");
    LowerOf("extreme", "extreme");
  }

  /** `ToLower(s) == t` follows from a character-by-character comparison. */
  lemma LowerOf(s: string, t: string)
    requires |s| == |t| && forall i :: 0 <= i < |s| ==> LowerChar(s[i]) == t[i]
    ensures ToLower(s) == t
  {
  }

  // ---------------------------------------------------------------------------
  // One-line rendering (`__str__`)

  /** How Python prints a float: `{x}` (Repr), `{x:.0f}` (Fixed(0)), `{x:0f}` (Fixed(6)). */
  datatype FloatFormat = Repr | Fixed(places: nat)

  /** Python's float-to-text conversion, which this model does not define. */
  type Formatter = (real, FloatFormat) -> string

  /** The pieces of each exercise class's `__str__` f-string, in order, numbers printed by `fmt`. */
  function RenderParts(e: Exercise, fmt: Formatter): seq<string>
  {
    var cal := Calories(e);
    match e
    case Plain(name, _) => [name, ": ", fmt(cal, Repr), " calories"]
    case Cardio(name, _, distance, duration) =>
      [name, " (", fmt(distance, Repr), " miles, ", fmt(duration, Repr), " min): ",
       fmt(cal, Repr), " calories"]
    case Strength(name, _, weight, reps, sets) =>
      [name, " (", fmt(weight, Repr), " lbs x ", IntText(reps), " reps x ",
       IntText(sets), " sets): ", fmt(cal, Fixed(0)), " calories"]
    case Flexibility(name, _, duration, intensity) =>
      [name, " (", fmt(duration, Repr), " min, ", intensity, " intensity): ",
       fmt(cal, Fixed(6)), " calories"]
  }

  /** Strings laid end to end. */
  function Concat(parts: seq<string>): string
  {
    if parts == [] then "" else Concat(parts[..|parts| - 1]) + parts[|parts| - 1]
  }

  /** The text of an exercise (`__str__`). */
  function Render(e: Exercise, fmt: Formatter): string
  {
    Concat(RenderParts(e, fmt))
  }

  lemma {:induction false} ConcatStartsWith(parts: seq<string>)
    requires parts != []
    ensures |Concat(parts)| >= |parts[0]| && Concat(parts)[..|parts[0]|] == parts[0]
  {
    if |parts| > 1 {
      var init := parts[..|parts| - 1];
      ConcatStartsWith(init);
      assert init[0] == parts[0];
      assert Concat(parts) == Concat(init) + parts[|parts| - 1];
    } else {
      assert parts[..0] == [];
    }
  }

  /** Every exercise's text starts with its name and ends with " calories". */
  lemma RenderShape(e: Exercise, fmt: Formatter)
    ensures var r := Render(e, fmt);
      && |r| >= |e.name| && r[..|e.name|] == e.name
      && |r| >= 9 && r[|r| - 9..] == " calories"
  {
    var parts := RenderParts(e, fmt);
    ConcatStartsWith(parts);
    assert Concat(parts) == Concat(parts[..|parts| - 1]) + " calories";
  }
}
