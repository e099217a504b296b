/**
 The workout aggregator: an append-only, ordered collection of exercises with
 sum-based totals, a count, a copying getter and a multi-line summary.
 */
module Workouts {
  import opened Exercises

  /** Whatever a caller hands to `AddExercise`: an exercise or any other value. */
  datatype Value = ExerciseValue(exercise: Exercise) | OtherValue(typeName: string)

  const AddError: string := "Only Exercise objects can be added to workout"
  const EmptySummary: string := "Empty workout - no exercises added"
  const SummaryHeader: string := "--- Workout Summary ---"

  // ---------------------------------------------------------------------------
  // Sums over a sequence of exercises

  function SumOf(s: seq<Exercise>, f: Exercise -> real): real
  {
    if s == [] then 0.0 else f(s[0]) + SumOf(s[1..], f)
  }

  /** Totals are additive: the total of a concatenation is the sum of the totals. */
  lemma {:induction false} SumOfAppend(a: seq<Exercise>, b: seq<Exercise>, f: Exercise -> real)
    ensures SumOf(a + b, f) == SumOf(a, f) + SumOf(b, f)
  {
    if a == [] {
      assert a + b == b;
    } else {
      SumOfAppend(a[1..], b, f);
      assert (a + b)[1..] == a[1..] + b;
      calc {
        SumOf(a + b, f);
        f(a[0]) + SumOf(a[1..] + b, f);
        f(a[0]) + SumOf(a[1..], f) + SumOf(b, f);
        SumOf(a, f) + SumOf(b, f);
      }
    }
  }

  /** Python's `sum(f(x) for x in s)`: start at 0 and add the values from the front. */
  function SumLeft(s: seq<Exercise>, f: Exercise -> real): real
  {
    if s == [] then 0.0 else SumLeft(s[..|s| - 1], f) + f(s[|s| - 1])
  }

  /** `SumOf` agrees with the front-to-back sum on every sequence. */
  lemma {:induction false} SumOfIsSumLeft(s: seq<Exercise>, f: Exercise -> real)
    ensures SumOf(s, f) == SumLeft(s, f)
  {
    if s != [] {
      var init, last := s[..|s| - 1], s[|s| - 1];
      SumOfIsSumLeft(init, f);
      assert s == init + [last];
      SumOfAppend(init, [last], f);
    }
  }

  /** Taking one exercise out of the sequence takes its value out of the total. */
  lemma {:induction false} SumOfRemove(b: seq<Exercise>, i: nat, f: Exercise -> real)
    requires i < |b|
    ensures SumOf(b, f) == f(b[i]) + SumOf(b[..i] + b[i + 1..], f)
  {
    var left, right := b[..i], b[i + 1..];
    var tail := [b[i]] + right;
    assert b == left + tail;
    assert tail[0] == b[i] && tail[1..] == right;
    SumOfAppend(left, tail, f);
    SumOfAppend(left, right, f);
  }

  lemma {:induction false} MultisetRemove(a: seq<Exercise>, b: seq<Exercise>, i: nat)
    requires multiset(a) == multiset(b) && a != [] && i < |b| && b[i] == a[0]
    ensures multiset(a[1..]) == multiset(b[..i] + b[i + 1..])
  {
    assert a == [a[0]] + a[1..];
    assert multiset(a) == multiset([a[0]]) + multiset(a[1..]);
    assert b == b[..i] + [b[i]] + b[i + 1..];
    assert multiset(b) == multiset(b[..i]) + multiset([b[i]]) + multiset(b[i + 1..]);
    assert multiset(b[..i] + b[i + 1..]) == multiset(b[..i]) + multiset(b[i + 1..]);
    assert multiset(a[1..]) == multiset(a) - multiset{a[0]};
    assert multiset(b[..i] + b[i + 1..]) == multiset(b) - multiset{b[i]};
  }

  /** Totals do not depend on the order in which the exercises were added. */
  lemma {:induction false} SumOfPermutation(a: seq<Exercise>, b: seq<Exercise>, f: Exercise -> real)
    requires multiset(a) == multiset(b)
    ensures SumOf(a, f) == SumOf(b, f)
  {
    if a == [] {
      assert b == [] by { assert |multiset(b)| == 0; }
    } else {
      assert a[0] in multiset(b);
      var i :| 0 <= i < |b| && b[i] == a[0];
      MultisetRemove(a, b, i);
      SumOfPermutation(a[1..], b[..i] + b[i + 1..], f);
      SumOfRemove(b, i, f);
    }
  }

  // ---------------------------------------------------------------------------
  // Lines and their joining with "\n"

  /** `"\n".join(lines)` */
  function Join(lines: seq<string>): string
  {
    if lines == [] then ""
    else if |lines| == 1 then lines[0]
    else lines[0] + "\n" + Join(lines[1..])
  }

  /** Cuts a text at every "\n": the reading-back partner of `Join`. */
  function Split(s: string): (r: seq<string>)
    ensures |r| > 0
  {
    if s == [] then [""]
    else if s[0] == '\n' then [""] + Split(s[1..])
    else var t := Split(s[1..]); [[s[0]] + t[0]] + t[1..]
  }

  lemma {:induction false} SplitNoNewline(s: string)
    requires '\n' !in s
    ensures Split(s) == [s]
  {
    if s != [] {
      assert '\n' !in s[1..] by {
        forall c | c in s[1..] ensures c in s { }
      }
      SplitNoNewline(s[1..]);
      assert [s[0]] + s[1..] == s;
    }
  }

  lemma {:induction false} SplitAtNewline(a: string, b: string)
    requires '\n' !in a
    ensures Split(a + "\n" + b) == [a] + Split(b)
  {
    if a == [] {
      assert a + "\n" + b == ['\n'] + b;
      assert (['\n'] + b)[1..] == b;
    } else {
      var s := a + "\n" + b;
      assert s[0] == a[0];
      assert s[1..] == a[1..] + "\n" + b;
      assert '\n' !in a[1..] by {
        forall c | c in a[1..] ensures c in a { }
      }
      SplitAtNewline(a[1..], b);
      assert [a[0]] + a[1..] == a;
    }
  }

  /** Joining lines that hold no "\n" and cutting the result again gives back the lines. */
  lemma {:induction false} SplitJoin(lines: seq<string>)
    requires |lines| > 0
    requires forall k :: 0 <= k < |lines| ==> '\n' !in lines[k]
    ensures Split(Join(lines)) == lines
  {
    if |lines| == 1 {
      SplitNoNewline(lines[0]);
    } else {
      SplitJoin(lines[1..]);
      SplitAtNewline(lines[0], Join(lines[1..]));
      assert [lines[0]] + lines[1..] == lines;
    }
  }

  // ---------------------------------------------------------------------------
  // The summary's lines

  /** Line `i` of the summary: `"{i}. {exercise}"`. */
  function ItemLine(i: nat, e: Exercise, fmt: Formatter): string
  {
    NatText(i) + ". " + Render(e, fmt)
  }

  /** The closing line; both totals are printed with `:.0f`. */
  function TotalsLine(calories: real, minutes: real, fmt: Formatter): string
  {
    "Total: " + fmt(calories, Fixed(0)) + " calories, " + fmt(minutes, Fixed(0)) + " minutes"
  }

  /** The lines of a non-empty summary: header, one numbered line per exercise, totals. */
  function SummaryLines(es: seq<Exercise>, fmt: Formatter): seq<string>
  {
    [SummaryHeader] + ItemLines(es, fmt) + [TotalsLine(SumOf(es, Calories), SumOf(es, Duration), fmt)]
  }

  /** One line per exercise, numbered from 1. */
  function ItemLines(es: seq<Exercise>, fmt: Formatter): seq<string>
  {
    seq(|es|, k requires 0 <= k < |es| => ItemLine(k + 1, es[k], fmt))
  }

  /** The header and the numbered lines, followed by the totals line, are the summary's lines. */
  lemma {:induction false} AssembledSummary(es: seq<Exercise>, fmt: Formatter, lines: seq<string>)
    requires |lines| == |es| + 1 && lines[0] == SummaryHeader
    requires forall k :: 0 <= k < |es| ==> lines[k + 1] == ItemLine(k + 1, es[k], fmt)
    ensures lines + [TotalsLine(SumOf(es, Calories), SumOf(es, Duration), fmt)] == SummaryLines(es, fmt)
  {
    var items := ItemLines(es, fmt);
    assert lines[1..] == items by {
      forall k | 0 <= k < |es| ensures lines[1..][k] == items[k] { }
    }
    assert lines == [SummaryHeader] + lines[1..];
  }

  /** A formatter that never prints a line break. */
  ghost predicate NewlineFreeFormatter(fmt: Formatter)
  {
    forall x, f :: '\n' !in fmt(x, f)
  }

  lemma NatTextNewlineFree(n: nat)
    ensures '\n' !in NatText(n)
  {
  }

  lemma IntTextNewlineFree(n: int)
    ensures '\n' !in IntText(n)
  {
  }

  lemma {:induction false} RenderNewlineFree(e: Exercise, fmt: Formatter)
    requires '\n' !in e.name && NewlineFreeFormatter(fmt)
    ensures '\n' !in Render(e, fmt)
  {
    var parts := RenderParts(e, fmt);
    forall k | 0 <= k < |parts| ensures '\n' !in parts[k] {
      if e.Strength? {
        IntTextNewlineFree(e.reps);
        IntTextNewlineFree(e.sets);
      } else if e.Flexibility? {
        assert e.intensity == "low" || e.intensity == "medium" || e.intensity == "high";
      }
    }
    NoBreakJoin(parts);
  }

  lemma {:induction false} NoBreakJoin(parts: seq<string>)
    requires forall k :: 0 <= k < |parts| ==> '\n' !in parts[k]
    ensures '\n' !in Concat(parts)
  {
    if parts != [] {
      NoBreakJoin(parts[..|parts| - 1]);
    }
  }

  /** No summary line breaks when no name and no printed number does. */
  lemma {:induction false} SummaryLinesNewlineFree(es: seq<Exercise>, fmt: Formatter)
    requires forall k :: 0 <= k < |es| ==> '\n' !in es[k].name
    requires NewlineFreeFormatter(fmt)
    ensures forall k :: 0 <= k < |SummaryLines(es, fmt)| ==> '\n' !in SummaryLines(es, fmt)[k]
  {
    var lines := SummaryLines(es, fmt);
    forall k | 0 <= k < |lines| ensures '\n' !in lines[k] {
      if 1 <= k <= |es| {
        assert lines[k] == NatText(k) + ". " + Render(es[k - 1], fmt);
        RenderNewlineFree(es[k - 1], fmt);
        NatTextNewlineFree(k);
      } else if k == |es| + 1 {
        var cal, dur := SumOf(es, Calories), SumOf(es, Duration);
        assert lines[k] == TotalsLine(cal, dur, fmt);
        assert '\n' !in fmt(cal, Fixed(0)) && '\n' !in fmt(dur, Fixed(0));
      }
    }
  }

  /**
   Read back as text, a non-empty summary has exactly `n + 2` lines: the header,
   line `i` numbered `i` for each of the `n` exercises, and the totals line
   (provided no exercise name and no printed number contains a line break).
   */
  lemma {:induction false} SummaryLineStructure(es: seq<Exercise>, fmt: Formatter)
    requires es != []
    requires forall k :: 0 <= k < |es| ==> '\n' !in es[k].name
    requires NewlineFreeFormatter(fmt)
    ensures var lines := Split(Join(SummaryLines(es, fmt)));
      && |lines| == |es| + 2
      && lines[0] == SummaryHeader
      && (forall i :: 1 <= i <= |es| ==>
            lines[i] == NatText(i) + ". " + Render(es[i - 1], fmt)
            && ParseNat(lines[i][..|NatText(i)|]) == i)
      && |lines[|es| + 1]| >= 7 && lines[|es| + 1][..7] == "Total: "
  {
    var lines := SummaryLines(es, fmt);
    SummaryLinesNewlineFree(es, fmt);
    SplitJoin(lines);
    forall i | 1 <= i <= |es|
      ensures lines[i] == NatText(i) + ". " + Render(es[i - 1], fmt)
      ensures ParseNat(lines[i][..|NatText(i)|]) == i
    {
      ItemLineNumber(i, es[i - 1], fmt);
    }
    var cal, dur := SumOf(es, Calories), SumOf(es, Duration);
    assert lines[|es| + 1] == TotalsLine(cal, dur, fmt);
  }

  /** The number that opens an item line reads back as its position. */
  lemma {:induction false} ItemLineNumber(i: nat, e: Exercise, fmt: Formatter)
    ensures |ItemLine(i, e, fmt)| >= |NatText(i)|
    ensures ParseNat(ItemLine(i, e, fmt)[..|NatText(i)|]) == i
  {
    assert ItemLine(i, e, fmt)[..|NatText(i)|] == NatText(i);
    ParseNatText(i);
  }

  // ---------------------------------------------------------------------------
  // The workout

  class Workout {
    /** The exercises in the order they were added. */
    var exercises: seq<Exercise>

    /** A new workout is empty. */
    constructor ()
      ensures exercises == []
      ensures ExerciseCount() == 0 && TotalCalories() == 0.0 && TotalDuration() == 0.0
    {
      exercises := [];
    }

    /**
     Appends an exercise at the end; any other value is refused with a
     `TypeError` and leaves the workout as it was.
     */
    method AddExercise(v: Value) returns (r: Result<()>)
      modifies this
      ensures v.ExerciseValue? ==> r == Ok(()) && exercises == old(exercises) + [v.exercise]
      ensures v.OtherValue? ==> r == Err(TypeError(AddError)) && exercises == old(exercises)
      ensures v.ExerciseValue? ==> ExerciseCount() == old(ExerciseCount()) + 1
      ensures v.ExerciseValue? ==> TotalCalories() == old(TotalCalories()) + Calories(v.exercise)
      ensures v.ExerciseValue? ==> TotalDuration() == old(TotalDuration()) + Duration(v.exercise)
    {
      if !v.ExerciseValue? {
        return Err(TypeError(AddError));
      }
      SumOfAppend(exercises, [v.exercise], Calories);
      SumOfAppend(exercises, [v.exercise], Duration);
      exercises := exercises + [v.exercise];
      r := Ok(());
    }

    /** A fresh copy of the exercise list: changing it leaves the workout alone. */
    method GetExercises() returns (copy: array<Exercise>)
      ensures fresh(copy)
      ensures copy[..] == exercises && copy.Length == ExerciseCount()
    {
      copy := new Exercise[|exercises|](k reads this requires 0 <= k < |exercises| => exercises[k]);
    }

    function TotalCalories(): real
      reads this
    {
      SumOf(exercises, Calories)
    }

    function TotalDuration(): real
      reads this
    {
      SumOf(exercises, Duration)
    }

    function ExerciseCount(): nat
      reads this
    {
      |exercises|
    }

    /** `len(workout)` */
    function Length(): nat
      reads this
    {
      |exercises|
    }

    /**
     The summary: the fixed sentinel for an empty workout, otherwise the
     header, the numbered exercise lines and the totals line, joined by "\n".
     */
    method GetSummary(fmt: Formatter) returns (summary: string)
      ensures exercises == [] ==> summary == EmptySummary
      ensures exercises != [] ==> summary == Join(SummaryLines(exercises, fmt))
    {
      if exercises == [] {
        return EmptySummary;
      }
      var lines := [SummaryHeader];
      for i := 0 to |exercises|
        invariant |lines| == i + 1 && lines[0] == SummaryHeader
        invariant forall k :: 0 <= k < i ==> lines[k + 1] == ItemLine(k + 1, exercises[k], fmt)
      {
        lines := lines + [ItemLine(i + 1, exercises[i], fmt)];
      }
      AssembledSummary(exercises, fmt, lines);
      lines := lines + [TotalsLine(TotalCalories(), TotalDuration(), fmt)];
      summary := Join(lines);
    }

    /** The one-line description: `"Workout with {count} exercises, {calories:.0f} calories"`. */
    function Describe(fmt: Formatter): string
      reads this
    {
      "Workout with " + NatText(ExerciseCount()) + " exercises, "
      + fmt(TotalCalories(), Fixed(0)) + " calories"
    }
  }

  // ---------------------------------------------------------------------------
  // Properties of a workout

  /** `len(workout)` and `exercise_count()` agree. */
  lemma LengthIsCount(w: Workout)
    ensures w.Length() == w.ExerciseCount() == |w.exercises|
  {
  }

  /**
   The totals are what Python's `sum` over the exercises computes: start at 0
   and add each exercise's value in the order the exercises were added.
   */
  lemma TotalsAreLeftSums(w: Workout)
    ensures w.TotalCalories() == SumLeft(w.exercises, Calories)
    ensures w.TotalDuration() == SumLeft(w.exercises, Duration)
  {
    SumOfIsSumLeft(w.exercises, Calories);
    SumOfIsSumLeft(w.exercises, Duration);
  }

  /** The count in the one-line description reads back as the number of exercises. */
  lemma DescribeCount(w: Workout, fmt: Formatter)
    ensures var d := w.Describe(fmt); var t := NatText(w.ExerciseCount());
      && |d| >= 13 + |t|
      && d[..13] == "Workout with "
      && ParseNat(d[13..13 + |t|]) == w.ExerciseCount()
  {
    var d := w.Describe(fmt);
    var t := NatText(w.ExerciseCount());
    assert d[13..13 + |t|] == t;
    ParseNatText(w.ExerciseCount());
  }

  /** Changing the copy `GetExercises` returns does not change the workout. */
  method ChangeCopy(w: Workout, e: Exercise) returns (copy: array<Exercise>)
    requires w.ExerciseCount() > 0
    ensures copy.Length == w.ExerciseCount()
    ensures copy[0] == e && copy[1..] == w.exercises[1..]
    ensures w.exercises == old(w.exercises)
  {
    copy := w.GetExercises();
    copy[0] := e;
  }

  /** Running 3 miles in 30 minutes, then 3 sets of 10 bench presses at 100 lbs. */
  method RunningAndBenchPress(today: string) returns (calories: real, minutes: real, count: nat)
    ensures calories == 450.0 && minutes == 39.0 && count == 2
  {
    var w := new Workout();
    var added := w.AddExercise(ExerciseValue(NewCardio("Running", 3.0, 30.0, None, today)));
    added := w.AddExercise(ExerciseValue(NewStrength("Bench Press", 100.0, 10, 3, None, today)));
    added := w.AddExercise(OtherValue("str"));
    calories, minutes, count := w.TotalCalories(), w.TotalDuration(), w.ExerciseCount();
  }
}
