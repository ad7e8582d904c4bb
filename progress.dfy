/** The progress indicator above both booking wizards
    (components/Booking/BookingProgress.tsx): four numbered steps with
    translated labels, a header showing the current step's label, and one
    circle per step that is highlighted once reached and shows a check once
    passed. */
module BookingProgress {
  import opened Wrappers
  import opened Json
  import Translation

  const StepKeys: seq<string> := ["booking.step1", "booking.step2", "booking.step3", "booking.step4"]

  datatype StepItem = StepItem(num: int, text: string)

  /** `steps`: numbers 1 to 4, each labelled by the translation of its key. */
  function Steps(messages: Json): (r: seq<StepItem>)
    ensures |r| == 4
    ensures forall i :: 0 <= i < 4 ==> r[i].num == i + 1
    ensures forall i :: 0 <= i < 4 ==> r[i].text == Translation.Translate(messages, StepKeys[i])
  {
    seq(4, i requires 0 <= i < 4 => StepItem(i + 1, Translation.Translate(messages, StepKeys[i])))
  }

  /** `steps[currentStep - 1]?.label`: an index outside the array reads
      `undefined`, which renders nothing. */
  function HeaderLabel(messages: Json, currentStep: int): (r: Option<string>)
    ensures r.Some? <==> 1 <= currentStep <= 4
    ensures r.Some? ==> r.value == Translation.Translate(messages, StepKeys[currentStep - 1])
  {
    var steps := Steps(messages);
    if 0 <= currentStep - 1 < |steps| then Some(steps[currentStep - 1].text) else None
  }

  /** What a step's circle shows: its colour and either a check or its number. */
  datatype Circle = Circle(highlighted: bool, checked: bool, num: int)

  /** The circle of step `item` at step `currentStep`. */
  function CircleOf(currentStep: int, item: StepItem): Circle
  {
    Circle(currentStep >= item.num, currentStep > item.num, item.num)
  }

  /** The row of circles, one per step in order. */
  function Circles(messages: Json, currentStep: int): (r: seq<Circle>)
    ensures |r| == 4
    ensures forall i :: 0 <= i < 4 ==> r[i].num == i + 1
    ensures forall i :: 0 <= i < 4 ==> (r[i].highlighted <==> currentStep >= i + 1)
    ensures forall i :: 0 <= i < 4 ==> (r[i].checked <==> currentStep > i + 1)
  {
    var steps := Steps(messages);
    seq(4, i requires 0 <= i < 4 => CircleOf(currentStep, steps[i]))
  }

  /** A checked circle is highlighted, and the highlighted circles are a
      prefix of the row: every step before a reached one is reached too. */
  lemma CirclesFillFromTheLeft(messages: Json, currentStep: int)
    ensures forall i :: 0 <= i < 4 ==>
      Circles(messages, currentStep)[i].checked ==> Circles(messages, currentStep)[i].highlighted
    ensures forall i, j :: 0 <= i <= j < 4 && Circles(messages, currentStep)[j].highlighted ==>
      Circles(messages, currentStep)[i].highlighted
  {
  }

  /** The number of circles satisfying `highlighted` (or `checked`) from `i`
      on. */
  function CountFrom(row: seq<Circle>, i: nat, checked: bool): (n: nat)
    requires i <= |row|
    ensures n <= |row| - i
    decreases |row| - i
  {
    if i == |row| then 0
    else (if (if checked then row[i].checked else row[i].highlighted) then 1 else 0) + CountFrom(row, i + 1, checked)
  }

  function Clamp(x: int): int
  {
    if x < 0 then 0 else if x > 4 then 4 else x
  }

  /** At step `s` exactly `s` circles are highlighted and `s - 1` checked,
      bounded by the four steps. */
  lemma {:induction false} CountsFollowStep(messages: Json, currentStep: int)
    ensures CountFrom(Circles(messages, currentStep), 0, false) == Clamp(currentStep)
    ensures CountFrom(Circles(messages, currentStep), 0, true) == Clamp(currentStep - 1)
  {
    var row := Circles(messages, currentStep);
    CountBelow(row, 0, currentStep, false);
    CountBelow(row, 0, currentStep - 1, true);
  }

  /** When exactly the circles at positions below `bound` are counted, the
      count from `i` on is the size of `[i, bound)` within the row. */
  lemma {:induction false} CountBelow(row: seq<Circle>, i: nat, bound: int, checked: bool)
    requires |row| == 4 && i <= 4
    requires forall k :: 0 <= k < 4 ==> ((if checked then row[k].checked else row[k].highlighted) <==> k < bound)
    ensures CountFrom(row, i, checked) == Clamp(bound) - (if i < Clamp(bound) then i else Clamp(bound))
    decreases 4 - i
  {
    if i < 4 {
      CountBelow(row, i + 1, bound, checked);
    }
  }
}
