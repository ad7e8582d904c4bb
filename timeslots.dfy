/** The time-slot grid of the booking wizard (components/Booking/DateTimeSelector.tsx,
    and the same list inline in components/BookingComponent.tsx): twelve fixed
    half-hour labels, each available unless the server reported it booked. */
module TimeSlots {
  import opened Wrappers

  const AllTimeSlots: seq<string> := [
    "09:00 AM", "09:30 AM", "10:00 AM", "10:30 AM", "11:00 AM", "11:30 AM",
    "02:00 PM", "02:30 PM", "03:00 PM", "03:30 PM", "04:00 PM", "04:30 PM"
  ]

  /** Twelve labels of eight characters, 09:00 AM to 11:30 AM and 02:00 PM to
      04:30 PM, no two alike. */
  lemma AllTimeSlotsDistinct()
    ensures |AllTimeSlots| == 12
    ensures AllTimeSlots[0] == "09:00 AM" && AllTimeSlots[5] == "11:30 AM"
    ensures AllTimeSlots[6] == "02:00 PM" && AllTimeSlots[11] == "04:30 PM"
    ensures forall i, j :: 0 <= i < j < |AllTimeSlots| ==> AllTimeSlots[i] != AllTimeSlots[j]
    ensures forall i :: 0 <= i < |AllTimeSlots| ==> |AllTimeSlots[i]| == 8
  {
    forall i, j | 0 <= i < j < |AllTimeSlots|
      ensures AllTimeSlots[i] != AllTimeSlots[j]
    {
      var a, b := AllTimeSlots[i], AllTimeSlots[j];
      if i < 6 && j >= 6 {
        assert a[6] == 'A' && b[6] == 'P';
      } else if (i < 6 && j < 6) || (i >= 6 && j >= 6) {
        assert a[1] != b[1] || a[3] != b[3];
      }
    }
  }

  /** No label is empty, so a chosen slot always fills the draft's time. */
  lemma NoEmptyLabel()
    ensures "" !in AllTimeSlots
  {
    forall i | 0 <= i < |AllTimeSlots|
      ensures AllTimeSlots[i] != ""
    {
      assert |AllTimeSlots[i]| == 8;
    }
  }

  datatype TimeSlot = TimeSlot(time: string, available: bool)

  /** `labels.map(time => ({ time, available: !booked.includes(time) }))`. */
  function MarkSlots(labels: seq<string>, booked: seq<string>): (r: seq<TimeSlot>)
    ensures |r| == |labels|
    ensures forall i :: 0 <= i < |r| ==> r[i].time == labels[i]
    ensures forall i :: 0 <= i < |r| ==> (r[i].available <==> labels[i] !in booked)
  {
    seq(|labels|, k requires 0 <= k < |labels| => TimeSlot(labels[k], labels[k] !in booked))
  }

  /** `availableSlots`: the twelve labels in order, each available exactly when
      it is not in the booked list. */
  function AvailableSlots(booked: seq<string>): (r: seq<TimeSlot>)
    ensures |r| == 12
    ensures forall i :: 0 <= i < 12 ==> r[i].time == AllTimeSlots[i]
    ensures forall i :: 0 <= i < 12 ==> (r[i].available <==> AllTimeSlots[i] !in booked)
  {
    MarkSlots(AllTimeSlots, booked)
  }

  /** Booking more labels never frees a slot: availability is monotone. */
  lemma AvailabilityMonotone(booked: seq<string>, more: seq<string>)
    requires forall x :: x in booked ==> x in more
    ensures forall i :: 0 <= i < 12 ==>
      AvailableSlots(more)[i].available ==> AvailableSlots(booked)[i].available
  {
  }

  /** Booked entries that are not one of the twelve labels change nothing. */
  lemma LabelsOutsideUniverseIgnored(booked: seq<string>, extra: seq<string>)
    requires forall x :: x in extra ==> x !in AllTimeSlots
    ensures AvailableSlots(booked + extra) == AvailableSlots(booked)
  {
    MarkSlotsIgnoresOthers(AllTimeSlots, booked, extra);
  }

  lemma {:induction false} MarkSlotsIgnoresOthers(labels: seq<string>, booked: seq<string>, extra: seq<string>)
    requires forall x :: x in extra ==> x !in labels
    ensures MarkSlots(labels, booked + extra) == MarkSlots(labels, booked)
    decreases |labels|
  {
    if |labels| > 0 {
      assert labels[0] in labels;
      assert forall x :: x in labels[1..] ==> x in labels;
      MarkSlotsIgnoresOthers(labels[1..], booked, extra);
    }
  }

  /** With nothing booked (the fail-open answer) all twelve slots are free. */
  lemma NothingBookedAllAvailable()
    ensures forall i :: 0 <= i < 12 ==> AvailableSlots([])[i].available
  {
  }

  /** One button of the grid: its label and whether it is disabled. */
  datatype SlotButton = SlotButton(time: string, disabled: bool)

  /** The grid as `DateTimeSelector` renders it: no buttons at all while the
      booked slots are loading, otherwise one button per slot, disabled
      exactly when the slot is not available. */
  function SlotButtons(isLoading: bool, booked: seq<string>): (r: seq<SlotButton>)
    ensures isLoading ==> r == []
    ensures !isLoading ==> |r| == 12
    ensures !isLoading ==> forall i :: 0 <= i < |r| ==>
      r[i].time == AllTimeSlots[i] && (r[i].disabled <==> AllTimeSlots[i] in booked)
  {
    if isLoading then [] else Grid(AllTimeSlots, booked)
  }

  function Grid(labels: seq<string>, booked: seq<string>): (r: seq<SlotButton>)
    ensures |r| == |labels|
    ensures forall i :: 0 <= i < |r| ==> r[i].time == labels[i] && (r[i].disabled <==> labels[i] in booked)
  {
    Buttons(MarkSlots(labels, booked))
  }

  function Buttons(slots: seq<TimeSlot>): (r: seq<SlotButton>)
    ensures |r| == |slots|
    ensures forall i :: 0 <= i < |r| ==> r[i] == SlotButton(slots[i].time, !slots[i].available)
    decreases |slots|
  {
    if |slots| == 0 then [] else [SlotButton(slots[0].time, !slots[0].available)] + Buttons(slots[1..])
  }

  /** Clicking button `i`: a disabled button delivers no click, an enabled one
      calls `onTimeSelect` with its label. */
  function Click(buttons: seq<SlotButton>, i: nat): (r: Option<string>)
    requires i < |buttons|
    ensures r.Some? <==> !buttons[i].disabled
    ensures r.Some? ==> r.value == buttons[i].time
  {
    if buttons[i].disabled then None else Some(buttons[i].time)
  }

  /** A click on the grid never selects a booked label, and never selects
      anything while loading (there is nothing to click). */
  lemma {:induction false} ClickNeverSelectsBooked(isLoading: bool, booked: seq<string>, i: nat)
    requires i < |SlotButtons(isLoading, booked)|
    ensures !isLoading
    ensures Click(SlotButtons(isLoading, booked), i).Some? ==>
      Click(SlotButtons(isLoading, booked), i).value == AllTimeSlots[i] &&
      AllTimeSlots[i] !in booked
  {
  }
}
